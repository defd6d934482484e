/**
 The locking order (no RT groups): pi locks by address, then runqueue locks by address, then the
 RT bandwidth lock, then the runtime locks of the RT queues. Every operation acquires locks one at
 a time; the order makes a cycle of waiting threads impossible, however the steps interleave.
 */
module LockOrder {
  import opened Util

  type Address = nat
  type Thread = nat

  datatype Lock = Pi(address: Address) | Rq(address: Address) | Bandwidth | Runtime(address: Address)

  function Class(l: Lock): nat {
    match l case Pi(_) => 0 case Rq(_) => 1 case Bandwidth => 2 case Runtime(_) => 3
  }

  function Place(l: Lock): nat {
    match l case Pi(a) => a case Rq(a) => a case Bandwidth => 0 case Runtime(a) => a
  }

  predicate Before(a: Lock, b: Lock) {
    Class(a) < Class(b) || (Class(a) == Class(b) && Place(a) < Place(b))
  }

  /* What a thread still has to do with locks. A trylock never waits; it goes on one way or the
     other. */
  datatype Code =
    | Done
    | Lock(l: Lock, next: Code)
    | TryLock(l: Lock, yes: Code, no: Code)
    | Unlock(l: Lock, next: Code)

  /* Every blocking acquisition comes after all locks held, none is released that is not held, and
     all are released in the end. */
  ghost predicate Ordered(c: Code, held: set<Lock>) {
    match c
    case Done => held == {}
    case Lock(l, next) => (forall h :: h in held ==> Before(h, l)) && Ordered(next, held + {l})
    case TryLock(l, yes, no) => l !in held && Ordered(yes, held + {l}) && Ordered(no, held)
    case Unlock(l, next) => l in held && Ordered(next, held - {l})
  }

  // ----- threads that run such code

  datatype State = State(code: map<Thread, Code>, held: map<Thread, set<Lock>>)

  ghost predicate Known(s: State) { s.code.Keys == s.held.Keys }

  ghost predicate Free(s: State, l: Lock) {
    forall t :: t in s.held ==> l !in s.held[t]
  }

  /* The state after the next step of t, or none if t is done or must wait for a lock. */
  ghost function Step(s: State, t: Thread): Option<State>
    requires Known(s) && t in s.code
  {
    match s.code[t]
    case Done => None
    case Lock(l, next) => if Free(s, l) then Some(Put(s, t, next, s.held[t] + {l})) else None
    case TryLock(l, yes, no) => Some(if Free(s, l) then Put(s, t, yes, s.held[t] + {l}) else Put(s, t, no, s.held[t]))
    case Unlock(l, next) => Some(Put(s, t, next, s.held[t] - {l}))
  }

  function Put(s: State, t: Thread, c: Code, held: set<Lock>): State {
    State(s.code[t := c], s.held[t := held])
  }

  ghost predicate Inv(s: State) {
    && Known(s)
    && (forall t {:trigger s.held[t]} :: t in s.held ==> Ordered(s.code[t], s.held[t]))
    && (forall t, u {:trigger s.held[t], s.held[u]} :: t in s.held && u in s.held && t != u ==> s.held[t] !! s.held[u])
  }

  lemma StepKeeps(s: State, t: Thread)
    requires Inv(s) && t in s.code && Step(s, t).Some?
    ensures Inv(Step(s, t).value) && Step(s, t).value.code.Keys == s.code.Keys
  {
    assert t in s.held;
    assert Ordered(s.code[t], s.held[t]);
  }

  /* A thread that is done starts another operation. */
  lemma StartKeeps(s: State, t: Thread, c: Code)
    requires Inv(s) && (t in s.code ==> s.code[t] == Done) && Ordered(c, {})
    ensures Inv(Put(s, t, c, {}))
  {
  }

  /* t waits for a lock that u holds. */
  ghost predicate WaitsFor(s: State, t: Thread, u: Thread) {
    t in s.code && u in s.held && s.code[t].Lock? && s.code[t].l in s.held[u]
  }

  ghost predicate Chain(s: State, ts: seq<Thread>) {
    forall i :: 0 <= i < |ts| - 1 ==> WaitsFor(s, ts[i], ts[i + 1])
  }

  /* Along threads that wait for each other the locks wanted go up. */
  lemma {:induction false} ChainGoesUp(s: State, ts: seq<Thread>)
    requires Inv(s) && Chain(s, ts) && |ts| >= 2
    ensures ts[0] in s.held && ts[|ts| - 2] in s.code && s.code[ts[|ts| - 2]].Lock?
    ensures forall h :: h in s.held[ts[0]] ==> Before(h, s.code[ts[|ts| - 2]].l)
  {
    var n := |ts|;
    assert WaitsFor(s, ts[0], ts[1]) && WaitsFor(s, ts[n - 2], ts[n - 1]);
    assert ts[0] in s.held && ts[1] in s.held;
    if n > 2 {
      forall i | 0 <= i < n - 2 ensures WaitsFor(s, ts[1..][i], ts[1..][i + 1]) {
        assert WaitsFor(s, ts[i + 1], ts[i + 2]);
      }
      ChainGoesUp(s, ts[1..]);
      assert ts[1..][n - 3] == ts[n - 2];
    }
  }

  /* No threads wait for each other in a cycle. */
  lemma NoWaitCycle(s: State, ts: seq<Thread>)
    requires Inv(s) && |ts| >= 1 && Chain(s, ts)
    ensures !WaitsFor(s, ts[|ts| - 1], ts[0])
  {
    var n := |ts|;
    if WaitsFor(s, ts[n - 1], ts[0]) {
      var c := ts + [ts[0]];
      forall i | 0 <= i < |c| - 1 ensures WaitsFor(s, c[i], c[i + 1]) {
        if i < n - 1 { assert WaitsFor(s, ts[i], ts[i + 1]); }
      }
      ChainGoesUp(s, c);
    }
  }

  lemma {:induction false} LastLock(s: set<Lock>) returns (m: Lock)
    requires s != {}
    ensures m in s && forall l :: l in s ==> !Before(m, l)
    decreases |s|
  {
    var l :| l in s;
    if s == {l} {
      m := l;
    } else {
      m := LastLock(s - {l});
      forall x | x in s ensures x == l || !Before(m, x) { assert x == l || x in s - {l}; }
      if Before(m, l) { m := l; }
    }
  }

  /* As long as a thread is not done, some thread that is not done can take a step. */
  lemma SomeoneMoves(s: State)
    requires Inv(s) && exists t :: t in s.code && s.code[t] != Done
    ensures exists t :: t in s.code && Step(s, t).Some?
  {
    var t :| t in s.code && s.code[t] != Done;
    if s.code[t].Lock? {
      var wanted := set u | u in s.code && s.code[u].Lock? :: s.code[u].l;
      assert s.code[t].l in wanted;
      var m := LastLock(wanted);
      var u :| u in s.code && s.code[u].Lock? && s.code[u].l == m;
      forall w | w in s.code && s.code[w].Lock? ensures !Before(m, s.code[w].l) { assert s.code[w].l in wanted; }
      if !Free(s, m) {
        var v :| v in s.held && m in s.held[v];
        assert v in s.code && Ordered(s.code[v], s.held[v]);
        assert Step(s, v).Some?;
      } else {
        assert Step(s, u).Some?;
      }
    } else {
      assert Step(s, t).Some?;
    }
  }

  // ----- the lock helpers; next is what follows

  function DoubleRqLock(a: Address, b: Address, next: Code): Code {
    if a == b then Lock(Rq(a), next)
    else if a < b then Lock(Rq(a), Lock(Rq(b), next))
    else Lock(Rq(b), Lock(Rq(a), next))
  }

  function DoubleRqUnlock(a: Address, b: Address, next: Code): Code {
    Unlock(Rq(a), if a != b then Unlock(Rq(b), next) else next)
  }

  function DoubleRawLock(p: Address, q: Address, next: Code): Code {
    if p > q then Lock(Pi(q), Lock(Pi(p), next)) else Lock(Pi(p), Lock(Pi(q), next))
  }

  /* Both variants of _double_lock_balance: fair is CONFIG_PREEMPT's. */
  function DoubleLockBalance(fair: bool, this_rq: Address, busiest: Address, next: Code): Code {
    if fair then Unlock(Rq(this_rq), DoubleRqLock(this_rq, busiest, next))
    else
      TryLock(Rq(busiest), next,
              if busiest < this_rq then Unlock(Rq(this_rq), Lock(Rq(busiest), Lock(Rq(this_rq), next)))
              else Lock(Rq(busiest), next))
  }

  /* The loops over the RT queues of all CPUs. */
  function LockEach(rqs: seq<Address>, next: Code): Code {
    if rqs == [] then next else Lock(Runtime(rqs[0]), Unlock(Runtime(rqs[0]), LockEach(rqs[1..], next)))
  }

  function BalanceRuntime(rq: Address, neighbours: seq<Address>, next: Code): Code {
    Unlock(Runtime(rq), Lock(Bandwidth, LockEach(neighbours, Unlock(Bandwidth, Lock(Runtime(rq), next)))))
  }

  /* What is done to a locked runqueue: update_curr_rt, which may borrow from its neighbours, and
     start_rt_bandwidth. */
  datatype Work = Work(rq: Address, borrow: Option<seq<Address>>, start: bool)

  function DoWork(ws: seq<Work>, next: Code): Code {
    if ws == [] then next
    else
      var w := ws[0];
      var rest := if w.start then Lock(Bandwidth, Unlock(Bandwidth, DoWork(ws[1..], next))) else DoWork(ws[1..], next);
      Lock(Runtime(w.rq),
           if w.borrow.Some? then BalanceRuntime(w.rq, w.borrow.value, Unlock(Runtime(w.rq), rest))
           else Unlock(Runtime(w.rq), rest))
  }

  /* pull_rt_task, and push_rt_tasks with find_lock_lowest_rq: one runqueue after the other is
     locked besides this one. */
  datatype Visit = Visit(rq: Address, work: seq<Work>)

  function Balance(fair: bool, this_rq: Address, visits: seq<Visit>, next: Code): Code {
    if visits == [] then next
    else
      DoubleLockBalance(fair, this_rq, visits[0].rq,
                        DoWork(visits[0].work, Unlock(Rq(visits[0].rq), Balance(fair, this_rq, visits[1..], next))))
  }

  /* Work on a locked runqueue, and then push or pull: activation and ttwu_do_wakeup, whose
     task_woken_rt pushes, or a change of class with its switched_to. */
  datatype Turn = Turn(work: seq<Work>, visits: seq<Visit>)

  function TakeTurn(fair: bool, rq: Address, u: Turn, next: Code): Code {
    DoWork(u.work, Balance(fair, rq, u.visits, next))
  }

  /* sched_ttwu_pending's loop. */
  function TakeTurns(fair: bool, rq: Address, turns: seq<Turn>, next: Code): Code {
    if turns == [] then next
    else TakeTurn(fair, rq, turns[0], TakeTurns(fair, rq, turns[1..], next))
  }

  /* task_rq_lock finds the task moved away from each of `tried` before it gets hold of rq. */
  function TaskRqLock(p: Address, tried: seq<Address>, rq: Address, next: Code): Code {
    if tried == [] then Lock(Pi(p), Lock(Rq(rq), next))
    else Lock(Pi(p), Lock(Rq(tried[0]), Unlock(Rq(tried[0]), Unlock(Pi(p), TaskRqLock(p, tried[1..], rq, next)))))
  }

  /* __task_rq_lock, under the pi lock. */
  function RqLock(tried: seq<Address>, rq: Address, next: Code): Code {
    if tried == [] then Lock(Rq(rq), next)
    else Lock(Rq(tried[0]), Unlock(Rq(tried[0]), RqLock(tried[1..], rq, next)))
  }

  // ----- the operations

  datatype Operation =
    | ChangeTask(p: Address, tried: seq<Address>, rq: Address, turn: Turn)
    | SetAffinity(p: Address, tried: seq<Address>, rq: Address, work: seq<Work>, dst: Address)
    | MigrateTask(p: Address, rq: Address, work: seq<Work>, dst: Address)
    | MigrateSwap(p: Address, q: Address, rq: Address, rq2: Address, work: seq<Work>)
    | WakeUp(p: Address, remote: Option<(seq<Address>, Address, Turn)>, local: Option<(Address, Turn)>)
    | Pending(rq: Address, turns: seq<Turn>)
    | Schedule(rq: Address, wake: Option<(Address, Turn)>, turn: Turn)
    | PostSchedule(rq: Address, visits: seq<Visit>)
    | PeriodTimer(ticks: seq<Work>)
    | Offline(rq: Address, reclaim: Option<seq<Address>>)
    | Online(rq: Address)
    | SetGlobal(cpus: seq<Address>)

  /* From a locked runqueue to another, under the pi lock, and unlock all. */
  function MoveTo(p: Address, rq: Address, work: seq<Work>, dst: Address): Code {
    DoWork(work, Unlock(Rq(rq), Lock(Rq(dst), DoWork(work, Unlock(Rq(dst), Unlock(Pi(p), Done))))))
  }

  function TimerLoop(ticks: seq<Work>, next: Code): Code {
    if ticks == [] then next
    else Lock(Rq(ticks[0].rq), DoWork([ticks[0]], Unlock(Rq(ticks[0].rq), TimerLoop(ticks[1..], next))))
  }

  function CodeOf(fair: bool, op: Operation): Code {
    match op
    case ChangeTask(p, tried, rq, turn) =>
      TaskRqLock(p, tried, rq, TakeTurn(fair, rq, turn, Unlock(Rq(rq), Unlock(Pi(p), Done))))
    case SetAffinity(p, tried, rq, work, dst) =>  // move_queued_task
      TaskRqLock(p, tried, rq, MoveTo(p, rq, work, dst))
    case MigrateTask(p, rq, work, dst) =>
      Lock(Pi(p), Lock(Rq(rq), MoveTo(p, rq, work, dst)))
    case MigrateSwap(p, q, rq, rq2, work) =>
      var end := Unlock(Pi(q), Unlock(Pi(p), Done));
      DoubleRawLock(p, q, DoubleRqLock(rq, rq2, DoWork(work, DoubleRqUnlock(rq, rq2, end))))
    case WakeUp(p, remote, local) =>  // ttwu_remote, then ttwu_queue unless that is left to the other CPU
      Lock(Pi(p), WakeRemote(fair, remote, WakeHere(fair, local, Unlock(Pi(p), Done))))
    case Pending(rq, turns) => Lock(Rq(rq), TakeTurns(fair, rq, turns, Unlock(Rq(rq), Done)))
    case Schedule(rq, wake, turn) =>
      var rest := TakeTurn(fair, rq, turn, Unlock(Rq(rq), Done));
      Lock(Rq(rq), if wake.None? then rest else WakeLocal(fair, rq, wake.value.0, wake.value.1, rest))
    case PostSchedule(rq, visits) => Lock(Rq(rq), Balance(fair, rq, visits, Unlock(Rq(rq), Done)))
    case PeriodTimer(ticks) => TimerLoop(ticks, Done)
    case Offline(rq, reclaim) =>  // __disable_runtime
      var end := Unlock(Runtime(rq), Unlock(Bandwidth, Unlock(Rq(rq), Done)));
      Lock(Rq(rq), Lock(Bandwidth, Lock(Runtime(rq),
        if reclaim.None? then end else Unlock(Runtime(rq), LockEach(reclaim.value, Lock(Runtime(rq), end))))))
    case Online(rq) =>
      Lock(Rq(rq), Lock(Bandwidth, Lock(Runtime(rq), Unlock(Runtime(rq), Unlock(Bandwidth, Unlock(Rq(rq), Done))))))
    case SetGlobal(cpus) => Lock(Bandwidth, LockEach(cpus, Unlock(Bandwidth, Done)))
  }

  function WakeRemote(fair: bool, remote: Option<(seq<Address>, Address, Turn)>, next: Code): Code {
    if remote.None? then next
    else
      var (tried, rq, turn) := remote.value;
      RqLock(tried, rq, TakeTurn(fair, rq, turn, Unlock(Rq(rq), next)))
  }

  function WakeHere(fair: bool, local: Option<(Address, Turn)>, next: Code): Code {
    if local.None? then next
    else
      var (rq, turn) := local.value;
      Lock(Rq(rq), TakeTurn(fair, rq, turn, Unlock(Rq(rq), next)))
  }

  /* try_to_wake_up_local, with rq locked. */
  function WakeLocal(fair: bool, rq: Address, p: Address, turn: Turn, rest: Code): Code {
    var next := TakeTurn(fair, rq, turn, Unlock(Pi(p), rest));
    TryLock(Pi(p), next, Unlock(Rq(rq), Lock(Pi(p), Lock(Rq(rq), next))))
  }

  /* What the source demands of its callers: never two locks that are the same. */
  predicate Sensible(op: Operation) {
    match op
    case ChangeTask(_, _, rq, turn) => Others(rq, turn.visits)
    case MigrateSwap(p, q, _, _, _) => p != q
    case WakeUp(_, remote, local) =>
      && (remote.Some? ==> Others(remote.value.1, remote.value.2.visits))
      && (local.Some? ==> Others(local.value.0, local.value.1.visits))
    case Pending(rq, turns) => forall u :: u in turns ==> Others(rq, u.visits)
    case Schedule(rq, wake, turn) =>
      Others(rq, turn.visits) && (wake.Some? ==> Others(rq, wake.value.1.visits))
    case PostSchedule(rq, visits) => Others(rq, visits)
    case _ => true
  }

  predicate Others(rq: Address, visits: seq<Visit>) {
    forall v :: v in visits ==> v.rq != rq
  }

  // ----- each of them keeps the order

  predicate Low(held: set<Lock>) {
    forall h :: h in held ==> h.Pi? || h.Rq?
  }

  predicate PiOnly(held: set<Lock>) {
    forall h :: h in held ==> h.Pi?
  }

  lemma {:induction false} LockEachOrdered(rqs: seq<Address>, next: Code, held: set<Lock>)
    requires (forall h :: h in held ==> !h.Runtime?) && Ordered(next, held)
    ensures Ordered(LockEach(rqs, next), held)
  {
    if rqs != [] {
      LockEachOrdered(rqs[1..], next, held);
      assert held + {Runtime(rqs[0])} - {Runtime(rqs[0])} == held;
    }
  }

  lemma BalanceRuntimeOrdered(rq: Address, neighbours: seq<Address>, next: Code, held: set<Lock>)
    requires Low(held) && Ordered(next, held + {Runtime(rq)})
    ensures Ordered(BalanceRuntime(rq, neighbours, next), held + {Runtime(rq)})
  {
    assert held + {Runtime(rq)} - {Runtime(rq)} == held;
    assert held + {Bandwidth} - {Bandwidth} == held;
    var after := Unlock(Bandwidth, Lock(Runtime(rq), next));
    assert Ordered(after, held + {Bandwidth});
    LockEachOrdered(neighbours, after, held + {Bandwidth});
  }

  lemma {:induction false} DoWorkOrdered(ws: seq<Work>, next: Code, held: set<Lock>)
    requires Low(held) && Ordered(next, held)
    ensures Ordered(DoWork(ws, next), held)
  {
    if ws != [] {
      DoWorkOrdered(ws[1..], next, held);
      var w := ws[0];
      assert held + {Bandwidth} - {Bandwidth} == held;
      var rest := if w.start then Lock(Bandwidth, Unlock(Bandwidth, DoWork(ws[1..], next))) else DoWork(ws[1..], next);
      assert Ordered(rest, held);
      assert held + {Runtime(w.rq)} - {Runtime(w.rq)} == held;
      assert Ordered(Unlock(Runtime(w.rq), rest), held + {Runtime(w.rq)});
      if w.borrow.Some? { BalanceRuntimeOrdered(w.rq, w.borrow.value, Unlock(Runtime(w.rq), rest), held); }
    }
  }

  lemma DoubleRqLockOrdered(a: Address, b: Address, next: Code, held: set<Lock>)
    requires PiOnly(held) && Ordered(next, held + {Rq(a), Rq(b)})
    ensures Ordered(DoubleRqLock(a, b, next), held)
  {
    assert held + {Rq(a)} + {Rq(b)} == held + {Rq(a), Rq(b)} == held + {Rq(b)} + {Rq(a)};
    if a == b { assert held + {Rq(a)} == held + {Rq(a), Rq(b)}; }
  }

  /* Whatever is held besides are pi locks; busiest is locked in addition when it returns. */
  lemma DoubleLockBalanceOrdered(fair: bool, this_rq: Address, busiest: Address, next: Code, held: set<Lock>)
    requires PiOnly(held) && this_rq != busiest && Ordered(next, held + {Rq(this_rq), Rq(busiest)})
    ensures Ordered(DoubleLockBalance(fair, this_rq, busiest, next), held + {Rq(this_rq)})
  {
    assert held + {Rq(this_rq)} - {Rq(this_rq)} == held;
    var both := held + {Rq(this_rq), Rq(busiest)};
    assert held + {Rq(this_rq)} + {Rq(busiest)} == both == held + {Rq(busiest)} + {Rq(this_rq)};
    DoubleRqLockOrdered(this_rq, busiest, next, held);
  }

  lemma {:induction false} BalanceOrdered(fair: bool, rq: Address, visits: seq<Visit>, next: Code, held: set<Lock>)
    requires PiOnly(held) && Others(rq, visits) && Ordered(next, held + {Rq(rq)})
    ensures Ordered(Balance(fair, rq, visits, next), held + {Rq(rq)})
  {
    if visits != [] {
      var v := visits[0];
      BalanceOrdered(fair, rq, visits[1..], next, held);
      var after := Unlock(Rq(v.rq), Balance(fair, rq, visits[1..], next));
      assert held + {Rq(rq), Rq(v.rq)} - {Rq(v.rq)} == held + {Rq(rq)};
      assert Ordered(after, held + {Rq(rq), Rq(v.rq)});
      DoWorkOrdered(v.work, after, held + {Rq(rq), Rq(v.rq)});
      DoubleLockBalanceOrdered(fair, rq, v.rq, DoWork(v.work, after), held);
    }
  }

  lemma TakeTurnOrdered(fair: bool, rq: Address, u: Turn, next: Code, held: set<Lock>)
    requires PiOnly(held) && Others(rq, u.visits) && Ordered(next, held + {Rq(rq)})
    ensures Ordered(TakeTurn(fair, rq, u, next), held + {Rq(rq)})
  {
    BalanceOrdered(fair, rq, u.visits, next, held);
    DoWorkOrdered(u.work, Balance(fair, rq, u.visits, next), held + {Rq(rq)});
  }

  lemma {:induction false} PendingOrdered(fair: bool, rq: Address, turns: seq<Turn>, next: Code)
    requires Ordered(next, {Rq(rq)}) && forall u :: u in turns ==> Others(rq, u.visits)
    ensures Ordered(TakeTurns(fair, rq, turns, next), {Rq(rq)})
  {
    if turns != [] {
      PendingOrdered(fair, rq, turns[1..], next);
      assert turns[0] in turns && {} + {Rq(rq)} == {Rq(rq)};
      TakeTurnOrdered(fair, rq, turns[0], TakeTurns(fair, rq, turns[1..], next), {});
    }
  }

  lemma {:induction false} RqLockOrdered(tried: seq<Address>, rq: Address, next: Code, held: set<Lock>)
    requires PiOnly(held) && Ordered(next, held + {Rq(rq)})
    ensures Ordered(RqLock(tried, rq, next), held)
  {
    if tried != [] {
      RqLockOrdered(tried[1..], rq, next, held);
      assert held + {Rq(tried[0])} - {Rq(tried[0])} == held;
    }
  }

  lemma {:induction false} TaskRqLockOrdered(p: Address, tried: seq<Address>, rq: Address, next: Code)
    requires Ordered(next, {Pi(p), Rq(rq)})
    ensures Ordered(TaskRqLock(p, tried, rq, next), {})
  {
    assert {} + {Pi(p)} == {Pi(p)} && {Pi(p)} + {Rq(rq)} == {Pi(p), Rq(rq)};
    if tried != [] {
      TaskRqLockOrdered(p, tried[1..], rq, next);
      assert {Pi(p)} - {Pi(p)} == {};
      var drop := Unlock(Pi(p), TaskRqLock(p, tried[1..], rq, next));
      assert Ordered(drop, {Pi(p)});
      assert {Pi(p)} + {Rq(tried[0])} - {Rq(tried[0])} == {Pi(p)};
      assert Ordered(Lock(Rq(tried[0]), Unlock(Rq(tried[0]), drop)), {Pi(p)});
    }
  }

  /* Dropping the lock of one runqueue for another's, and the end of an operation under a pi lock. */
  lemma LeaveOrdered(p: Address, rq: Address)
    ensures Ordered(Unlock(Rq(rq), Unlock(Pi(p), Done)), {Pi(p), Rq(rq)})
  {
  }

  lemma MoveOrdered(p: Address, rq: Address, work: seq<Work>, dst: Address)
    ensures Ordered(MoveTo(p, rq, work, dst), {Pi(p), Rq(rq)})
  {
    var end := Unlock(Rq(dst), Unlock(Pi(p), Done));
    LeaveOrdered(p, dst);
    DoWorkOrdered(work, end, {Pi(p), Rq(dst)});
    assert {Pi(p), Rq(rq)} - {Rq(rq)} == {Pi(p)};
    assert {Pi(p)} + {Rq(dst)} == {Pi(p), Rq(dst)};
    var relock := Unlock(Rq(rq), Lock(Rq(dst), DoWork(work, end)));
    assert Ordered(relock, {Pi(p), Rq(rq)});
    DoWorkOrdered(work, relock, {Pi(p), Rq(rq)});
  }

  lemma ChangeTaskOrdered(fair: bool, op: Operation)
    requires op.ChangeTask? && Sensible(op)
    ensures Ordered(CodeOf(fair, op), {})
  {
    var end := Unlock(Rq(op.rq), Unlock(Pi(op.p), Done));
    LeaveOrdered(op.p, op.rq);
    assert {Pi(op.p)} + {Rq(op.rq)} == {Pi(op.p), Rq(op.rq)};
    TakeTurnOrdered(fair, op.rq, op.turn, end, {Pi(op.p)});
    TaskRqLockOrdered(op.p, op.tried, op.rq, TakeTurn(fair, op.rq, op.turn, end));
  }

  lemma MigrationOrdered(fair: bool, op: Operation)
    requires op.SetAffinity? || op.MigrateTask?
    ensures Ordered(CodeOf(fair, op), {})
  {
    MoveOrdered(op.p, op.rq, op.work, op.dst);
    TaskRqLockOrdered(op.p, if op.SetAffinity? then op.tried else [], op.rq, MoveTo(op.p, op.rq, op.work, op.dst));
  }

  lemma MigrateSwapOrdered(fair: bool, op: Operation)
    requires op.MigrateSwap? && Sensible(op)
    ensures Ordered(CodeOf(fair, op), {})
  {
    var (p, q, rq, rq2) := (op.p, op.q, op.rq, op.rq2);
    var pis, all := {Pi(p), Pi(q)}, {Pi(p), Pi(q)} + {Rq(rq), Rq(rq2)};
    var leave := Unlock(Pi(q), Unlock(Pi(p), Done));
    assert pis - {Pi(q)} - {Pi(p)} == {};
    assert Ordered(leave, pis);
    assert if rq == rq2 then all - {Rq(rq)} == pis else all - {Rq(rq)} - {Rq(rq2)} == pis;
    var unlock := DoubleRqUnlock(rq, rq2, leave);
    assert Ordered(unlock, all);
    DoWorkOrdered(op.work, unlock, all);
    DoubleRqLockOrdered(rq, rq2, DoWork(op.work, unlock), pis);
    assert {} + {Pi(p)} + {Pi(q)} == pis == {} + {Pi(q)} + {Pi(p)};
  }

  /* Under the pi lock: a turn on a locked runqueue, which is unlocked again. */
  lemma UnderPi(fair: bool, p: Address, rq: Address, u: Turn, next: Code)
    requires Others(rq, u.visits) && Ordered(next, {Pi(p)})
    ensures Ordered(TakeTurn(fair, rq, u, Unlock(Rq(rq), next)), {Pi(p)} + {Rq(rq)})
  {
    assert {Pi(p)} + {Rq(rq)} - {Rq(rq)} == {Pi(p)};
    TakeTurnOrdered(fair, rq, u, Unlock(Rq(rq), next), {Pi(p)});
  }

  lemma WakeUpOrdered(fair: bool, op: Operation)
    requires op.WakeUp? && Sensible(op)
    ensures Ordered(CodeOf(fair, op), {})
  {
    var end := Unlock(Pi(op.p), Done);
    assert {Pi(op.p)} - {Pi(op.p)} == {} && {} + {Pi(op.p)} == {Pi(op.p)};
    assert Ordered(end, {Pi(op.p)});
    if op.local.Some? { UnderPi(fair, op.p, op.local.value.0, op.local.value.1, end); }
    var queue := WakeHere(fair, op.local, end);
    assert Ordered(queue, {Pi(op.p)});
    if op.remote.Some? {
      var (tried, rq, turn) := op.remote.value;
      UnderPi(fair, op.p, rq, turn, queue);
      RqLockOrdered(tried, rq, TakeTurn(fair, rq, turn, Unlock(Rq(rq), queue)), {Pi(op.p)});
    }
  }

  lemma ScheduleOrdered(fair: bool, op: Operation)
    requires (op.Schedule? || op.PostSchedule? || op.Pending?) && Sensible(op)
    ensures Ordered(CodeOf(fair, op), {})
  {
    var rq := op.rq;
    var end := Unlock(Rq(rq), Done);
    assert {} + {Rq(rq)} == {Rq(rq)} && {Rq(rq)} - {Rq(rq)} == {};
    match op
    case PostSchedule(_, visits) => BalanceOrdered(fair, rq, visits, end, {});
    case Pending(_, turns) => PendingOrdered(fair, rq, turns, end);
    case Schedule(_, wake, turn) =>
      TakeTurnOrdered(fair, rq, turn, end, {});
      if wake.Some? { WakeLocalOrdered(fair, rq, wake.value.0, wake.value.1, TakeTurn(fair, rq, turn, end)); }
  }

  /* The pi lock is taken below the runqueue lock only by a trylock, which does not wait. */
  lemma WakeLocalOrdered(fair: bool, rq: Address, p: Address, turn: Turn, rest: Code)
    requires Others(rq, turn.visits) && Ordered(rest, {Rq(rq)})
    ensures Ordered(WakeLocal(fair, rq, p, turn, rest), {Rq(rq)})
  {
    var both := {Pi(p)} + {Rq(rq)};
    assert both - {Pi(p)} == {Rq(rq)};
    TakeTurnOrdered(fair, rq, turn, Unlock(Pi(p), rest), {Pi(p)});
    assert {Rq(rq)} + {Pi(p)} == both && {Rq(rq)} - {Rq(rq)} == {} && {} + {Pi(p)} == {Pi(p)};
    var next := TakeTurn(fair, rq, turn, Unlock(Pi(p), rest));
    assert Ordered(Lock(Pi(p), Lock(Rq(rq), next)), {});
  }

  lemma {:induction false} TimerOrdered(ticks: seq<Work>)
    ensures Ordered(TimerLoop(ticks, Done), {})
  {
    if ticks != [] {
      TimerOrdered(ticks[1..]);
      var rq := Rq(ticks[0].rq);
      var rest := Unlock(rq, TimerLoop(ticks[1..], Done));
      assert {} + {rq} == {rq} && {rq} - {rq} == {};
      assert Ordered(rest, {rq});
      DoWorkOrdered([ticks[0]], rest, {rq});
    }
  }

  lemma RuntimeOrdered(fair: bool, op: Operation)
    requires op.Offline? || op.Online? || op.SetGlobal?
    ensures Ordered(CodeOf(fair, op), {})
  {
    if op.SetGlobal? {
      assert {} + {Bandwidth} == {Bandwidth} && {Bandwidth} - {Bandwidth} == {};
      LockEachOrdered(op.cpus, Unlock(Bandwidth, Done), {Bandwidth});
    } else {
      var rq, runtime := Rq(op.rq), Runtime(op.rq);
      var two, three := {rq, Bandwidth}, {rq, Bandwidth, runtime};
      var end := Unlock(runtime, Unlock(Bandwidth, Unlock(rq, Done)));
      assert three - {runtime} == two && two - {Bandwidth} == {rq} && {rq} - {rq} == {};
      assert {} + {rq} == {rq} && {rq} + {Bandwidth} == two && two + {runtime} == three;
      assert Ordered(Unlock(rq, Done), {rq});
      assert Ordered(Unlock(Bandwidth, Unlock(rq, Done)), two);
      assert Ordered(end, three);
      if op.Offline? && op.reclaim.Some? {
        var loop := LockEach(op.reclaim.value, Lock(runtime, end));
        LockEachOrdered(op.reclaim.value, Lock(runtime, end), two);
        assert three - {runtime} == two;
        assert Ordered(Unlock(runtime, loop), three);
      }
    }
  }

  lemma OperationOrdered(fair: bool, op: Operation)
    requires Sensible(op)
    ensures Ordered(CodeOf(fair, op), {})
  {
    match op
    case ChangeTask(_, _, _, _) => ChangeTaskOrdered(fair, op);
    case SetAffinity(_, _, _, _, _) => MigrationOrdered(fair, op);
    case MigrateTask(_, _, _, _) => MigrationOrdered(fair, op);
    case MigrateSwap(_, _, _, _, _) => MigrateSwapOrdered(fair, op);
    case WakeUp(_, _, _) => WakeUpOrdered(fair, op);
    case Pending(_, _) => ScheduleOrdered(fair, op);
    case Schedule(_, _, _) => ScheduleOrdered(fair, op);
    case PostSchedule(_, _) => ScheduleOrdered(fair, op);
    case PeriodTimer(ticks) => TimerOrdered(ticks);
    case Offline(_, _) => RuntimeOrdered(fair, op);
    case Online(_) => RuntimeOrdered(fair, op);
    case SetGlobal(_) => RuntimeOrdered(fair, op);
  }

  // ----- what each of them does under which locks

  /* Whichever way the trylocks go, all locks of need are held together at some time. */
  ghost predicate Reaches(c: Code, held: set<Lock>, need: set<Lock>) {
    need <= held ||
    match c
    case Done => false
    case Lock(l, next) => Reaches(next, held + {l}, need)
    case TryLock(l, yes, no) => Reaches(yes, held + {l}, need) && Reaches(no, held, need)
    case Unlock(l, next) => Reaches(next, held - {l}, need)
  }

  /* What an operation reads and writes, by the locks that guard it: a task and its runqueue, both
     tasks and both runqueues of a swap, another runqueue to push to or pull from, the runtime of a
     queue whose time is accounted or which lends or goes on- or offline. */
  ghost predicate Needs(op: Operation, need: set<Lock>) {
    match op
    case ChangeTask(p, _, rq, turn) => NeedsTurn({Pi(p)}, rq, turn, need)
    case SetAffinity(p, _, rq, work, dst) => NeedsMove(p, rq, work, dst, need)
    case MigrateTask(p, rq, work, dst) => NeedsMove(p, rq, work, dst, need)
    case MigrateSwap(p, q, rq, rq2, work) =>
      var all := {Pi(p), Pi(q), Rq(rq), Rq(rq2)};
      need == all || NeedsWork(all, work, need)
    case WakeUp(p, remote, local) =>
      || (remote.Some? && NeedsTurn({Pi(p)}, remote.value.1, remote.value.2, need))
      || (local.Some? && NeedsTurn({Pi(p)}, local.value.0, local.value.1, need))
    case Pending(rq, turns) => exists u :: u in turns && NeedsTurn({}, rq, u, need)
    case Schedule(rq, wake, turn) =>
      NeedsTurn({}, rq, turn, need) || (wake.Some? && NeedsTurn({Pi(wake.value.0)}, rq, wake.value.1, need))
    case PostSchedule(rq, visits) => need == {Rq(rq)} || NeedsVisits({}, rq, visits, need)
    case PeriodTimer(ticks) => exists w :: w in ticks && NeedsWork({Rq(w.rq)}, [w], need)
    case Offline(rq, reclaim) =>
      || need == {Rq(rq), Bandwidth, Runtime(rq)}
      || (reclaim.Some? && exists c :: c in reclaim.value && need == {Rq(rq), Bandwidth, Runtime(c)})
    case Online(rq) => need == {Rq(rq), Bandwidth, Runtime(rq)}
    case SetGlobal(cpus) => exists c :: c in cpus && need == {Bandwidth, Runtime(c)}
  }

  ghost predicate NeedsWork(held: set<Lock>, ws: seq<Work>, need: set<Lock>) {
    exists w :: w in ws && (
      || need == held + {Runtime(w.rq)} || (w.start && need == held + {Bandwidth})
      || (w.borrow.Some? && exists c :: c in w.borrow.value && need == held + {Bandwidth, Runtime(c)}))
  }

  ghost predicate NeedsVisits(pis: set<Lock>, rq: Address, visits: seq<Visit>, need: set<Lock>) {
    exists v :: v in visits && (
      need == pis + {Rq(rq), Rq(v.rq)} || NeedsWork(pis + {Rq(rq), Rq(v.rq)}, v.work, need))
  }

  ghost predicate NeedsTurn(pis: set<Lock>, rq: Address, u: Turn, need: set<Lock>) {
    need == pis + {Rq(rq)} || NeedsWork(pis + {Rq(rq)}, u.work, need) || NeedsVisits(pis, rq, u.visits, need)
  }

  ghost predicate NeedsMove(p: Address, rq: Address, work: seq<Work>, dst: Address, need: set<Lock>) {
    || need == {Pi(p), Rq(rq)} || NeedsWork({Pi(p), Rq(rq)}, work, need)
    || need == {Pi(p), Rq(dst)} || NeedsWork({Pi(p), Rq(dst)}, work, need)
  }

  lemma {:induction false} LockEachReaches(rqs: seq<Address>, next: Code, held: set<Lock>, need: set<Lock>)
    requires forall h :: h in held ==> !h.Runtime?
    requires Reaches(next, held, need) || exists c :: c in rqs && need == held + {Runtime(c)}
    ensures Reaches(LockEach(rqs, next), held, need)
  {
    if rqs != [] {
      assert held + {Runtime(rqs[0])} - {Runtime(rqs[0])} == held;
      if Reaches(next, held, need) || exists c :: c in rqs[1..] && need == held + {Runtime(c)} {
        LockEachReaches(rqs[1..], next, held, need);
      }
    }
  }

  lemma BalanceRuntimeReaches(rq: Address, neighbours: seq<Address>, next: Code, held: set<Lock>, need: set<Lock>)
    requires Low(held)
    requires Reaches(next, held + {Runtime(rq)}, need) ||
             exists c :: c in neighbours && need == held + {Bandwidth, Runtime(c)}
    ensures Reaches(BalanceRuntime(rq, neighbours, next), held + {Runtime(rq)}, need)
  {
    assert held + {Runtime(rq)} - {Runtime(rq)} == held;
    assert held + {Bandwidth} - {Bandwidth} == held;
    var after := Unlock(Bandwidth, Lock(Runtime(rq), next));
    assert Reaches(next, held + {Runtime(rq)}, need) ==> Reaches(Lock(Runtime(rq), next), held, need);
    if c :| c in neighbours && need == held + {Bandwidth, Runtime(c)} {
      assert need == held + {Bandwidth} + {Runtime(c)};
    }
    LockEachReaches(neighbours, after, held + {Bandwidth}, need);
    assert Reaches(Lock(Bandwidth, LockEach(neighbours, after)), held, need);
  }

  lemma {:induction false} DoWorkReaches(ws: seq<Work>, next: Code, held: set<Lock>, need: set<Lock>)
    requires Low(held) && (Reaches(next, held, need) || NeedsWork(held, ws, need))
    ensures Reaches(DoWork(ws, next), held, need)
  {
    if ws != [] {
      var w := ws[0];
      var later := DoWork(ws[1..], next);
      if Reaches(next, held, need) || NeedsWork(held, ws[1..], need) { DoWorkReaches(ws[1..], next, held, need); }
      assert held + {Bandwidth} - {Bandwidth} == held;
      var rest := if w.start then Lock(Bandwidth, Unlock(Bandwidth, later)) else later;
      assert Reaches(later, held, need) || (w.start && need == held + {Bandwidth}) ==> Reaches(rest, held, need);
      assert held + {Runtime(w.rq)} - {Runtime(w.rq)} == held;
      var end := Unlock(Runtime(w.rq), rest);
      assert Reaches(rest, held, need) ==> Reaches(end, held + {Runtime(w.rq)}, need);
      if w.borrow.Some? && (Reaches(rest, held, need) ||
                            exists c :: c in w.borrow.value && need == held + {Bandwidth, Runtime(c)})
      {
        BalanceRuntimeReaches(w.rq, w.borrow.value, end, held, need);
      }
    }
  }

  lemma DoubleRqLockReaches(a: Address, b: Address, next: Code, held: set<Lock>, need: set<Lock>)
    requires Reaches(next, held + {Rq(a), Rq(b)}, need)
    ensures Reaches(DoubleRqLock(a, b, next), held, need)
  {
    assert held + {Rq(a)} + {Rq(b)} == held + {Rq(a), Rq(b)} == held + {Rq(b)} + {Rq(a)};
    if a == b { assert held + {Rq(a)} == held + {Rq(a), Rq(b)}; }
  }

  lemma DoubleLockBalanceReaches(fair: bool, this_rq: Address, busiest: Address, next: Code,
                                 held: set<Lock>, need: set<Lock>)
    requires PiOnly(held) && this_rq != busiest && Reaches(next, held + {Rq(this_rq), Rq(busiest)}, need)
    ensures Reaches(DoubleLockBalance(fair, this_rq, busiest, next), held + {Rq(this_rq)}, need)
  {
    assert held + {Rq(this_rq)} - {Rq(this_rq)} == held;
    var both := held + {Rq(this_rq), Rq(busiest)};
    assert held + {Rq(this_rq)} + {Rq(busiest)} == both == held + {Rq(busiest)} + {Rq(this_rq)};
    DoubleRqLockReaches(this_rq, busiest, next, held, need);
    assert Reaches(Lock(Rq(busiest), next), held + {Rq(this_rq)}, need);
    assert Reaches(Lock(Rq(this_rq), next), held + {Rq(busiest)}, need);
    assert Reaches(Lock(Rq(busiest), Lock(Rq(this_rq), next)), held, need);
  }

  lemma {:induction false} BalanceReaches(fair: bool, rq: Address, visits: seq<Visit>, next: Code,
                                          held: set<Lock>, need: set<Lock>)
    requires PiOnly(held) && Others(rq, visits)
    requires Reaches(next, held + {Rq(rq)}, need) || NeedsVisits(held, rq, visits, need)
    ensures Reaches(Balance(fair, rq, visits, next), held + {Rq(rq)}, need)
  {
    if visits != [] {
      var v, both := visits[0], held + {Rq(rq), Rq(visits[0].rq)};
      var later := Balance(fair, rq, visits[1..], next);
      if Reaches(next, held + {Rq(rq)}, need) || NeedsVisits(held, rq, visits[1..], need) {
        BalanceReaches(fair, rq, visits[1..], next, held, need);
      }
      assert both - {Rq(v.rq)} == held + {Rq(rq)};
      var after := Unlock(Rq(v.rq), later);
      assert Reaches(later, held + {Rq(rq)}, need) ==> Reaches(after, both, need);
      if Reaches(after, both, need) || NeedsWork(both, v.work, need) { DoWorkReaches(v.work, after, both, need); }
      DoubleLockBalanceReaches(fair, rq, v.rq, DoWork(v.work, after), held, need);
    }
  }

  lemma TakeTurnReaches(fair: bool, rq: Address, u: Turn, next: Code, held: set<Lock>, need: set<Lock>)
    requires PiOnly(held) && Others(rq, u.visits)
    requires Reaches(next, held + {Rq(rq)}, need) || NeedsTurn(held, rq, u, need)
    ensures Reaches(TakeTurn(fair, rq, u, next), held + {Rq(rq)}, need)
  {
    if Reaches(next, held + {Rq(rq)}, need) || NeedsVisits(held, rq, u.visits, need) {
      BalanceReaches(fair, rq, u.visits, next, held, need);
    }
    if need != held + {Rq(rq)} {
      DoWorkReaches(u.work, Balance(fair, rq, u.visits, next), held + {Rq(rq)}, need);
    }
  }

  lemma {:induction false} TakeTurnsReach(fair: bool, rq: Address, turns: seq<Turn>, next: Code, need: set<Lock>)
    requires (forall u :: u in turns ==> Others(rq, u.visits)) && exists u :: u in turns && NeedsTurn({}, rq, u, need)
    ensures Reaches(TakeTurns(fair, rq, turns, next), {Rq(rq)}, need)
  {
    hide NeedsTurn, Reaches, TakeTurn;
    assert {} + {Rq(rq)} == {Rq(rq)};
    var u :| u in turns && NeedsTurn({}, rq, u, need);
    if u != turns[0] { TakeTurnsReach(fair, rq, turns[1..], next, need); }
    TakeTurnReaches(fair, rq, turns[0], TakeTurns(fair, rq, turns[1..], next), {}, need);
  }

  lemma {:induction false} RqLockReaches(tried: seq<Address>, rq: Address, next: Code, held: set<Lock>, need: set<Lock>)
    requires PiOnly(held) && Reaches(next, held + {Rq(rq)}, need)
    ensures Reaches(RqLock(tried, rq, next), held, need)
  {
    if tried != [] {
      RqLockReaches(tried[1..], rq, next, held, need);
      assert held + {Rq(tried[0])} - {Rq(tried[0])} == held;
    }
  }

  lemma {:induction false} TaskRqLockReaches(p: Address, tried: seq<Address>, rq: Address, next: Code, need: set<Lock>)
    requires Reaches(next, {Pi(p), Rq(rq)}, need)
    ensures Reaches(TaskRqLock(p, tried, rq, next), {}, need)
  {
    assert {} + {Pi(p)} == {Pi(p)} && {Pi(p)} + {Rq(rq)} == {Pi(p), Rq(rq)};
    if tried == [] {
      assert Reaches(Lock(Rq(rq), next), {Pi(p)}, need);
    } else {
      TaskRqLockReaches(p, tried[1..], rq, next, need);
      assert {Pi(p)} - {Pi(p)} == {};
      var drop := Unlock(Pi(p), TaskRqLock(p, tried[1..], rq, next));
      assert Reaches(drop, {Pi(p)}, need);
      assert {Pi(p)} + {Rq(tried[0])} - {Rq(tried[0])} == {Pi(p)};
      assert Reaches(Lock(Rq(tried[0]), Unlock(Rq(tried[0]), drop)), {Pi(p)}, need);
    }
  }

  lemma MoveReaches(p: Address, rq: Address, work: seq<Work>, dst: Address, need: set<Lock>)
    requires NeedsMove(p, rq, work, dst, need)
    ensures Reaches(MoveTo(p, rq, work, dst), {Pi(p), Rq(rq)}, need)
  {
    hide NeedsWork, DoWork;
    var end := Unlock(Rq(dst), Unlock(Pi(p), Done));
    assert {Pi(p), Rq(rq)} - {Rq(rq)} == {Pi(p)} && {Pi(p)} + {Rq(dst)} == {Pi(p), Rq(dst)};
    var relock := Unlock(Rq(rq), Lock(Rq(dst), DoWork(work, end)));
    if need == {Pi(p), Rq(dst)} || NeedsWork({Pi(p), Rq(dst)}, work, need) {
      DoWorkReaches(work, end, {Pi(p), Rq(dst)}, need);
      assert Reaches(Lock(Rq(dst), DoWork(work, end)), {Pi(p)}, need);
      assert Reaches(relock, {Pi(p), Rq(rq)}, need);
    }
    if need != {Pi(p), Rq(rq)} { DoWorkReaches(work, relock, {Pi(p), Rq(rq)}, need); }
  }

  lemma TaskReaches(fair: bool, op: Operation, need: set<Lock>)
    requires (op.ChangeTask? || op.SetAffinity? || op.MigrateTask?) && Sensible(op) && Needs(op, need)
    ensures Reaches(CodeOf(fair, op), {}, need)
  {
    if op.ChangeTask? {
      var end := Unlock(Rq(op.rq), Unlock(Pi(op.p), Done));
      assert {Pi(op.p)} + {Rq(op.rq)} == {Pi(op.p), Rq(op.rq)};
      TakeTurnReaches(fair, op.rq, op.turn, end, {Pi(op.p)}, need);
      TaskRqLockReaches(op.p, op.tried, op.rq, TakeTurn(fair, op.rq, op.turn, end), need);
    } else {
      var tried := if op.SetAffinity? then op.tried else [];
      MoveReaches(op.p, op.rq, op.work, op.dst, need);
      TaskRqLockReaches(op.p, tried, op.rq, MoveTo(op.p, op.rq, op.work, op.dst), need);
    }
  }

  lemma SwapReaches(fair: bool, op: Operation, need: set<Lock>)
    requires op.MigrateSwap? && Sensible(op) && Needs(op, need)
    ensures Reaches(CodeOf(fair, op), {}, need)
  {
    hide NeedsWork, DoWork;
    var (p, q, rq, rq2) := (op.p, op.q, op.rq, op.rq2);
    var pis, all := {Pi(p), Pi(q)}, {Pi(p), Pi(q), Rq(rq), Rq(rq2)};
    var unlock := DoubleRqUnlock(rq, rq2, Unlock(Pi(q), Unlock(Pi(p), Done)));
    var body := DoWork(op.work, unlock);
    if need != all { DoWorkReaches(op.work, unlock, all, need); }
    assert pis + {Rq(rq), Rq(rq2)} == all;
    DoubleRqLockReaches(rq, rq2, body, pis, need);
    assert {} + {Pi(p)} + {Pi(q)} == pis == {} + {Pi(q)} + {Pi(p)};
    var both := DoubleRqLock(rq, rq2, body);
    assert Reaches(Lock(Pi(q), both), {} + {Pi(p)}, need) && Reaches(Lock(Pi(p), both), {} + {Pi(q)}, need);
  }

  /* Under the pi lock: a turn on a runqueue, or what comes after it. */
  lemma UnderPiReaches(fair: bool, p: Address, rq: Address, u: Turn, next: Code, need: set<Lock>)
    requires Others(rq, u.visits) && (Reaches(next, {Pi(p)}, need) || NeedsTurn({Pi(p)}, rq, u, need))
    ensures Reaches(TakeTurn(fair, rq, u, Unlock(Rq(rq), next)), {Pi(p)} + {Rq(rq)}, need)
  {
    assert {Pi(p)} + {Rq(rq)} - {Rq(rq)} == {Pi(p)};
    TakeTurnReaches(fair, rq, u, Unlock(Rq(rq), next), {Pi(p)}, need);
  }

  lemma WakeUpReaches(fair: bool, op: Operation, need: set<Lock>)
    requires op.WakeUp? && Sensible(op) && Needs(op, need)
    ensures Reaches(CodeOf(fair, op), {}, need)
  {
    hide NeedsTurn, TakeTurn;
    var end := Unlock(Pi(op.p), Done);
    var queue := WakeHere(fair, op.local, end);
    assert {} + {Pi(op.p)} == {Pi(op.p)};
    if op.local.Some? && NeedsTurn({Pi(op.p)}, op.local.value.0, op.local.value.1, need) {
      UnderPiReaches(fair, op.p, op.local.value.0, op.local.value.1, end, need);
      assert Reaches(queue, {Pi(op.p)}, need);
    }
    if op.remote.Some? {
      var (tried, rq, turn) := op.remote.value;
      UnderPiReaches(fair, op.p, rq, turn, queue, need);
      RqLockReaches(tried, rq, TakeTurn(fair, rq, turn, Unlock(Rq(rq), queue)), {Pi(op.p)}, need);
    }
  }

  lemma WakeLocalReaches(fair: bool, rq: Address, p: Address, turn: Turn, rest: Code, need: set<Lock>)
    requires Others(rq, turn.visits) && (Reaches(rest, {Rq(rq)}, need) || NeedsTurn({Pi(p)}, rq, turn, need))
    ensures Reaches(WakeLocal(fair, rq, p, turn, rest), {Rq(rq)}, need)
  {
    hide NeedsTurn, TakeTurn;
    var both, next := {Pi(p)} + {Rq(rq)}, TakeTurn(fair, rq, turn, Unlock(Pi(p), rest));
    assert both - {Pi(p)} == {Rq(rq)};
    assert Reaches(rest, {Rq(rq)}, need) ==> Reaches(Unlock(Pi(p), rest), both, need);
    TakeTurnReaches(fair, rq, turn, Unlock(Pi(p), rest), {Pi(p)}, need);
    assert {Rq(rq)} + {Pi(p)} == both && {Rq(rq)} - {Rq(rq)} == {} && {} + {Pi(p)} == {Pi(p)};
    assert Reaches(Lock(Rq(rq), next), {Pi(p)}, need);
    assert Reaches(Lock(Pi(p), Lock(Rq(rq), next)), {}, need);
  }

  lemma ScheduleReaches(fair: bool, op: Operation, need: set<Lock>)
    requires (op.Schedule? || op.PostSchedule? || op.Pending?) && Sensible(op) && Needs(op, need)
    ensures Reaches(CodeOf(fair, op), {}, need)
  {
    hide NeedsTurn, NeedsVisits, TakeTurn, Balance;
    var rq := op.rq;
    var end := Unlock(Rq(rq), Done);
    assert {} + {Rq(rq)} == {Rq(rq)};
    match op
    case PostSchedule(_, visits) =>
      if need != {Rq(rq)} { BalanceReaches(fair, rq, visits, end, {}, need); }
    case Pending(_, turns) => TakeTurnsReach(fair, rq, turns, end, need);
    case Schedule(_, wake, turn) =>
      var rest := TakeTurn(fair, rq, turn, end);
      if NeedsTurn({}, rq, turn, need) { TakeTurnReaches(fair, rq, turn, end, {}, need); }
      if wake.Some? { WakeLocalReaches(fair, rq, wake.value.0, wake.value.1, rest, need); }
  }

  lemma {:induction false} TimerReaches(ticks: seq<Work>, need: set<Lock>)
    requires exists w :: w in ticks && NeedsWork({Rq(w.rq)}, [w], need)
    ensures Reaches(TimerLoop(ticks, Done), {}, need)
  {
    hide NeedsWork, DoWork;
    var w :| w in ticks && NeedsWork({Rq(w.rq)}, [w], need);
    if w != ticks[0] { TimerReaches(ticks[1..], need); }
    var rq := Rq(ticks[0].rq);
    assert {} + {rq} == {rq} && {rq} - {rq} == {};
    DoWorkReaches([ticks[0]], Unlock(rq, TimerLoop(ticks[1..], Done)), {rq}, need);
  }

  lemma RuntimeReaches(fair: bool, op: Operation, need: set<Lock>)
    requires (op.Offline? || op.Online? || op.SetGlobal?) && Needs(op, need)
    ensures Reaches(CodeOf(fair, op), {}, need)
  {
    if op.SetGlobal? {
      var c :| c in op.cpus && need == {Bandwidth, Runtime(c)};
      assert {} + {Bandwidth} == {Bandwidth} && {Bandwidth} + {Runtime(c)} == need;
      LockEachReaches(op.cpus, Unlock(Bandwidth, Done), {Bandwidth}, need);
    } else {
      var rq, runtime := Rq(op.rq), Runtime(op.rq);
      var two, three := {rq, Bandwidth}, {rq, Bandwidth, runtime};
      var end := Unlock(runtime, Unlock(Bandwidth, Unlock(rq, Done)));
      assert {} + {rq} == {rq} && {rq} + {Bandwidth} == two && two + {runtime} == three && three - {runtime} == two;
      if op.Offline? && need != three {
        var c :| c in op.reclaim.value && need == {rq, Bandwidth, Runtime(c)};
        assert two + {Runtime(c)} == need;
        var loop := LockEach(op.reclaim.value, Lock(runtime, end));
        LockEachReaches(op.reclaim.value, Lock(runtime, end), two, need);
        assert Reaches(Unlock(runtime, loop), three, need);
        assert Reaches(Lock(runtime, Unlock(runtime, loop)), two, need);
        assert Reaches(Lock(Bandwidth, Lock(runtime, Unlock(runtime, loop))), {rq}, need);
      } else {
        assert CodeOf(fair, op).next.next.Lock? && Reaches(CodeOf(fair, op).next.next, two, need);
        assert Reaches(CodeOf(fair, op).next, {rq}, need);
      }
    }
  }

  /* Every operation holds together, at some time, the locks that guard each thing it touches. */
  lemma OperationReaches(fair: bool, op: Operation, need: set<Lock>)
    requires Sensible(op) && Needs(op, need)
    ensures Reaches(CodeOf(fair, op), {}, need)
  {
    match op
    case ChangeTask(_, _, _, _) => TaskReaches(fair, op, need);
    case SetAffinity(_, _, _, _, _) => TaskReaches(fair, op, need);
    case MigrateTask(_, _, _, _) => TaskReaches(fair, op, need);
    case MigrateSwap(_, _, _, _, _) => SwapReaches(fair, op, need);
    case WakeUp(_, _, _) => WakeUpReaches(fair, op, need);
    case Pending(_, _) => ScheduleReaches(fair, op, need);
    case Schedule(_, _, _) => ScheduleReaches(fair, op, need);
    case PostSchedule(_, _) => ScheduleReaches(fair, op, need);
    case PeriodTimer(ticks) => TimerReaches(ticks, need);
    case Offline(_, _) => RuntimeReaches(fair, op, need);
    case Online(_) => RuntimeReaches(fair, op, need);
    case SetGlobal(_) => RuntimeReaches(fair, op, need);
  }

  // ----- whole runs

  datatype Event = Start(t: Thread, op: Operation) | Move(t: Thread)

  /* The state after a run; a step that cannot be taken leaves it alone. */
  ghost function Run(fair: bool, events: seq<Event>): (s: State)
    requires forall e :: e in events && e.Start? ==> Sensible(e.op)
    ensures Inv(s)
  {
    if events == [] then State(map[], map[])
    else
      var s := Run(fair, events[..|events| - 1]);
      match events[|events| - 1]
      case Start(t, op) =>
        assert events[|events| - 1] in events;
        if t in s.code && s.code[t] != Done then s
        else OperationOrdered(fair, op); StartKeeps(s, t, CodeOf(fair, op)); Put(s, t, CodeOf(fair, op), {})
      case Move(t) =>
        if t in s.code && Step(s, t).Some? then StepKeeps(s, t); Step(s, t).value else s
  }

  /* With either variant of double_lock_balance, however operations start and interleave: no cycle
     of waiting threads, and while a thread is not done some thread moves. */
  lemma NoDeadlock(fair: bool, events: seq<Event>, ts: seq<Thread>)
    requires forall e :: e in events && e.Start? ==> Sensible(e.op)
    ensures var s := Run(fair, events);
      && (|ts| >= 1 && Chain(s, ts) ==> !WaitsFor(s, ts[|ts| - 1], ts[0]))
      && ((exists t :: t in s.code && s.code[t] != Done) ==> exists t :: t in s.code && Step(s, t).Some?)
  {
    var s := Run(fair, events);
    if |ts| >= 1 && Chain(s, ts) { NoWaitCycle(s, ts); }
    if exists t :: t in s.code && s.code[t] != Done { SomeoneMoves(s); }
  }
}
