/**
 Waiting in task_rq_lock and around it: for locks, and by spinning on a task that another thread is
 moving. A spinner always has a mover to wait for, and waiting never goes round in a circle.
 */
module TaskRqProgress {
  import opened Util
  import opened TaskRqLock

  // ----- who owns the locks

  /* A lock is recorded only for the thread that holds it where it stands. */
  ghost predicate Owned(s: State) {
    && (forall p :: p in s.pi ==> PiOf(PcOf(s, s.pi[p])) == Some(p))
    && (forall c :: c in s.rq ==> c in RqsOf(PcOf(s, s.rq[c])))
  }

  /* A step changes the position of its thread only; the pi locks and runqueue locks that the thread
     has afterwards are those of its new position. */
  ghost predicate Follows(s: State, s': State, t: Thread) {
    && (forall u :: u != t ==> PcOf(s', u) == PcOf(s, u))
    && (forall p :: p in s'.pi ==> s'.pi[p] == t || (p in s.pi && s.pi[p] == s'.pi[p]))
    && (forall p :: p in s'.pi && s'.pi[p] == t && PiOf(PcOf(s', t)) != Some(p) ==>
          p in s.pi && s.pi[p] == t && PiOf(PcOf(s, t)) != Some(p))
    && (forall c :: c in s'.rq ==> s'.rq[c] == t || (c in s.rq && s.rq[c] == s'.rq[c]))
    && (forall c :: c in s'.rq && s'.rq[c] == t && c !in RqsOf(PcOf(s', t)) ==>
          c in s.rq && s.rq[c] == t && c !in RqsOf(PcOf(s, t)))
  }

  /* The runqueue lock that a thread wants next. */
  function WantedRq(pc: Pc): Option<Cpu> {
    match pc
    case RqRead(_, c, _) => Some(c)
    case First(c, _) => Some(c)
    case Second(_, d) => Some(d)
    case MvUnlocked(_, d, _) => Some(d)
    case WakePlaced(_, c) => Some(c)
    case Pending(c, _) => Some(c)
    case _ => None
  }

  lemma SameLocks(s: State, s': State, t: Thread)
    requires s'.pc == s.pc[t := PcOf(s', t)] && s'.pi == s.pi && s'.rq == s.rq
    requires PiOf(PcOf(s', t)) == PiOf(PcOf(s, t)) && RqsOf(PcOf(s', t)) == RqsOf(PcOf(s, t))
    ensures Follows(s, s', t)
  {
  }

  lemma PiChanged(s: State, s': State, t: Thread, p: Task)
    requires s'.pc == s.pc[t := PcOf(s', t)] && s'.rq == s.rq && RqsOf(PcOf(s', t)) == RqsOf(PcOf(s, t))
    requires if PiOf(PcOf(s', t)) == Some(p) then PiOf(PcOf(s, t)) == None && s'.pi == s.pi[p := t]
             else PiOf(PcOf(s, t)) == Some(p) && s'.pi == s.pi - {p}
    ensures Follows(s, s', t)
  {
    hide PiOf, RqsOf;
  }

  lemma RqChanged(s: State, s': State, t: Thread, c: Cpu)
    requires s'.pc == s.pc[t := PcOf(s', t)] && s'.pi == s.pi && PiOf(PcOf(s', t)) == PiOf(PcOf(s, t))
    requires if c in RqsOf(PcOf(s', t)) then RqsOf(PcOf(s', t)) == RqsOf(PcOf(s, t)) + {c} && s'.rq == s.rq[c := t]
             else RqsOf(PcOf(s, t)) == RqsOf(PcOf(s', t)) + {c} && s'.rq == s.rq - {c}
    ensures Follows(s, s', t)
  {
    hide PiOf, RqsOf;
  }

  /* The positions from which a step takes or drops a lock, and those from which none does. */
  predicate PiNext(pc: Pc) { pc.Again? || pc.DropPi? || pc.Leaving? }
  predicate OneTaken(pc: Pc) { pc.RqRead? || pc.WakePlaced? || pc.Pending? }
  predicate PairTaken(pc: Pc) { pc.First? || pc.Second? || pc.MvUnlocked? }
  predicate RqDrops(pc: Pc) { pc.Refused? || pc.Held? || pc.MvMoved? || pc.WakeDone? || pc.PendingLocked? }
  predicate Looks(pc: Pc) { pc.Looking? || pc.Locked? || pc.CpuSeen? }
  predicate Tries(pc: Pc) { pc.Spinning? || pc.WakeStart? || pc.WakeSeen? }
  predicate Moves(pc: Pc) { pc.MvDequeued? || pc.MvMarked? || pc.MvLocked? || pc.MvQueued? }
  predicate Places(pc: Pc) { pc.Bracketed? || pc.Blocking? || pc.PushDequeued? || pc.PushMoved? }
  predicate Wakes(pc: Pc) { pc.WakeLocked? || pc.WakeEnqueued? || pc.PendingEnqueued? }

  lemma ContinuePi(s: State, t: Thread, s': State)
    requires Continue(s, t) == Some(s') && PiNext(PcOf(s, t))
    ensures Follows(s, s', t)
  {
    hide At, Follows;
    PiChanged(s, s', t, PcOf(s, t).p);
  }

  lemma ContinueOne(s: State, t: Thread, s': State)
    requires Continue(s, t) == Some(s') && OneTaken(PcOf(s, t))
    ensures Follows(s, s', t)
  {
    hide At, Follows;
    RqChanged(s, s', t, WantedRq(PcOf(s, t)).value);
  }

  lemma ContinueTwo(s: State, t: Thread, s': State)
    requires Continue(s, t) == Some(s') && PairTaken(PcOf(s, t))
    ensures Follows(s, s', t)
  {
    hide At, Follows;
    RqChanged(s, s', t, WantedRq(PcOf(s, t)).value);
  }

  lemma ContinueDrop(s: State, t: Thread, s': State)
    requires Continue(s, t) == Some(s') && RqDrops(PcOf(s, t))
    ensures Follows(s, s', t)
  {
    hide At, Follows;
    RqChanged(s, s', t, PcOf(s, t).rq);
  }

  lemma ContinueLook(s: State, t: Thread, s': State)
    requires Continue(s, t) == Some(s') && Looks(PcOf(s, t))
    ensures Follows(s, s', t)
  {
    hide At, Follows;
    SameLocks(s, s', t);
  }

  lemma ContinueTry(s: State, t: Thread, s': State)
    requires Continue(s, t) == Some(s') && Tries(PcOf(s, t))
    ensures Follows(s, s', t)
  {
    hide At, Follows;
    SameLocks(s, s', t);
  }

  lemma ContinueMove(s: State, t: Thread, s': State)
    requires Continue(s, t) == Some(s') && Moves(PcOf(s, t))
    ensures Follows(s, s', t)
  {
    hide At, Follows;
    SameLocks(s, s', t);
  }

  lemma ContinuePlace(s: State, t: Thread, s': State)
    requires Continue(s, t) == Some(s') && Places(PcOf(s, t))
    ensures Follows(s, s', t)
  {
    hide At, Follows;
    SameLocks(s, s', t);
  }

  lemma ContinueWake(s: State, t: Thread, s': State)
    requires Continue(s, t) == Some(s') && Wakes(PcOf(s, t))
    ensures Follows(s, s', t)
  {
    hide At, Follows;
    SameLocks(s, s', t);
  }

  lemma ContinueFollows(s: State, t: Thread, s': State)
    requires Do(s, t, Step) == Some(s')
    ensures Follows(s, s', t)
  {
    hide Continue, Follows, PiNext, OneTaken, PairTaken, RqDrops, Looks, Tries, Moves, Places, Wakes;
    Positions(s, t);
    var pc := PcOf(s, t);
    if PiNext(pc) {
      ContinuePi(s, t, s');
    } else if OneTaken(pc) {
      ContinueOne(s, t, s');
    } else if PairTaken(pc) {
      ContinueTwo(s, t, s');
    } else if RqDrops(pc) {
      ContinueDrop(s, t, s');
    } else if Looks(pc) {
      ContinueLook(s, t, s');
    } else if Tries(pc) {
      ContinueTry(s, t, s');
    } else if Moves(pc) {
      ContinueMove(s, t, s');
    } else if Places(pc) {
      ContinuePlace(s, t, s');
    } else {
      ContinueWake(s, t, s');
    }
  }

  lemma Positions(s: State, t: Thread)
    requires Continue(s, t).Some?
    ensures var pc := PcOf(s, t);
      || PiNext(pc) || OneTaken(pc) || PairTaken(pc) || RqDrops(pc) || Looks(pc) || Tries(pc)
      || Moves(pc) || Places(pc) || Wakes(pc)
  {
    hide At;
  }

  lemma DoSame(s: State, t: Thread, a: Action, s': State)
    requires Do(s, t, a) == Some(s') && !(a.Step? || a.Start? || a.LockRq? || a.Relock? || a.UnlockRq?)
    ensures Follows(s, s', t)
  {
    hide At, Continue, Follows;
    SameLocks(s, s', t);
  }

  lemma DoFollows(s: State, t: Thread, a: Action, s': State)
    requires Inv(s) && Do(s, t, a) == Some(s')
    ensures Follows(s, s', t)
  {
    hide Inv, Do, Follows;
    match a
    case Step => ContinueFollows(s, t, s');
    case Start(p, k) => StartFollows(s, t, p, k, s');
    case LockRq(c) => LockFollows(s, t, c, s');
    case Relock(c) => RelockFollows(s, t, c, s');
    case UnlockRq(c) => UnlockFollows(s, t, c, s');
    case _ => DoSame(s, t, a, s');
  }

  lemma StartFollows(s: State, t: Thread, p: Task, k: Kind, s': State)
    requires Do(s, t, Start(p, k)) == Some(s')
    ensures Follows(s, s', t)
  {
    hide At, Continue, Follows;
    PiChanged(s, s', t, p);
  }

  lemma RelockFollows(s: State, t: Thread, c: Cpu, s': State)
    requires Do(s, t, Relock(c)) == Some(s')
    ensures Follows(s, s', t)
  {
    hide At, Continue, Follows;
    RqChanged(s, s', t, PcOf(s, t).rq);
  }

  lemma LockFollows(s: State, t: Thread, c: Cpu, s': State)
    requires Do(s, t, LockRq(c)) == Some(s')
    ensures Follows(s, s', t)
  {
    hide At, Continue, Follows;
    var pc := PcOf(s', t);
    if pc.Second? {
      SameLocks(s, s', t);
    } else {
      RqChanged(s, s', t, if pc.First? then pc.rq2 else c);
    }
  }

  lemma UnlockFollows(s: State, t: Thread, c: Cpu, s': State)
    requires Inv(s) && Do(s, t, UnlockRq(c)) == Some(s')
    ensures Follows(s, s', t)
  {
    hide At, Continue, Follows, TaskOk, Relies, Stage;
    assert ThreadOk(s, t);
    RqChanged(s, s', t, c);
  }

  lemma OwnedKeeps(s: State, t: Thread, a: Action, s': State)
    requires Inv(s) && Owned(s) && Do(s, t, a) == Some(s')
    ensures Owned(s')
  {
    hide Inv, Do, PiOf, RqsOf;
    DoFollows(s, t, a, s');
  }

  lemma {:induction false} RunOwned(s: State, steps: seq<(Thread, Action)>)
    requires Inv(s) && Owned(s)
    ensures Owned(Run(s, steps))
  {
    hide Inv, Owned, Do;
    if steps != [] {
      var r := Run(s, steps[..|steps| - 1]);
      var (t, a) := steps[|steps| - 1];
      RunKeeps(s, steps[..|steps| - 1]);
      RunOwned(s, steps[..|steps| - 1]);
      if Do(r, t, a).Some? { OwnedKeeps(r, t, a, Do(r, t, a).value); }
    }
  }

  // ----- waiting

  /* t waits for u: for its pi lock, for one of its runqueue locks, or spinning until u has moved the
     task. */
  ghost predicate WaitsFor(s: State, t: Thread, u: Thread) {
    var pc := PcOf(s, t);
    || (pc.Again? && pc.p in s.pi && s.pi[pc.p] == u)
    || (WantedRq(pc).Some? && WantedRq(pc).value in s.rq && s.rq[WantedRq(pc).value] == u)
    || (pc.Spinning? && At(s, pc.p).onRq == Migrating && At(s, pc.p).carrier == Some(u))
  }

  /* A thread can go on where it stands, or may choose how to. */
  ghost predicate Able(s: State, t: Thread) {
    var pc := PcOf(s, t);
    pc.RqHeld? || pc.BothHeld? || pc.WakeChosen? || (pc.PendingLocked? && pc.ps != {}) || Continue(s, t).Some?
  }

  lemma AbleMeans(s: State, t: Thread)
    requires Able(s, t)
    ensures exists a :: Do(s, t, a).Some?
  {
    match PcOf(s, t)
    case RqHeld(c) => assert Do(s, t, UnlockRq(c)).Some?;
    case BothHeld(c, d) => assert Do(s, t, UnlockRq(c)).Some?;
    case WakeChosen(p) => assert Do(s, t, Place(0)).Some?;
    case PendingLocked(c, ps) =>
      if ps != {} {
        var p :| p in ps;
        assert Do(s, t, Activate(p)).Some?;
      } else {
        assert Do(s, t, Step).Some?;
      }
    case _ => assert Do(s, t, Step).Some?;
  }

  /* Another thread is in the middle of moving p: it has marked it and not yet put it on its new
     queue. */
  predicate MovesTask(pc: Pc, p: Task) {
    match pc
    case MvMarked(q, _, _, _) => p == q
    case MvMoved(q, _, _, _) => p == q
    case MvUnlocked(q, _, _) => p == q
    case MvLocked(q, _, _) => p == q
    case _ => false
  }

  lemma StageMoves(pc: Pc, p: Task, i: Info)
    requires p in Carried(pc) && Stage(pc, p, i) && i.onRq == Migrating
    ensures MovesTask(pc, p)
  {
  }

  lemma MigratingHasMover(s: State, p: Task)
    requires Inv(s) && At(s, p).onRq == Migrating
    ensures At(s, p).carrier.Some? && MovesTask(PcOf(s, At(s, p).carrier.value), p)
  {
    hide PiOf, RqsOf, Carried, Stage, SawAsleep, Shape, MovesTask;
    assert TaskOk(s, p);
    var u := At(s, p).carrier.value;
    assert ThreadOk(s, u);
    StageMoves(PcOf(s, u), p, At(s, p));
  }

  /* Whenever a thread spins on a task that migrates, another thread is in the middle of moving it:
     not the spinner itself, under a pi lock or not. */
  lemma SpinnerHasMover(steps: seq<(Thread, Action)>, t: Thread)
    ensures var s := Run(INITIAL, steps);
      PcOf(s, t).Spinning? && At(s, PcOf(s, t).p).onRq == Migrating ==>
        exists u :: u != t && WaitsFor(s, t, u) && MovesTask(PcOf(s, u), PcOf(s, t).p)
  {
    var s := Run(INITIAL, steps);
    InitialOk();
    RunKeeps(INITIAL, steps);
    if PcOf(s, t).Spinning? && At(s, PcOf(s, t).p).onRq == Migrating {
      MigratingHasMover(s, PcOf(s, t).p);
      var u := At(s, PcOf(s, t).p).carrier.value;
      assert WaitsFor(s, t, u) && MovesTask(PcOf(s, u), PcOf(s, t).p);
    }
  }

  /* A thread that is neither idle nor able to go on waits for another that is not idle. */
  lemma StuckWaits(s: State, t: Thread)
    requires Inv(s) && Owned(s) && PcOf(s, t) != Idle && !Able(s, t)
    ensures exists u :: PcOf(s, u) != Idle && WaitsFor(s, t, u)
  {
    hide At, Carried, Stage, SawAsleep, Shape;
    var pc := PcOf(s, t);
    if pc.Again? {
      assert WaitsFor(s, t, s.pi[pc.p]);
    } else if pc.Spinning? {
      MigratingHasMover(s, pc.p);
      assert WaitsFor(s, t, At(s, pc.p).carrier.value);
    } else {
      assert WantedRq(pc).Some?;
      assert WaitsFor(s, t, s.rq[WantedRq(pc).value]);
    }
  }

  // ----- never in a circle

  /* Who wants a pi lock waits behind spinners, these behind who wants a runqueue lock and holds
     none, these behind who holds one and wants a second. */
  function Class(pc: Pc): nat {
    match pc
    case Again(_) => 4
    case Spinning(_, _) => 3
    case Second(_, _) => 1
    case _ => if WantedRq(pc).Some? then 2 else 0
  }

  /* Threads that hold one runqueue lock and want a second stand in the order of the locks held. */
  predicate Behind(a: Pc, b: Pc) {
    Class(a) > Class(b) || (a.Second? && b.Second? && a.rq < b.rq)
  }

  lemma PiHolder(pc: Pc)
    requires PiOf(pc).Some?
    ensures Class(pc) <= 3
  {
  }

  lemma RqHolder(pc: Pc, c: Cpu)
    requires c in RqsOf(pc)
    ensures Class(pc) <= 1 && (pc.Second? ==> pc.rq == c)
  {
  }

  lemma WaitsBehind(s: State, t: Thread, u: Thread)
    requires Inv(s) && Owned(s) && WaitsFor(s, t, u)
    ensures Behind(PcOf(s, t), PcOf(s, u)) && PcOf(s, u) != Idle
  {
    hide PiOf, RqsOf, Carried, Stage, SawAsleep;
    var pc := PcOf(s, t);
    assert ThreadOk(s, t);
    if pc.Again? {
      PiHolder(PcOf(s, u));
    } else if pc.Spinning? {
      MigratingHasMover(s, pc.p);
    } else {
      RqHolder(PcOf(s, u), WantedRq(pc).value);
    }
    NotIdle(PcOf(s, u));
  }

  lemma NotIdle(pc: Pc)
    ensures pc == Idle ==> PiOf(pc) == None && RqsOf(pc) == {} && forall p :: !MovesTask(pc, p)
  {
  }

  ghost predicate Chain(s: State, ts: seq<Thread>) {
    forall i :: 0 <= i < |ts| - 1 ==> WaitsFor(s, ts[i], ts[i + 1])
  }

  lemma {:induction false} ChainGoesOn(s: State, ts: seq<Thread>)
    requires Inv(s) && Owned(s) && Chain(s, ts) && |ts| >= 2
    ensures Behind(PcOf(s, ts[0]), PcOf(s, ts[|ts| - 1]))
  {
    hide Inv, Owned, WaitsFor;
    var n := |ts|;
    assert WaitsFor(s, ts[n - 2], ts[n - 1]);
    WaitsBehind(s, ts[n - 2], ts[n - 1]);
    if n > 2 {
      var front := ts[..n - 1];
      forall i | 0 <= i < |front| - 1 ensures WaitsFor(s, front[i], front[i + 1]) {
        assert WaitsFor(s, ts[i], ts[i + 1]);
      }
      ChainGoesOn(s, front);
    }
  }

  /* No threads wait for each other in a cycle, in any reachable state, over locks and spinning
     together. */
  lemma NoWaitCycle(steps: seq<(Thread, Action)>, ts: seq<Thread>)
    requires |ts| >= 1 && Chain(Run(INITIAL, steps), ts)
    ensures !WaitsFor(Run(INITIAL, steps), ts[|ts| - 1], ts[0])
  {
    hide Inv, Owned, WaitsFor;
    var s, n := Run(INITIAL, steps), |ts|;
    InitialOk();
    RunKeeps(INITIAL, steps);
    NobodyOwns();
    RunOwned(INITIAL, steps);
    if WaitsFor(s, ts[n - 1], ts[0]) {
      var c := ts + [ts[0]];
      forall i | 0 <= i < |c| - 1 ensures WaitsFor(s, c[i], c[i + 1]) {
        if i < n - 1 { assert WaitsFor(s, ts[i], ts[i + 1]); }
      }
      ChainGoesOn(s, c);
    }
  }

  lemma NobodyOwns()
    ensures Owned(INITIAL)
  {
  }

  /* The runqueue locks taken that come after the one a thread holds. */
  function Above(s: State, pc: Pc): set<Cpu> {
    set c | c in s.rq && pc.Second? && pc.rq < c
  }

  lemma AboveShrinks(s: State, a: Pc, b: Pc)
    requires a.Second? && b.Second? && a.rq < b.rq && b.rq in s.rq
    ensures Above(s, b) < Above(s, a)
  {
    assert b.rq in Above(s, a) && b.rq !in Above(s, b);
  }

  lemma {:induction false} SomeoneAble(s: State, t: Thread)
    requires Inv(s) && Owned(s) && PcOf(s, t) != Idle
    ensures exists u :: PcOf(s, u) != Idle && Able(s, u)
    decreases Class(PcOf(s, t)), Above(s, PcOf(s, t))
  {
    hide Inv, Owned, WaitsFor, Able;
    if !Able(s, t) {
      StuckWaits(s, t);
      var u :| PcOf(s, u) != Idle && WaitsFor(s, t, u);
      WaitsBehind(s, t, u);
      if Class(PcOf(s, t)) == Class(PcOf(s, u)) {
        SecondHolds(s, u);
        AboveShrinks(s, PcOf(s, t), PcOf(s, u));
      }
      SomeoneAble(s, u);
    }
  }

  lemma SecondHolds(s: State, u: Thread)
    requires Inv(s)
    ensures PcOf(s, u).Second? ==> PcOf(s, u).rq in s.rq
  {
    assert ThreadOk(s, u);
  }

  /* As long as a thread is not idle, some thread that is not idle can take a step: neither the
     locks nor the spinning ever stop everybody. */
  lemma SomeoneMoves(steps: seq<(Thread, Action)>, t: Thread)
    requires PcOf(Run(INITIAL, steps), t) != Idle
    ensures exists u, a :: PcOf(Run(INITIAL, steps), u) != Idle && Do(Run(INITIAL, steps), u, a).Some?
  {
    hide Inv, Owned, Able, Do;
    var s := Run(INITIAL, steps);
    InitialOk();
    RunKeeps(INITIAL, steps);
    NobodyOwns();
    RunOwned(INITIAL, steps);
    SomeoneAble(s, t);
    var u :| PcOf(s, u) != Idle && Able(s, u);
    AbleMeans(s, u);
  }
}
