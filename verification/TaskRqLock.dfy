/**
 task_rq_lock against tasks that move: threads take their steps one at a time, in any order, and
 each step reads or writes one thing. A task's CPU, its on_rq flag and its place on a queue are
 written by movers that may hold no more than a runqueue lock, while task_rq_lock chases the task.
 */
module TaskRqLock {
  import opened Util

  type Task = nat
  type Cpu = nat
  type Thread = nat

  /* p->on_rq: 0, TASK_ON_RQ_QUEUED, TASK_ON_RQ_MIGRATING. */
  datatype OnRq = Off | Queued | Migrating

  /* What is recorded of a task: task_cpu, on_rq, the CPUs whose queue holds it, whether its state
     is TASK_WAKING, and the CPU on whose wake list it waits. No step looks at carrier: it remembers
     the thread in the middle of moving, waking or requeueing the task. */
  datatype Info = Info(cpu: Cpu, onRq: OnRq, on: set<Cpu>, waking: bool, listed: Option<Cpu>, carrier: Option<Thread>)

  /* task_rq_lock takes the pi lock itself; __task_rq_lock runs under it, for a waker or another
     holder (rt_mutex_setprio). */
  datatype Kind = Whole | Waker | Holder

  /* Where a thread stands, with its local variables. */
  datatype Pc =
    | Idle
    // task_rq_lock and __task_rq_lock
    | Again(p: Task)
    | Looking(p: Task, k: Kind)
    | RqRead(p: Task, rq: Cpu, k: Kind)
    | Locked(p: Task, rq: Cpu, k: Kind)
    | CpuSeen(p: Task, rq: Cpu, k: Kind)
    | Refused(p: Task, rq: Cpu, k: Kind)
    | DropPi(p: Task)
    | Spinning(p: Task, k: Kind)
    | Held(p: Task, rq: Cpu, k: Kind)
    | Bracketed(p: Task, rq: Cpu, k: Kind)
    | Leaving(p: Task)
    // one runqueue lock, or two: the second in the order of the addresses, or dropping the first
    | RqHeld(rq: Cpu)
    | First(rq: Cpu, rq2: Cpu)
    | Second(rq: Cpu, rq2: Cpu)
    | BothHeld(rq: Cpu, rq2: Cpu)
    | Blocking(p: Task, rq: Cpu)
    // move_queued_task, with the pi lock (back: Held) or without (back: RqHeld)
    | MvDequeued(p: Task, rq: Cpu, dst: Cpu, back: Option<Kind>)
    | MvMarked(p: Task, rq: Cpu, dst: Cpu, back: Option<Kind>)
    | MvMoved(p: Task, rq: Cpu, dst: Cpu, back: Option<Kind>)
    | MvUnlocked(p: Task, dst: Cpu, back: Option<Kind>)
    | MvLocked(p: Task, dst: Cpu, back: Option<Kind>)
    | MvQueued(p: Task, dst: Cpu, back: Option<Kind>)
    // push and pull between two locked runqueues
    | PushDequeued(p: Task, rq: Cpu, dst: Cpu)
    | PushMoved(p: Task, rq: Cpu, dst: Cpu)
    // try_to_wake_up
    | WakeStart(p: Task)
    | WakeSeen(p: Task)
    | WakeChosen(p: Task)
    | WakePlaced(p: Task, rq: Cpu)
    | WakeLocked(p: Task, rq: Cpu)
    | WakeEnqueued(p: Task, rq: Cpu)
    | WakeDone(p: Task, rq: Cpu)
    // sched_ttwu_pending
    | Pending(rq: Cpu, ps: set<Task>)
    | PendingLocked(rq: Cpu, ps: set<Task>)
    | PendingEnqueued(rq: Cpu, p: Task, ps: set<Task>)

  /* Locks are free while no thread is recorded for them. */
  datatype State = State(task: map<Task, Info>, pi: map<Task, Thread>, rq: map<Cpu, Thread>, pc: map<Thread, Pc>)

  /* A task or thread nothing is recorded of has not done anything yet. */
  function At(s: State, p: Task): Info {
    if p in s.task then s.task[p] else Info(0, Off, {}, false, None, None)
  }

  function PcOf(s: State, t: Thread): Pc {
    if t in s.pc then s.pc[t] else Idle
  }

  // ----- the steps

  function Go(s: State, t: Thread, pc: Pc): State { s.(pc := s.pc[t := pc]) }
  function Set(s: State, p: Task, i: Info): State { s.(task := s.task[p := i]) }
  function TakePi(s: State, t: Thread, p: Task): State { s.(pi := s.pi[p := t]) }
  function FreePi(s: State, p: Task): State { s.(pi := s.pi - {p}) }
  function TakeRq(s: State, t: Thread, c: Cpu): State { s.(rq := s.rq[c := t]) }
  function FreeRq(s: State, c: Cpu): State { s.(rq := s.rq - {c}) }

  /* p leaves c's queue in the hands of t; p joins c's queue and is in nobody's hands. */
  function TakeOff(s: State, t: Thread, p: Task, c: Cpu): State {
    Set(s, p, At(s, p).(on := At(s, p).on - {c}, carrier := Some(t)))
  }

  function PutOn(s: State, p: Task, c: Cpu): State {
    Set(s, p, At(s, p).(on := At(s, p).on + {c}, carrier := None))
  }

  /* The choices a thread makes; the other steps are determined by where it stands. */
  datatype Action =
    | Step
    | Start(p: Task, k: Kind)      // begin to lock p's runqueue, or to wake p up
    | Given(c: Cpu)                // go on with a runqueue named by the caller (__migrate_task)
    | Mismatch                     // p->state is none the waker asks for
    | Requeue                      // dequeue for a change
    | Move(p: Task, dst: Cpu)      // move_queued_task
    | LockRq(c: Cpu)               // raw_spin_lock, or double_lock_balance
    | Relock(c: Cpu)               // the fair double_lock_balance, and double_rq_lock
    | UnlockRq(c: Cpu)
    | Push(p: Task, src: Cpu, dst: Cpu)
    | Block(p: Task)
    | Place(c: Cpu)                // select_task_rq's answer
    | List                         // ttwu_queue_remote
    | TakeList(c: Cpu)             // llist_del_all
    | Activate(p: Task)            // the next task of the list taken

  function Do(s: State, t: Thread, a: Action): Option<State> {
    match a
    case Step => Continue(s, t)
    case Start(p, k) =>
      if PcOf(s, t) == Idle && p !in s.pi then
        Some(Go(TakePi(s, t, p), t, if k == Waker then WakeStart(p) else Looking(p, k)))
      else None
    case Given(c) =>
      (match PcOf(s, t)
       case Looking(p, k) => Some(Go(s, t, RqRead(p, c, k)))
       case _ => None)
    case Mismatch =>
      (match PcOf(s, t)
       case WakeStart(p) => Some(Go(s, t, Leaving(p)))
       case _ => None)
    case Requeue =>
      (match PcOf(s, t)
       case Held(p, rq, k) =>
         if At(s, p).onRq == Queued then
           Some(Go(TakeOff(s, t, p, rq), t, Bracketed(p, rq, k)))
         else None
       case _ => None)
    case Move(q, dst) =>
      (match PcOf(s, t)
       case Held(p, rq, k) =>
         if p == q && At(s, p).onRq == Queued then
           Some(Go(TakeOff(s, t, p, rq), t, MvDequeued(p, rq, dst, Some(k))))
         else None
       case RqHeld(c) =>
         if c in At(s, q).on then
           Some(Go(TakeOff(s, t, q, c), t, MvDequeued(q, c, dst, None)))
         else None
       case _ => None)
    case LockRq(c) =>
      (match PcOf(s, t)
       case Idle => if c in s.rq then None else Some(Go(TakeRq(s, t, c), t, RqHeld(c)))
       case RqHeld(d) =>
         if c == d then None
         else if c !in s.rq then Some(Go(TakeRq(s, t, c), t, BothHeld(d, c)))  // the trylock
         else if d < c then Some(Go(s, t, Second(d, c)))
         else Some(Go(FreeRq(s, d), t, First(c, d)))
       case _ => None)
    case Relock(c) =>
      (match PcOf(s, t)
       case RqHeld(d) => if c == d then None else Some(Go(FreeRq(s, d), t, if c < d then First(c, d) else First(d, c)))
       case _ => None)
    case UnlockRq(c) =>
      (match PcOf(s, t)
       case RqHeld(d) => if c == d then Some(Go(FreeRq(s, c), t, Idle)) else None
       case BothHeld(d, e) =>
         if c == d then Some(Go(FreeRq(s, c), t, RqHeld(e)))
         else if c == e then Some(Go(FreeRq(s, c), t, RqHeld(d)))
         else None
       case _ => None)
    case Push(p, src, dst) =>
      (match PcOf(s, t)
       case BothHeld(d, e) =>
         if src in At(s, p).on && {src, dst} == {d, e} then
           Some(Go(TakeOff(s, t, p, src), t, PushDequeued(p, src, dst)))
         else None
       case _ => None)
    case Block(p) =>
      (match PcOf(s, t)
       case RqHeld(c) =>
         if c in At(s, p).on then
           Some(Go(TakeOff(s, t, p, c), t, Blocking(p, c)))
         else None
       case _ => None)
    case Place(c) =>
      (match PcOf(s, t)
       case WakeChosen(p) => Some(Go(Set(s, p, At(s, p).(cpu := c, waking := true)), t, WakePlaced(p, c)))
       case _ => None)
    case List =>
      (match PcOf(s, t)
       case WakePlaced(p, c) => Some(Go(Set(s, p, At(s, p).(listed := Some(c), carrier := None)), t, Leaving(p)))
       case _ => None)
    case TakeList(c) =>
      if PcOf(s, t) == Idle then Some(Go(Unlisted(s, t, c), t, Pending(c, OnList(s, c)))) else None
    case Activate(p) =>
      (match PcOf(s, t)
       case PendingLocked(c, ps) =>
         if p in ps then
           Some(Go(Set(s, p, At(s, p).(on := At(s, p).on + {c})), t, PendingEnqueued(c, p, ps - {p})))
         else None
       case _ => None)
  }

  function OnList(s: State, c: Cpu): set<Task> {
    set p | p in s.task && s.task[p].listed == Some(c)
  }

  function Unlisted(s: State, t: Thread, c: Cpu): State {
    s.(task := map p | p in s.task ::
      if s.task[p].listed == Some(c) then s.task[p].(listed := None, carrier := Some(t)) else s.task[p])
  }

  function Continue(s: State, t: Thread): Option<State> {
    match PcOf(s, t)
    case Again(p) => if p in s.pi then None else Some(Go(TakePi(s, t, p), t, Looking(p, Whole)))
    case Looking(p, k) => Some(Go(s, t, RqRead(p, At(s, p).cpu, k)))
    case RqRead(p, c, k) => if c in s.rq then None else Some(Go(TakeRq(s, t, c), t, Locked(p, c, k)))
    case Locked(p, c, k) => Some(Go(s, t, if c == At(s, p).cpu then CpuSeen(p, c, k) else Refused(p, c, k)))
    case CpuSeen(p, c, k) => Some(Go(s, t, if At(s, p).onRq != Migrating then Held(p, c, k) else Refused(p, c, k)))
    case Refused(p, c, k) => Some(Go(FreeRq(s, c), t, if k == Whole then DropPi(p) else Spinning(p, k)))
    case DropPi(p) => Some(Go(FreePi(s, p), t, Spinning(p, Whole)))
    case Spinning(p, k) =>
      if At(s, p).onRq == Migrating then None
      else Some(Go(s, t, if k == Whole then Again(p) else Looking(p, k)))
    case Bracketed(p, c, k) => Some(Go(PutOn(s, p, c), t, Held(p, c, k)))
    case Held(p, c, k) =>
      if k == Waker && At(s, p).onRq == Off then
        Some(Go(Set(FreeRq(s, c), p, At(s, p).(carrier := Some(t))), t, WakeChosen(p)))
      else Some(Go(FreeRq(s, c), t, Leaving(p)))
    case Leaving(p) => Some(Go(FreePi(s, p), t, Idle))
    case First(c, d) => if c in s.rq then None else Some(Go(TakeRq(s, t, c), t, Second(c, d)))
    case Second(c, d) => if d in s.rq then None else Some(Go(TakeRq(s, t, d), t, BothHeld(c, d)))
    case Blocking(p, c) => Some(Go(Set(s, p, At(s, p).(onRq := Off, carrier := None)), t, RqHeld(c)))
    case MvDequeued(p, c, d, back) => Some(Go(Set(s, p, At(s, p).(onRq := Migrating)), t, MvMarked(p, c, d, back)))
    case MvMarked(p, c, d, back) => Some(Go(Set(s, p, At(s, p).(cpu := d)), t, MvMoved(p, c, d, back)))
    case MvMoved(p, c, d, back) => Some(Go(FreeRq(s, c), t, MvUnlocked(p, d, back)))
    case MvUnlocked(p, d, back) => if d in s.rq then None else Some(Go(TakeRq(s, t, d), t, MvLocked(p, d, back)))
    case MvLocked(p, d, back) => Some(Go(Set(s, p, At(s, p).(onRq := Queued)), t, MvQueued(p, d, back)))
    case MvQueued(p, d, back) =>
      Some(Go(PutOn(s, p, d), t,
              if back.Some? then Held(p, d, back.value) else RqHeld(d)))
    case PushDequeued(p, c, d) => Some(Go(Set(s, p, At(s, p).(cpu := d)), t, PushMoved(p, c, d)))
    case PushMoved(p, c, d) => Some(Go(PutOn(s, p, d), t, BothHeld(c, d)))
    case WakeStart(p) => Some(Go(s, t, if At(s, p).waking then Leaving(p) else WakeSeen(p)))
    case WakeSeen(p) =>
      if At(s, p).onRq == Off then Some(Go(Set(s, p, At(s, p).(carrier := Some(t))), t, WakeChosen(p)))
      else Some(Go(s, t, Looking(p, Waker)))
    case WakePlaced(p, c) => if c in s.rq then None else Some(Go(TakeRq(s, t, c), t, WakeLocked(p, c)))
    case WakeLocked(p, c) => Some(Go(Set(s, p, At(s, p).(on := At(s, p).on + {c})), t, WakeEnqueued(p, c)))
    case WakeEnqueued(p, c) =>
      Some(Go(Set(s, p, At(s, p).(onRq := Queued, waking := false, carrier := None)), t, WakeDone(p, c)))
    case WakeDone(p, c) => Some(Go(FreeRq(s, c), t, Leaving(p)))
    case Pending(c, ps) => if c in s.rq then None else Some(Go(TakeRq(s, t, c), t, PendingLocked(c, ps)))
    case PendingLocked(c, ps) => if ps == {} then Some(Go(FreeRq(s, c), t, Idle)) else None
    case PendingEnqueued(c, p, ps) =>
      Some(Go(Set(s, p, At(s, p).(onRq := Queued, waking := false, carrier := None)), t, PendingLocked(c, ps)))
    case _ => None
  }

  // ----- what a thread's position means

  /* The pi lock held. */
  function PiOf(pc: Pc): Option<Task> {
    match pc
    case Looking(p, _) => Some(p)
    case RqRead(p, _, _) => Some(p)
    case Locked(p, _, _) => Some(p)
    case CpuSeen(p, _, _) => Some(p)
    case Refused(p, _, _) => Some(p)
    case DropPi(p) => Some(p)
    case Spinning(p, k) => if k == Whole then None else Some(p)
    case Held(p, _, _) => Some(p)
    case Bracketed(p, _, _) => Some(p)
    case Leaving(p) => Some(p)
    case MvDequeued(p, _, _, back) => if back.Some? then Some(p) else None
    case MvMarked(p, _, _, back) => if back.Some? then Some(p) else None
    case MvMoved(p, _, _, back) => if back.Some? then Some(p) else None
    case MvUnlocked(p, _, back) => if back.Some? then Some(p) else None
    case MvLocked(p, _, back) => if back.Some? then Some(p) else None
    case MvQueued(p, _, back) => if back.Some? then Some(p) else None
    case WakeStart(p) => Some(p)
    case WakeSeen(p) => Some(p)
    case WakeChosen(p) => Some(p)
    case WakePlaced(p, _) => Some(p)
    case WakeLocked(p, _) => Some(p)
    case WakeEnqueued(p, _) => Some(p)
    case WakeDone(p, _) => Some(p)
    case _ => None
  }

  /* The runqueue locks held. */
  function RqsOf(pc: Pc): set<Cpu> {
    match pc
    case Locked(_, c, _) => {c}
    case CpuSeen(_, c, _) => {c}
    case Refused(_, c, _) => {c}
    case Held(_, c, _) => {c}
    case Bracketed(_, c, _) => {c}
    case RqHeld(c) => {c}
    case Second(c, _) => {c}
    case BothHeld(c, d) => {c, d}
    case Blocking(_, c) => {c}
    case MvDequeued(_, c, _, _) => {c}
    case MvMarked(_, c, _, _) => {c}
    case MvMoved(_, c, _, _) => {c}
    case MvLocked(_, d, _) => {d}
    case MvQueued(_, d, _) => {d}
    case PushDequeued(_, c, d) => {c, d}
    case PushMoved(_, c, d) => {c, d}
    case WakeLocked(_, c) => {c}
    case WakeEnqueued(_, c) => {c}
    case WakeDone(_, c) => {c}
    case PendingLocked(c, _) => {c}
    case PendingEnqueued(c, _, _) => {c}
    case _ => {}
  }

  /* The tasks in the middle of being moved, woken or requeued by the thread. */
  function Carried(pc: Pc): set<Task> {
    match pc
    case Bracketed(p, _, _) => {p}
    case Blocking(p, _) => {p}
    case MvDequeued(p, _, _, _) => {p}
    case MvMarked(p, _, _, _) => {p}
    case MvMoved(p, _, _, _) => {p}
    case MvUnlocked(p, _, _) => {p}
    case MvLocked(p, _, _) => {p}
    case MvQueued(p, _, _) => {p}
    case PushDequeued(p, _, _) => {p}
    case PushMoved(p, _, _) => {p}
    case WakeChosen(p) => {p}
    case WakePlaced(p, _) => {p}
    case WakeLocked(p, _) => {p}
    case WakeEnqueued(p, _) => {p}
    case Pending(_, ps) => ps
    case PendingLocked(_, ps) => ps
    case PendingEnqueued(_, p, ps) => ps + {p}
    case _ => {}
  }

  /* What is true of a task that the thread carries. */
  predicate Stage(pc: Pc, p: Task, i: Info) {
    match pc
    case Bracketed(_, c, _) => i.cpu == c && i.onRq == Queued && i.on == {}
    case Blocking(_, c) => i.cpu == c && i.onRq == Queued && i.on == {}
    case MvDequeued(_, c, _, _) => i.cpu == c && i.onRq == Queued && i.on == {}
    case MvMarked(_, c, _, _) => i.cpu == c && i.onRq == Migrating && i.on == {}
    case MvMoved(_, _, d, _) => i.cpu == d && i.onRq == Migrating && i.on == {}
    case MvUnlocked(_, d, _) => i.cpu == d && i.onRq == Migrating && i.on == {}
    case MvLocked(_, d, _) => i.cpu == d && i.onRq == Migrating && i.on == {}
    case MvQueued(_, d, _) => i.cpu == d && i.onRq == Queued && i.on == {}
    case PushDequeued(_, c, _) => i.cpu == c && i.onRq == Queued && i.on == {}
    case PushMoved(_, _, d) => i.cpu == d && i.onRq == Queued && i.on == {}
    case WakeChosen(_) => i.onRq == Off && i.on == {} && !i.waking
    case WakePlaced(_, c) => i.cpu == c && i.onRq == Off && i.on == {} && i.waking
    case WakeLocked(_, c) => i.cpu == c && i.onRq == Off && i.on == {} && i.waking
    case WakeEnqueued(_, c) => i.cpu == c && i.onRq == Off && i.on == {c} && i.waking
    case Pending(c, _) => i.cpu == c && i.onRq == Off && i.on == {} && i.waking
    case PendingLocked(c, _) => i.cpu == c && i.onRq == Off && i.on == {} && i.waking
    case PendingEnqueued(c, q, _) => i.cpu == c && i.onRq == Off && i.on == (if p == q then {c} else {}) && i.waking
    case _ => true
  }

  /* Positions of a waker that has seen that the task is not being woken by another. */
  predicate SawAsleep(pc: Pc) {
    match pc
    case WakeSeen(_) => true
    case Looking(_, k) => k == Waker
    case RqRead(_, _, k) => k == Waker
    case Locked(_, _, k) => k == Waker
    case CpuSeen(_, _, k) => k == Waker
    case Refused(_, _, k) => k == Waker
    case Spinning(_, k) => k == Waker
    case Held(_, _, k) => k == Waker
    case Bracketed(_, _, k) => k == Waker
    case MvDequeued(_, _, _, back) => back == Some(Waker)
    case MvMarked(_, _, _, back) => back == Some(Waker)
    case MvMoved(_, _, _, back) => back == Some(Waker)
    case MvUnlocked(_, _, back) => back == Some(Waker)
    case MvLocked(_, _, back) => back == Some(Waker)
    case MvQueued(_, _, back) => back == Some(Waker)
    case _ => false
  }

  /* What a thread that holds the task's pi lock relies on. */
  predicate Relies(pc: Pc, i: Info) {
    && (pc.CpuSeen? || pc.Held? ==> i.cpu == pc.rq)
    && (pc.Held? ==> i.onRq != Migrating)
    && (SawAsleep(pc) ==> !i.waking)
  }

  predicate Shape(pc: Pc) {
    match pc
    case First(c, d) => c < d
    case Second(c, d) => c < d
    case BothHeld(c, d) => c != d
    case PushDequeued(_, c, d) => c != d
    case PushMoved(_, c, d) => c != d
    case PendingEnqueued(_, p, ps) => p !in ps
    case _ => true
  }

  // ----- the invariant

  ghost predicate ThreadOk(s: State, t: Thread) {
    var pc := PcOf(s, t);
    && Shape(pc)
    && (PiOf(pc).Some? ==>
          PiOf(pc).value in s.pi && s.pi[PiOf(pc).value] == t && Relies(pc, At(s, PiOf(pc).value)))
    && (forall c :: c in RqsOf(pc) ==> c in s.rq && s.rq[c] == t)
    && (forall p :: p in Carried(pc) ==> At(s, p).carrier == Some(t) && Stage(pc, p, At(s, p)))
  }

  /* A QUEUED task is on the queue of its CPU and on no other, any other task is on none. */
  predicate Settled(i: Info) {
    i.onRq != Migrating && i.on == if i.onRq == Queued then {i.cpu} else {}
  }

  ghost predicate TaskOk(s: State, p: Task) {
    var i := At(s, p);
    && (i.carrier.Some? ==> p in Carried(PcOf(s, i.carrier.value)))
    && (i.carrier.None? ==> Settled(i))
    && (i.listed.Some? ==> i.carrier.None? && i.cpu == i.listed.value && i.onRq == Off && i.waking)
  }

  ghost predicate Inv(s: State) {
    (forall t :: ThreadOk(s, t)) && (forall p :: TaskOk(s, p))
  }

  // ----- every step keeps it

  /* What a step of t may do to the locks: nobody else loses one. */
  predicate LocksKept(s: State, s': State, t: Thread) {
    && (forall q :: q in s.pi && s.pi[q] != t ==> q in s'.pi && s'.pi[q] == s.pi[q])
    && (forall c :: c in s.rq && s.rq[c] != t ==> c in s'.rq && s'.rq[c] == s.rq[c])
  }

  predicate SamePlace(i: Info, j: Info) {
    i.cpu == j.cpu && i.onRq == j.onRq && i.on == j.on && i.waking == j.waking
  }

  /* The rule behind everything: a task's CPU, flag and place are written by nobody who does not
     hold its pi lock or the lock of its CPU's queue. */
  ghost predicate Guarded(s: State, s': State, t: Thread) {
    && s'.pc == s.pc[t := PcOf(s', t)]
    && forall q: Task ::
      SamePlace(At(s, q), At(s', q)) || PiOf(PcOf(s, t)) == Some(q) || At(s, q).cpu in RqsOf(PcOf(s, t))
  }

  /* Who writes a task's record holds its pi lock or the lock of the queue of its CPU. */
  predicate MayWrite(s: State, t: Thread, p: Task, i: Info) {
    && At(s, p).carrier in {None, Some(t)}
    && (|| PiOf(PcOf(s, t)) == Some(p)
        || (At(s, p).cpu in RqsOf(PcOf(s, t)) && (i.waking ==> At(s, p).waking)))
  }

  lemma LockedWhatItSaw(pc: Pc)
    ensures pc.CpuSeen? || pc.Held? ==> pc.rq in RqsOf(pc)
  {
  }

  lemma OthersKeep(s: State, s': State, t: Thread, p: Task, u: Thread)
    requires Inv(s) && u != t && PcOf(s', u) == PcOf(s, u)
    requires LocksKept(s, s', t) && forall q :: q != p ==> At(s', q) == At(s, q)
    requires At(s', p) == At(s, p) || MayWrite(s, t, p, At(s', p))
    ensures ThreadOk(s', u)
  {
    hide PiOf, RqsOf, Carried, Stage, SawAsleep, Shape;
    assert ThreadOk(s, u) && ThreadOk(s, t);
    LockedWhatItSaw(PcOf(s, u));
  }

  lemma StepKeeps(s: State, s': State, t: Thread, p: Task)
    requires Inv(s) && s'.pc == s.pc[t := PcOf(s', t)]
    requires LocksKept(s, s', t) && forall q :: q != p ==> At(s', q) == At(s, q)
    requires At(s', p) == At(s, p) || MayWrite(s, t, p, At(s', p))
    requires Carried(PcOf(s', t)) - {p} == Carried(PcOf(s, t)) - {p}
    requires ThreadOk(s', t) && TaskOk(s', p)
    ensures Inv(s') && Guarded(s, s', t)
  {
    hide PiOf, RqsOf, Carried, Stage, SawAsleep, Shape, Relies;
    forall u ensures ThreadOk(s', u) {
      if u != t { OthersKeep(s, s', t, p, u); }
    }
    forall q ensures TaskOk(s', q) {
      if q != p {
        assert TaskOk(s, q);
        var i := At(s, q);
        if i.carrier.Some? {
          if i.carrier.value == t { assert q in Carried(PcOf(s, t)) - {p}; }
        }
      }
    }
  }

  /* The locks held by the thread that carries a task. */
  lemma CarrierLocks(s: State, p: Task)
    requires Inv(s)
    ensures var i := At(s, p);
      i.carrier.Some? ==>
        var u := i.carrier.value;
        && p in Carried(PcOf(s, u))
        && (i.onRq == Queued || i.on != {} ==> i.on <= {i.cpu} && i.cpu in s.rq && s.rq[i.cpu] == u)
        && (i.onRq == Off && !i.waking ==> p in s.pi && s.pi[p] == u)
  {
    assert TaskOk(s, p);
    if At(s, p).carrier.Some? {
      var u := At(s, p).carrier.value;
      assert ThreadOk(s, u);
      StageLocks(PcOf(s, u), p, At(s, p));
    }
  }

  lemma StageLocks(pc: Pc, p: Task, i: Info)
    requires p in Carried(pc) && Stage(pc, p, i)
    ensures i.onRq == Queued || i.on != {} ==> i.on <= {i.cpu} && i.cpu in RqsOf(pc)
    ensures i.onRq == Off && !i.waking ==> PiOf(pc) == Some(p)
  {
  }

  /* Under its pi lock, a task that is off the queues and not yet being woken belongs to nobody. */
  lemma NotCarried(s: State, t: Thread, p: Task)
    requires Inv(s) && PiOf(PcOf(s, t)) == Some(p) && At(s, p).onRq == Off && !At(s, p).waking
    ensures At(s, p).carrier in {None, Some(t)} && At(s, p).listed == None
  {
    hide PiOf, RqsOf, Carried, Stage, SawAsleep, Shape;
    assert TaskOk(s, p) && ThreadOk(s, t);
    CarrierLocks(s, p);
  }

  lemma ContinueLocking(s: State, t: Thread, s': State)
    requires Inv(s) && Continue(s, t) == Some(s')
    requires PcOf(s, t).Again? || PcOf(s, t).Looking? || PcOf(s, t).RqRead? || PcOf(s, t).Locked? || PcOf(s, t).CpuSeen?
    ensures Inv(s') && Guarded(s, s', t)
  {
    var p := PcOf(s, t).p;
    assert ThreadOk(s, t) && TaskOk(s, p);
    StepKeeps(s, s', t, p);
  }

  lemma ContinueRefused(s: State, t: Thread, s': State)
    requires Inv(s) && Continue(s, t) == Some(s')
    requires PcOf(s, t).Refused? || PcOf(s, t).DropPi? || PcOf(s, t).Spinning? || PcOf(s, t).Leaving?
    ensures Inv(s') && Guarded(s, s', t)
  {
    var p := PcOf(s, t).p;
    assert ThreadOk(s, t) && TaskOk(s, p);
    StepKeeps(s, s', t, p);
  }

  /* A step between positions with no pi lock and no task in hand, which touches runqueue locks only. */
  lemma RqStepKeeps(s: State, s': State, t: Thread)
    requires Inv(s) && s'.pc == s.pc[t := PcOf(s', t)] && s'.task == s.task && s'.pi == s.pi && LocksKept(s, s', t)
    requires PiOf(PcOf(s', t)) == None && Carried(PcOf(s, t)) == Carried(PcOf(s', t)) == {}
    requires Shape(PcOf(s', t)) && forall c :: c in RqsOf(PcOf(s', t)) ==> c in s'.rq && s'.rq[c] == t
    ensures Inv(s') && Guarded(s, s', t)
  {
    hide PiOf, RqsOf, Carried, Stage, SawAsleep, Shape, Relies;
    assert ThreadOk(s', t);
    assert TaskOk(s, 0) && At(s', 0) == At(s, 0);
    StepKeeps(s, s', t, 0);
  }

  lemma ContinuePair(s: State, t: Thread, s': State)
    requires Inv(s) && Continue(s, t) == Some(s') && (PcOf(s, t).First? || PcOf(s, t).Second?)
    ensures Inv(s') && Guarded(s, s', t)
  {
    hide Stage, SawAsleep;
    assert ThreadOk(s, t);
    RqStepKeeps(s, s', t);
  }

  lemma ContinueBack(s: State, t: Thread, s': State)
    requires Inv(s) && Continue(s, t) == Some(s')
    requires PcOf(s, t).Bracketed? || PcOf(s, t).Blocking?
    ensures Inv(s') && Guarded(s, s', t)
  {
    var p := PcOf(s, t).p;
    assert ThreadOk(s, t) && TaskOk(s, p);
    assert p in Carried(PcOf(s, t));
    StepKeeps(s, s', t, p);
  }

  lemma ContinueHeld(s: State, t: Thread, s': State)
    requires Inv(s) && Continue(s, t) == Some(s') && PcOf(s, t).Held?
    ensures Inv(s') && Guarded(s, s', t)
  {
    hide Inv, Guarded, ThreadOk, TaskOk, Stage, SawAsleep;
    if PcOf(s, t).k == Waker && At(s, PcOf(s, t).p).onRq == Off {
      HeldChooses(s, t, s');
    } else {
      HeldLeaves(s, t, s');
    }
  }

  lemma HeldChooses(s: State, t: Thread, s': State)
    requires Inv(s) && Continue(s, t) == Some(s') && PcOf(s, t).Held?
    requires PcOf(s, t).k == Waker && At(s, PcOf(s, t).p).onRq == Off
    ensures Inv(s') && Guarded(s, s', t)
  {
    var p := PcOf(s, t).p;
    assert ThreadOk(s, t) && TaskOk(s, p);
    NotCarried(s, t, p);
    StepKeeps(s, s', t, p);
  }

  lemma HeldLeaves(s: State, t: Thread, s': State)
    requires Inv(s) && Continue(s, t) == Some(s') && PcOf(s, t).Held?
    requires !(PcOf(s, t).k == Waker && At(s, PcOf(s, t).p).onRq == Off)
    ensures Inv(s') && Guarded(s, s', t)
  {
    hide Stage;
    var p := PcOf(s, t).p;
    assert ThreadOk(s, t) && TaskOk(s, p);
    StepKeeps(s, s', t, p);
  }

  lemma ContinueMoveMark(s: State, t: Thread, s': State)
    requires Inv(s) && Continue(s, t) == Some(s')
    requires PcOf(s, t).MvDequeued?
    ensures Inv(s') && Guarded(s, s', t)
  {
    var p := PcOf(s, t).p;
    assert ThreadOk(s, t) && TaskOk(s, p);
    assert p in Carried(PcOf(s, t));
    StepKeeps(s, s', t, p);
  }

  lemma ContinueMoveOut(s: State, t: Thread, s': State)
    requires Inv(s) && Continue(s, t) == Some(s')
    requires PcOf(s, t).MvMarked?
    ensures Inv(s') && Guarded(s, s', t)
  {
    var p := PcOf(s, t).p;
    assert ThreadOk(s, t) && TaskOk(s, p);
    assert p in Carried(PcOf(s, t));
    StepKeeps(s, s', t, p);
  }

  lemma ContinueMoved(s: State, t: Thread, s': State)
    requires Inv(s) && Continue(s, t) == Some(s')
    requires PcOf(s, t).MvMoved?
    ensures Inv(s') && Guarded(s, s', t)
  {
    var p := PcOf(s, t).p;
    assert ThreadOk(s, t) && TaskOk(s, p);
    assert p in Carried(PcOf(s, t));
    StepKeeps(s, s', t, p);
  }

  lemma ContinueMoveLock(s: State, t: Thread, s': State)
    requires Inv(s) && Continue(s, t) == Some(s')
    requires PcOf(s, t).MvUnlocked?
    ensures Inv(s') && Guarded(s, s', t)
  {
    var p := PcOf(s, t).p;
    assert ThreadOk(s, t) && TaskOk(s, p);
    assert p in Carried(PcOf(s, t));
    StepKeeps(s, s', t, p);
  }

  lemma ContinueMoveIn(s: State, t: Thread, s': State)
    requires Inv(s) && Continue(s, t) == Some(s')
    requires PcOf(s, t).MvLocked?
    ensures Inv(s') && Guarded(s, s', t)
  {
    var p := PcOf(s, t).p;
    assert ThreadOk(s, t) && TaskOk(s, p);
    assert p in Carried(PcOf(s, t));
    StepKeeps(s, s', t, p);
  }

  lemma ContinueMoveEnd(s: State, t: Thread, s': State)
    requires Inv(s) && Continue(s, t) == Some(s')
    requires PcOf(s, t).MvQueued?
    ensures Inv(s') && Guarded(s, s', t)
  {
    var p := PcOf(s, t).p;
    assert ThreadOk(s, t) && TaskOk(s, p);
    assert p in Carried(PcOf(s, t));
    StepKeeps(s, s', t, p);
  }

  lemma ContinuePushOut(s: State, t: Thread, s': State)
    requires Inv(s) && Continue(s, t) == Some(s')
    requires PcOf(s, t).PushDequeued?
    ensures Inv(s') && Guarded(s, s', t)
  {
    var p := PcOf(s, t).p;
    assert ThreadOk(s, t) && TaskOk(s, p);
    assert p in Carried(PcOf(s, t));
    StepKeeps(s, s', t, p);
  }

  lemma ContinuePushIn(s: State, t: Thread, s': State)
    requires Inv(s) && Continue(s, t) == Some(s')
    requires PcOf(s, t).PushMoved?
    ensures Inv(s') && Guarded(s, s', t)
  {
    var p := PcOf(s, t).p;
    assert ThreadOk(s, t) && TaskOk(s, p);
    assert p in Carried(PcOf(s, t));
    StepKeeps(s, s', t, p);
  }

  lemma ContinueWakeStart(s: State, t: Thread, s': State)
    requires Inv(s) && Continue(s, t) == Some(s') && PcOf(s, t).WakeStart?
    ensures Inv(s') && Guarded(s, s', t)
  {
    hide Stage;
    var p := PcOf(s, t).p;
    assert ThreadOk(s, t) && TaskOk(s, p);
    StepKeeps(s, s', t, p);
  }

  lemma ContinueWakeSeen(s: State, t: Thread, s': State)
    requires Inv(s) && Continue(s, t) == Some(s') && PcOf(s, t).WakeSeen?
    ensures Inv(s') && Guarded(s, s', t)
  {
    var p := PcOf(s, t).p;
    assert ThreadOk(s, t) && TaskOk(s, p);
    if At(s, p).onRq == Off { NotCarried(s, t, p); }
    StepKeeps(s, s', t, p);
  }

  lemma ContinueWakePlaced(s: State, t: Thread, s': State)
    requires Inv(s) && Continue(s, t) == Some(s')
    requires PcOf(s, t).WakePlaced?
    ensures Inv(s') && Guarded(s, s', t)
  {
    var p := PcOf(s, t).p;
    assert ThreadOk(s, t) && TaskOk(s, p);
    assert p in Carried(PcOf(s, t));
    StepKeeps(s, s', t, p);
  }

  lemma ContinueWakeLocked(s: State, t: Thread, s': State)
    requires Inv(s) && Continue(s, t) == Some(s')
    requires PcOf(s, t).WakeLocked?
    ensures Inv(s') && Guarded(s, s', t)
  {
    var p := PcOf(s, t).p;
    assert ThreadOk(s, t) && TaskOk(s, p);
    assert p in Carried(PcOf(s, t));
    StepKeeps(s, s', t, p);
  }

  lemma ContinueActivated(s: State, t: Thread, s': State)
    requires Inv(s) && Continue(s, t) == Some(s')
    requires PcOf(s, t).WakeEnqueued?
    ensures Inv(s') && Guarded(s, s', t)
  {
    var p := PcOf(s, t).p;
    assert ThreadOk(s, t) && TaskOk(s, p);
    assert p in Carried(PcOf(s, t));
    StepKeeps(s, s', t, p);
  }

  lemma ContinueWoken(s: State, t: Thread, s': State)
    requires Inv(s) && Continue(s, t) == Some(s')
    requires PcOf(s, t).WakeDone?
    ensures Inv(s') && Guarded(s, s', t)
  {
    var p := PcOf(s, t).p;
    assert ThreadOk(s, t) && TaskOk(s, p);
    StepKeeps(s, s', t, p);
  }

  lemma ContinuePending(s: State, t: Thread, s': State)
    requires Inv(s) && Continue(s, t) == Some(s')
    requires PcOf(s, t).Pending?
    ensures Inv(s') && Guarded(s, s', t)
  {
    hide SawAsleep;
    assert ThreadOk(s, t) && TaskOk(s, 0);
    StepKeeps(s, s', t, 0);
  }

  lemma ContinueEmptied(s: State, t: Thread, s': State)
    requires Inv(s) && Continue(s, t) == Some(s')
    requires PcOf(s, t).PendingLocked?
    ensures Inv(s') && Guarded(s, s', t)
  {
    hide SawAsleep;
    assert ThreadOk(s, t) && TaskOk(s, 0);
    StepKeeps(s, s', t, 0);
  }

  lemma ContinueEnqueued(s: State, t: Thread, s': State)
    requires Inv(s) && Continue(s, t) == Some(s') && PcOf(s, t).PendingEnqueued?
    ensures Inv(s') && Guarded(s, s', t)
  {
    var p := PcOf(s, t).p;
    assert ThreadOk(s, t) && TaskOk(s, p);
    assert p in Carried(PcOf(s, t));
    StepKeeps(s, s', t, p);
  }

  /* A task found on a locked queue is QUEUED and on its own CPU's queue: what the BUG_ONs of
     pick_next_pushable_task and the warning in pull_rt_task say. */
  lemma OnLockedQueue(s: State, t: Thread, c: Cpu, p: Task)
    requires Inv(s) && c in RqsOf(PcOf(s, t)) && c in At(s, p).on && p !in Carried(PcOf(s, t))
    ensures At(s, p).carrier == None && At(s, p).cpu == c && At(s, p).onRq == Queued && At(s, p).on == {c}
  {
    hide PiOf, RqsOf, Carried, Stage, SawAsleep, Shape;
    assert TaskOk(s, p) && ThreadOk(s, t);
    CarrierLocks(s, p);
  }

  /* What task_rq_lock returned with, if queued, nobody else is in the middle of changing. */
  lemma HeldNotCarried(s: State, t: Thread)
    requires Inv(s) && PcOf(s, t).Held? && At(s, PcOf(s, t).p).onRq == Queued
    ensures At(s, PcOf(s, t).p).carrier == None
  {
    var p := PcOf(s, t).p;
    assert TaskOk(s, p) && ThreadOk(s, t);
    CarrierLocks(s, p);
  }

  lemma Starting(s: State, t: Thread, a: Action, s': State)
    requires Inv(s) && Do(s, t, a) == Some(s') && a.Start?
    ensures Inv(s') && Guarded(s, s', t)
  {
    hide Continue, Stage;
    assert ThreadOk(s, t) && TaskOk(s, a.p);
    StepKeeps(s, s', t, a.p);
  }

  lemma GivenOrMismatch(s: State, t: Thread, a: Action, s': State)
    requires Inv(s) && Do(s, t, a) == Some(s') && (a.Given? || a.Mismatch?)
    ensures Inv(s') && Guarded(s, s', t)
  {
    hide Continue, Stage;
    var p := PcOf(s, t).p;
    assert ThreadOk(s, t) && TaskOk(s, p);
    StepKeeps(s, s', t, p);
  }

  lemma HeldTakes(s: State, t: Thread, a: Action, s': State)
    requires Inv(s) && Do(s, t, a) == Some(s') && (a.Requeue? || a.Move?) && PcOf(s, t).Held?
    ensures Inv(s') && Guarded(s, s', t)
  {
    hide Continue;
    var p := PcOf(s, t).p;
    assert ThreadOk(s, t) && TaskOk(s, p);
    HeldNotCarried(s, t);
    StepKeeps(s, s', t, p);
  }

  lemma QueueTakes(s: State, t: Thread, a: Action, s': State)
    requires Inv(s) && Do(s, t, a) == Some(s') && (a.Move? || a.Block?) && PcOf(s, t).RqHeld?
    ensures Inv(s') && Guarded(s, s', t)
  {
    hide Continue;
    assert ThreadOk(s, t) && TaskOk(s, a.p);
    OnLockedQueue(s, t, PcOf(s, t).rq, a.p);
    StepKeeps(s, s', t, a.p);
  }

  lemma PushTakes(s: State, t: Thread, a: Action, s': State)
    requires Inv(s) && Do(s, t, a) == Some(s') && a.Push?
    ensures Inv(s') && Guarded(s, s', t)
  {
    hide Continue;
    assert ThreadOk(s, t) && TaskOk(s, a.p);
    OnLockedQueue(s, t, a.src, a.p);
    StepKeeps(s, s', t, a.p);
  }

  lemma Locking(s: State, t: Thread, a: Action, s': State)
    requires Inv(s) && Do(s, t, a) == Some(s') && a.LockRq?
    ensures Inv(s') && Guarded(s, s', t)
  {
    hide Continue, Stage, SawAsleep, TaskOk, Guarded;
    assert ThreadOk(s, t);
    RqStepKeeps(s, s', t);
  }

  lemma Relocking(s: State, t: Thread, a: Action, s': State)
    requires Inv(s) && Do(s, t, a) == Some(s') && a.Relock?
    ensures Inv(s') && Guarded(s, s', t)
  {
    hide Continue, Stage, SawAsleep, TaskOk, Guarded;
    assert ThreadOk(s, t);
    RqStepKeeps(s, s', t);
  }

  lemma Unlocking(s: State, t: Thread, a: Action, s': State)
    requires Inv(s) && Do(s, t, a) == Some(s') && a.UnlockRq?
    ensures Inv(s') && Guarded(s, s', t)
  {
    hide Continue, Stage, SawAsleep, TaskOk, Guarded;
    assert ThreadOk(s, t);
    RqStepKeeps(s, s', t);
  }

  lemma Placing(s: State, t: Thread, a: Action, s': State)
    requires Inv(s) && Do(s, t, a) == Some(s') && a.Place?
    ensures Inv(s') && Guarded(s, s', t)
  {
    hide Inv, Guarded, Continue;
    PlacingStep(s, t, PcOf(s, t).p, a.c);
  }

  lemma PlacingStep(s: State, t: Thread, p: Task, c: Cpu)
    requires Inv(s) && PcOf(s, t) == WakeChosen(p)
    ensures var s' := Go(Set(s, p, At(s, p).(cpu := c, waking := true)), t, WakePlaced(p, c));
      Inv(s') && Guarded(s, s', t)
  {
    assert ThreadOk(s, t) && TaskOk(s, p);
    assert p in Carried(PcOf(s, t));
    StepKeeps(s, Go(Set(s, p, At(s, p).(cpu := c, waking := true)), t, WakePlaced(p, c)), t, p);
  }

  lemma Listing(s: State, t: Thread, a: Action, s': State)
    requires Inv(s) && Do(s, t, a) == Some(s') && a.List?
    ensures Inv(s') && Guarded(s, s', t)
  {
    hide Continue;
    var p := PcOf(s, t).p;
    assert ThreadOk(s, t) && TaskOk(s, p);
    assert p in Carried(PcOf(s, t));
    StepKeeps(s, s', t, p);
  }

  lemma ActivatePending(s: State, t: Thread, a: Action, s': State)
    requires Inv(s) && Do(s, t, a) == Some(s') && a.Activate?
    ensures Inv(s') && Guarded(s, s', t)
  {
    hide Continue;
    assert ThreadOk(s, t) && TaskOk(s, a.p);
    assert a.p in Carried(PcOf(s, t));
    StepKeeps(s, s', t, a.p);
  }

  lemma TakingListTask(s: State, t: Thread, c: Cpu, p: Task)
    requires Inv(s) && PcOf(s, t) == Idle
    ensures TaskOk(Go(Unlisted(s, t, c), t, Pending(c, OnList(s, c))), p)
  {
    assert TaskOk(s, p);
  }

  lemma TakingListThread(s: State, t: Thread, c: Cpu, u: Thread)
    requires Inv(s) && PcOf(s, t) == Idle
    ensures ThreadOk(Go(Unlisted(s, t, c), t, Pending(c, OnList(s, c))), u)
  {
    hide SawAsleep;
    var s' := Go(Unlisted(s, t, c), t, Pending(c, OnList(s, c)));
    assert ThreadOk(s, u);
    if u == t {
      forall p | p in OnList(s, c) ensures At(s', p).carrier == Some(t) && Stage(PcOf(s', t), p, At(s', p)) {
        assert TaskOk(s, p);
      }
    } else {
      forall p | p in Carried(PcOf(s, u)) ensures At(s', p) == At(s, p) { assert TaskOk(s, p); }
    }
  }

  lemma TakingList(s: State, t: Thread, a: Action, s': State)
    requires Inv(s) && Do(s, t, a) == Some(s') && a.TakeList?
    ensures Inv(s') && Guarded(s, s', t)
  {
    hide Continue, TaskOk, ThreadOk;
    forall p ensures TaskOk(s', p) { TakingListTask(s, t, a.c, p); }
    forall u ensures ThreadOk(s', u) { TakingListThread(s, t, a.c, u); }
  }

  // ----- whole runs

  lemma ContinueKeeps(s: State, t: Thread, s': State)
    requires Inv(s) && Continue(s, t) == Some(s')
    ensures Inv(s') && Guarded(s, s', t)
  {
    hide Inv, Guarded;
    match PcOf(s, t)
    case Again(_) => ContinueLocking(s, t, s');
    case Looking(_, _) => ContinueLocking(s, t, s');
    case RqRead(_, _, _) => ContinueLocking(s, t, s');
    case Locked(_, _, _) => ContinueLocking(s, t, s');
    case CpuSeen(_, _, _) => ContinueLocking(s, t, s');
    case Refused(_, _, _) => ContinueRefused(s, t, s');
    case DropPi(_) => ContinueRefused(s, t, s');
    case Spinning(_, _) => ContinueRefused(s, t, s');
    case Leaving(_) => ContinueRefused(s, t, s');
    case First(_, _) => ContinuePair(s, t, s');
    case Second(_, _) => ContinuePair(s, t, s');
    case Bracketed(_, _, _) => ContinueBack(s, t, s');
    case Blocking(_, _) => ContinueBack(s, t, s');
    case Held(_, _, _) => ContinueHeld(s, t, s');
    case MvDequeued(_, _, _, _) => ContinueMoveMark(s, t, s');
    case MvMarked(_, _, _, _) => ContinueMoveOut(s, t, s');
    case MvMoved(_, _, _, _) => ContinueMoved(s, t, s');
    case MvUnlocked(_, _, _) => ContinueMoveLock(s, t, s');
    case MvLocked(_, _, _) => ContinueMoveIn(s, t, s');
    case MvQueued(_, _, _) => ContinueMoveEnd(s, t, s');
    case PushDequeued(_, _, _) => ContinuePushOut(s, t, s');
    case PushMoved(_, _, _) => ContinuePushIn(s, t, s');
    case WakeStart(_) => ContinueWakeStart(s, t, s');
    case WakeSeen(_) => ContinueWakeSeen(s, t, s');
    case WakePlaced(_, _) => ContinueWakePlaced(s, t, s');
    case WakeLocked(_, _) => ContinueWakeLocked(s, t, s');
    case WakeEnqueued(_, _) => ContinueActivated(s, t, s');
    case WakeDone(_, _) => ContinueWoken(s, t, s');
    case Pending(_, _) => ContinuePending(s, t, s');
    case PendingLocked(_, _) => ContinueEmptied(s, t, s');
    case PendingEnqueued(_, _, _) => ContinueEnqueued(s, t, s');
    case _ =>
  }

  lemma DoKeeps(s: State, t: Thread, a: Action, s': State)
    requires Inv(s) && Do(s, t, a) == Some(s')
    ensures Inv(s') && Guarded(s, s', t)
  {
    hide Inv, Guarded, Continue;
    match a
    case Step => ContinueKeeps(s, t, s');
    case Start(_, _) => Starting(s, t, a, s');
    case Given(_) => GivenOrMismatch(s, t, a, s');
    case Mismatch => GivenOrMismatch(s, t, a, s');
    case Requeue => HeldTakes(s, t, a, s');
    case Move(_, _) => if PcOf(s, t).Held? { HeldTakes(s, t, a, s'); } else { QueueTakes(s, t, a, s'); }
    case LockRq(_) => Locking(s, t, a, s');
    case Relock(_) => Relocking(s, t, a, s');
    case UnlockRq(_) => Unlocking(s, t, a, s');
    case Push(_, _, _) => PushTakes(s, t, a, s');
    case Block(_) => QueueTakes(s, t, a, s');
    case Place(_) => Placing(s, t, a, s');
    case List => Listing(s, t, a, s');
    case TakeList(_) => TakingList(s, t, a, s');
    case Activate(_) => ActivatePending(s, t, a, s');
  }

  /* The state after a schedule of steps; a step that cannot be taken waits, that is, does nothing. */
  function Run(s: State, steps: seq<(Thread, Action)>): State {
    if steps == [] then s
    else
      var r := Run(s, steps[..|steps| - 1]);
      var (t, a) := steps[|steps| - 1];
      match Do(r, t, a) case Some(next) => next case None => r
  }

  const INITIAL: State := State(map[], map[], map[], map[])

  lemma {:induction false} RunKeeps(s: State, steps: seq<(Thread, Action)>)
    requires Inv(s)
    ensures Inv(Run(s, steps))
  {
    hide Inv, Do;
    if steps != [] {
      var r := Run(s, steps[..|steps| - 1]);
      var (t, a) := steps[|steps| - 1];
      RunKeeps(s, steps[..|steps| - 1]);
      if Do(r, t, a).Some? { DoKeeps(r, t, a, Do(r, t, a).value); }
    }
  }

  /* A task found by task_rq_lock is where its flag says. */
  lemma HeldIsSettled(s: State, t: Thread)
    requires Inv(s) && PcOf(s, t).Held?
    ensures Settled(At(s, PcOf(s, t).p))
  {
    hide Stage, SawAsleep, Shape;
    var p := PcOf(s, t).p;
    assert TaskOk(s, p) && ThreadOk(s, t);
    CarrierLocks(s, p);
  }

  /* When task_rq_lock returns, the queue locked is the task's, the task is not on its way to
     another, it is on this queue exactly if it is queued, and both locks are held. */
  lemma LockReturnsRight(steps: seq<(Thread, Action)>, t: Thread)
    ensures var s := Run(INITIAL, steps);
      PcOf(s, t).Held? ==>
        var (p, c) := (PcOf(s, t).p, PcOf(s, t).rq);
        && At(s, p).cpu == c && At(s, p).onRq != Migrating
        && At(s, p).on == (if At(s, p).onRq == Queued then {c} else {})
        && p in s.pi && s.pi[p] == t && c in s.rq && s.rq[c] == t
  {
    hide Stage, SawAsleep, Shape, Carried;
    var s := Run(INITIAL, steps);
    InitialOk();
    RunKeeps(INITIAL, steps);
    assert ThreadOk(s, t);
    if PcOf(s, t).Held? {
      assert PcOf(s, t).rq in RqsOf(PcOf(s, t));
      HeldIsSettled(s, t);
    }
  }

  /* Unopposed it does return: after taking the pi lock, reading the CPU, taking that queue's lock
     and the two halves of the check. */
  lemma LockReturns(s: State, t: Thread, p: Task)
    requires PcOf(s, t) == Idle && p !in s.pi && At(s, p).cpu !in s.rq && At(s, p).onRq != Migrating
    ensures PcOf(Run(s, Attempt(t, p)), t) == Held(p, At(s, p).cpu, Whole)
  {
    hide Run, Do, At, TakePi, TakeRq;
    var c := At(s, p).cpu;
    var (s1, s2, s3, s4) := AttemptStates(s, t, p);
    AttemptSteps(s, t, p);
    var a0, a1 := [(t, Start(p, Whole))], [(t, Step)];
    RunNothing(s);
    assert [] + a0 == a0;
    RunStep(s, [], t, Start(p, Whole), s, s1);
    RunStep(s, a0, t, Step, s1, s2);
    RunStep(s, a0 + a1, t, Step, s2, s3);
    RunStep(s, a0 + a1 + a1, t, Step, s3, s4);
    RunStep(s, a0 + a1 + a1 + a1, t, Step, s4, Go(s4, t, Held(p, c, Whole)));
    assert Attempt(t, p) == a0 + a1 + a1 + a1 + a1;
  }

  /* The states on the way. */
  ghost function AttemptStates(s: State, t: Thread, p: Task): (State, State, State, State) {
    var c := At(s, p).cpu;
    var s1 := Go(TakePi(s, t, p), t, Looking(p, Whole));
    var s2 := Go(s1, t, RqRead(p, c, Whole));
    var s3 := Go(TakeRq(s2, t, c), t, Locked(p, c, Whole));
    (s1, s2, s3, Go(s3, t, CpuSeen(p, c, Whole)))
  }

  lemma AttemptSteps(s: State, t: Thread, p: Task)
    requires PcOf(s, t) == Idle && p !in s.pi && At(s, p).cpu !in s.rq && At(s, p).onRq != Migrating
    ensures var (s1, s2, s3, s4) := AttemptStates(s, t, p);
      && Do(s, t, Start(p, Whole)) == Some(s1) && Do(s1, t, Step) == Some(s2) && Do(s2, t, Step) == Some(s3)
      && Do(s3, t, Step) == Some(s4) && Do(s4, t, Step) == Some(Go(s4, t, Held(p, At(s, p).cpu, Whole)))
  {
  }

  function Attempt(t: Thread, p: Task): seq<(Thread, Action)> {
    [(t, Start(p, Whole)), (t, Step), (t, Step), (t, Step), (t, Step)]
  }

  lemma RunNothing(s: State)
    ensures Run(s, []) == s
  {
  }

  lemma RunStep(s: State, steps: seq<(Thread, Action)>, t: Thread, a: Action, r: State, next: State)
    requires Run(s, steps) == r && Do(r, t, a) == Some(next)
    ensures Run(s, steps + [(t, a)]) == next
  {
    hide Do;
    assert (steps + [(t, a)])[..|steps|] == steps;
  }

  /* What others do meanwhile changes neither its CPU nor its place. */
  lemma HeldIsStable(s: State, t: Thread, u: Thread, a: Action, s': State)
    requires Inv(s) && PcOf(s, t).Held? && u != t && Do(s, u, a) == Some(s')
    ensures PcOf(s', t) == PcOf(s, t)
    ensures SamePlace(At(s, PcOf(s, t).p), At(s', PcOf(s, t).p))
  {
    hide Do, Stage, SawAsleep, Shape;
    DoKeeps(s, u, a, s');
    assert ThreadOk(s, t) && ThreadOk(s, u);
  }

  /* ... until it unlocks, over any number of steps of others. */
  lemma {:induction false} HeldUntilUnlock(s: State, t: Thread, steps: seq<(Thread, Action)>)
    requires Inv(s) && PcOf(s, t).Held? && forall i :: 0 <= i < |steps| ==> steps[i].0 != t
    ensures var (s', p) := (Run(s, steps), PcOf(s, t).p);
      PcOf(s', t) == PcOf(s, t) && SamePlace(At(s, p), At(s', p))
  {
    hide Inv, Do;
    if steps != [] {
      var r := Run(s, steps[..|steps| - 1]);
      var (u, a) := steps[|steps| - 1];
      HeldUntilUnlock(s, t, steps[..|steps| - 1]);
      RunKeeps(s, steps[..|steps| - 1]);
      if Do(r, u, a).Some? { HeldIsStable(r, t, u, a, Do(r, u, a).value); }
    }
  }

  /* Outside critical sections: with its pi lock and the lock of its CPU's queue free, and unless it
     is on its way between two queues, a QUEUED task is on its CPU's queue and on no other, and
     any other task is on none. */
  lemma SettledWhenUnlocked(steps: seq<(Thread, Action)>, p: Task)
    ensures var s := Run(INITIAL, steps);
      p !in s.pi && At(s, p).cpu !in s.rq && At(s, p).onRq != Migrating ==> Settled(At(s, p))
  {
    hide Stage, SawAsleep, Shape, Carried;
    var s := Run(INITIAL, steps);
    InitialOk();
    RunKeeps(INITIAL, steps);
    assert TaskOk(s, p);
    CarrierLocks(s, p);
  }

  lemma InitialOk()
    ensures Inv(INITIAL)
  {
  }

  /* BUG_ON(task_cpu(p) != new_cpu) in move_queued_task never fires. */
  lemma MoveArrives(steps: seq<(Thread, Action)>, t: Thread)
    ensures var s := Run(INITIAL, steps);
      PcOf(s, t).MvLocked? ==> At(s, PcOf(s, t).p).cpu == PcOf(s, t).dst && At(s, PcOf(s, t).p).on == {}
  {
    var s := Run(INITIAL, steps);
    InitialOk();
    RunKeeps(INITIAL, steps);
    assert ThreadOk(s, t);
    if PcOf(s, t).MvLocked? { assert PcOf(s, t).p in Carried(PcOf(s, t)); }
  }
}
