/**
 The circular scheduling class over values: what its hooks do to the ring, to the entity kept out
 of the ring because it runs, and to the set of queued entities; and what whole runs of the
 scheduler promise a waiting task.
 */
module RoundRobin {
  import opened Util

  /* struct circ_rq: the ring from its head, the entity that runs, and the entities with on_rq. */
  datatype Circ<+T> = Circ(ring: seq<T>, curr: Option<T>, onRq: set<T>)

  /* The ring holds exactly the queued entities other than the one that runs, each once. */
  ghost predicate CircOk<T>(s: Circ<T>) {
    && Distinct(s.ring)
    && (forall t :: t in s.ring ==> t in s.onRq && s.curr != Some(t))
    && (forall t :: t in s.onRq && s.curr != Some(t) ==> t in s.ring)
  }

  // ----- the hooks

  ghost function Enqueue<T>(s: Circ<T>, t: T): Circ<T> {
    if t in s.onRq then s
    else s.(ring := if s.curr == Some(t) then s.ring else s.ring + [t], onRq := s.onRq + {t})
  }

  ghost function Dequeue<T>(s: Circ<T>, t: T): Circ<T> {
    s.(ring := if s.curr == Some(t) then s.ring else Without(s.ring, t), onRq := s.onRq - {t})
  }

  ghost function PutPrev<T>(s: Circ<T>, t: T): Circ<T> {
    s.(ring := if t in s.onRq then s.ring + [t] else s.ring, curr := None)
  }

  ghost function SetNext<T>(s: Circ<T>, t: T): Circ<T> {
    s.(ring := if t in s.onRq then Without(s.ring, t) else s.ring, curr := Some(t))
  }

  /* pick_next_task_circular; prev is the task that ran, if it is of this class. */
  ghost function PickNext<T>(s: Circ<T>, prev: Option<T>): (r: (Circ<T>, Option<T>)) {
    if s.onRq == {} then (s, None)
    else
      var u := match prev case None => s case Some(p) => PutPrev(s, p);
      if u.ring == [] then (u, u.curr) else (SetNext(u, u.ring[0]), Some(u.ring[0]))
  }

  lemma WithoutHead<T>(s: seq<T>)
    requires Distinct(s) && s != []
    ensures Without(s, s[0]) == s[1..]
  {
    assert s[0] !in s[1..];
    WithoutMembers(s[1..], s[0]);
  }

  lemma DistinctAppend<T>(s: seq<T>, t: T)
    requires Distinct(s) && t !in s
    ensures Distinct(s + [t])
  {
  }

  lemma HooksKeepOk<T>(s: Circ<T>, t: T)
    requires CircOk(s)
    ensures CircOk(Enqueue(s, t)) && CircOk(Dequeue(s, t))
    ensures s.curr == Some(t) ==> CircOk(PutPrev(s, t))
    ensures s.curr == None ==> CircOk(SetNext(s, t))
  {
    WithoutMembers(s.ring, t);
    if t !in s.ring { DistinctAppend(s.ring, t); }
  }

  // ----- the runqueue around it

  /* running is rq->curr, circular the tasks of this class, otherQueued the queued tasks of all
     other classes. */
  datatype Rq<T> = Rq(circ: Circ<T>, running: T, circular: set<T>, otherQueued: set<T>)

  /* What holds between operations: circ_rq->curr is the running task if it is of this class. */
  ghost predicate Ok<T>(r: Rq<T>) {
    && CircOk(r.circ)
    && r.circ.curr == (if r.running in r.circular then Some(r.running) else None)
    && r.circ.onRq <= r.circular && r.otherQueued !! r.circular
  }

  ghost predicate Queued<T>(r: Rq<T>, p: T) {
    p in r.circ.onRq || p in r.otherQueued
  }

  /* put_prev_task through the class of the running task. */
  ghost function PutRunning<T>(r: Rq<T>): Circ<T> {
    if r.running in r.circular then PutPrev(r.circ, r.running) else r.circ
  }

  /* The four hooks through the class that p has at the time. */
  ghost function ClassDequeue<T>(r: Rq<T>, p: T): Rq<T> {
    if p in r.circular then r.(circ := Dequeue(r.circ, p)) else r.(otherQueued := r.otherQueued - {p})
  }

  ghost function ClassPutPrev<T>(r: Rq<T>, p: T): Rq<T> {
    if p in r.circular then r.(circ := PutPrev(r.circ, p)) else r
  }

  ghost function ClassSetCurr<T>(r: Rq<T>, p: T): Rq<T> {
    if p in r.circular then r.(circ := SetNext(r.circ, p)) else r
  }

  ghost function ClassEnqueue<T>(r: Rq<T>, p: T): Rq<T> {
    if p in r.circular then r.(circ := Enqueue(r.circ, p)) else r.(otherQueued := r.otherQueued + {p})
  }

  /* The bracket of __sched_setscheduler, rt_mutex_setprio and sched_move_task: dequeue, put_prev,
     change, set_curr, enqueue. toCirc tells whether p is of this class afterwards. */
  ghost function Change<T>(r: Rq<T>, p: T, toCirc: bool): Rq<T> {
    var queued, running := Queued(r, p), p == r.running;
    var r1 := if queued then ClassDequeue(r, p) else r;
    var r2 := if running then ClassPutPrev(r1, p) else r1;
    var r3 := r2.(circular := if toCirc then r.circular + {p} else r.circular - {p});
    var r4 := if running then ClassSetCurr(r3, p) else r3;
    if queued then ClassEnqueue(r4, p) else r4
  }

  ghost predicate Kept<T>(r: Rq<T>, t: Rq<T>, p: T, toCirc: bool) {
    && Ok(t) && t.running == r.running && (Queued(t, p) <==> Queued(r, p))
    && (p in t.circular <==> toCirc)
    && t.circ.onRq - {p} == r.circ.onRq - {p} && t.otherQueued - {p} == r.otherQueued - {p}
    && t.circ.ring == Without(r.circ.ring, p) + if Queued(r, p) && toCirc && p != r.running then [p] else []
  }

  lemma ChangeRunning<T>(r: Rq<T>, toCirc: bool)
    requires Ok(r)
    ensures Kept(r, Change(r, r.running, toCirc), r.running, toCirc)
  {
    var ring := r.circ.ring;
    WithoutMembers(ring, r.running);
    assert Without(ring, r.running) == ring && ring + [] == ring;
  }

  lemma ChangeWaiting<T>(r: Rq<T>, p: T, toCirc: bool)
    requires Ok(r) && p != r.running
    ensures Kept(r, Change(r, p, toCirc), p, toCirc)
  {
    var without := Without(r.circ.ring, p);
    WithoutMembers(r.circ.ring, p);
    DistinctAppend(without, p);
    assert without + [] == without;
  }

  /* The bracket keeps the invariant in all eight combinations of queued, running and class. p
     keeps its standing; the others keep their order and p goes behind them. */
  lemma ChangeKeepsOk<T>(r: Rq<T>, p: T, toCirc: bool)
    requires Ok(r)
    ensures Kept(r, Change(r, p, toCirc), p, toCirc)
  {
    hide Kept, Ok, Change;
    if p == r.running { ChangeRunning(r, toCirc); } else { ChangeWaiting(r, p, toCirc); }
  }

  /* normalize_task has no put_prev and set_curr around its change. */
  ghost function Normalize<T>(r: Rq<T>, p: T): Rq<T> {
    var queued := Queued(r, p);
    var c1 := if queued && p in r.circular then Dequeue(r.circ, p) else r.circ;
    var c2 := if queued then Enqueue(c1, p) else c1;
    Rq(c2, r.running, r.circular + {p}, r.otherQueued - {p})
  }

  /* It is safe exactly when the task is not running or was of this class already. */
  lemma NormalizeKeepsOk<T>(r: Rq<T>, p: T)
    requires Ok(r)
    ensures Ok(Normalize(r, p)) <==> p != r.running || p in r.circular
  {
    HooksKeepOk(r.circ, p);
    HooksKeepOk(Dequeue(r.circ, p), p);
  }

  /* Otherwise the next put_prev links a queued task into the ring a second time. */
  lemma NormalizeLinksTwice<T>(r: Rq<T>, p: T)
    requires Ok(r) && p == r.running && p !in r.circular && Queued(r, p)
    ensures PutRunning(Normalize(r, p)).ring == r.circ.ring + [p, p]
    ensures !CircOk(PutRunning(Normalize(r, p)))
  {
    var ring := PutRunning(Normalize(r, p)).ring;
    var n := |r.circ.ring|;
    assert r.circ.ring + [p] + [p] == r.circ.ring + [p, p];
    assert ring[n] == ring[n + 1];
  }

  // ----- runs

  datatype Step<T> = Wake(t: T) | Sleep(t: T) | Other(u: T) | Circular | Switch(p: T, toCirc: bool)

  ghost predicate Legal<T>(r: Rq<T>, st: Step<T>) {
    match st
    case Wake(t) => t in r.circular && t !in r.circ.onRq
    case Sleep(t) => t in r.circ.onRq
    case Other(u) => u !in r.circular
    case Circular => r.circ.onRq != {}
    case Switch(_, _) => true
  }

  /* Other(u): another class, or the idle class, picks u. Circular: this class picks. */
  ghost function Apply<T>(r: Rq<T>, st: Step<T>): Rq<T> {
    match st
    case Wake(t) => r.(circ := Enqueue(r.circ, t))
    case Sleep(t) => r.(circ := Dequeue(r.circ, t))
    case Other(u) => r.(circ := PutRunning(r), running := u)
    case Switch(p, toCirc) => Change(r, p, toCirc)
    case Circular =>
      var (c, t) := PickNext(r.circ, if r.running in r.circular then Some(r.running) else None);
      r.(circ := c, running := match t case None => r.running case Some(x) => x)
  }

  /* The pick takes the head; the task that ran goes to the tail if it is still queued. */
  lemma CircularStep<T>(r: Rq<T>)
    requires Ok(r) && r.circ.onRq != {}
    ensures var w := r.circ.ring + if r.running in r.circ.onRq then [r.running] else [];
      && w != [] && Apply(r, Circular).running == w[0] && Apply(r, Circular).circ.ring == w[1..]
      && Apply(r, Circular).circ.onRq == r.circ.onRq && Apply(r, Circular).circular == r.circular
      && Ok(Apply(r, Circular))
  {
    var u := PutRunning(r);
    HooksKeepOk(r.circ, r.running);
    assert r.circ.ring + [] == r.circ.ring;
    var t :| t in r.circ.onRq;
    assert u.ring != [];
    WithoutHead(u.ring);
    HooksKeepOk(u, u.ring[0]);
  }

  lemma StepKeepsOk<T>(r: Rq<T>, st: Step<T>)
    requires Ok(r) && Legal(r, st)
    ensures Ok(Apply(r, st))
  {
    match st
    case Wake(t) => HooksKeepOk(r.circ, t);
    case Sleep(t) => HooksKeepOk(r.circ, t);
    case Other(u) => HooksKeepOk(r.circ, r.running);
    case Circular => CircularStep(r);
    case Switch(p, toCirc) => ChangeKeepsOk(r, p, toCirc);
  }

  ghost predicate LegalRun<T>(r: Rq<T>, steps: seq<Step<T>>)
    decreases |steps|
  {
    steps == [] || (Legal(r, steps[0]) && LegalRun(Apply(r, steps[0]), steps[1..]))
  }

  /* The tasks that this class picks in a run, in order. */
  ghost function Picks<T>(r: Rq<T>, steps: seq<Step<T>>): seq<T>
    decreases |steps|
  {
    if steps == [] then []
    else
      var next := Apply(r, steps[0]);
      (if steps[0].Circular? then [next.running] else []) + Picks(next, steps[1..])
  }

  /* The step takes t itself off the queue, or through the bracket. */
  ghost predicate Touches<T>(st: Step<T>, t: T) {
    (st.Sleep? && st.t == t) || (st.Switch? && st.p == t)
  }

  lemma {:induction false} WithoutIndex<T>(s: seq<T>, x: T, k: nat) returns (j: nat)
    requires k < |s| && s[k] != x
    ensures j <= k && j < |Without(s, x)| && Without(s, x)[j] == s[k]
  {
    if k == 0 {
      j := 0;
    } else {
      j := WithoutIndex(s[1..], x, k - 1);
      if s[0] != x { j := j + 1; }
    }
  }

  /* A step that does not touch t never moves it away from the head. */
  lemma StepMovesUp<T>(r: Rq<T>, st: Step<T>, t: T, k: nat) returns (j: nat)
    requires Ok(r) && Legal(r, st) && !Touches(st, t) && !st.Circular?
    requires k < |r.circ.ring| && r.circ.ring[k] == t
    ensures j <= k && j < |Apply(r, st).circ.ring| && Apply(r, st).circ.ring[j] == t
  {
    j := k;
    match st
    case Sleep(x) =>
      if r.circ.curr != Some(x) { j := WithoutIndex(r.circ.ring, x, k); }
    case Switch(p, toCirc) =>
      ChangeKeepsOk(r, p, toCirc);
      j := WithoutIndex(r.circ.ring, p, k);
    case Wake(_) =>
    case Other(_) =>
  }

  /* A task with k tasks ahead of it is picked no later than the (k+1)-th pick of this class,
     whatever other tasks arrive, leave, change class or are preempted in between. */
  lemma {:induction false} BoundedWaiting<T>(r: Rq<T>, steps: seq<Step<T>>, t: T, k: nat)
    requires Ok(r) && LegalRun(r, steps) && k < |r.circ.ring| && r.circ.ring[k] == t
    requires forall i :: 0 <= i < |steps| ==> !Touches(steps[i], t)
    ensures |Picks(r, steps)| > k ==> t in Picks(r, steps)[..k + 1]
    decreases |steps|
  {
    if steps != [] {
      var st, rest := steps[0], steps[1..];
      var next := Apply(r, st);
      StepKeepsOk(r, st);
      assert forall i :: 0 <= i < |rest| ==> rest[i] == steps[i + 1];
      var later := Picks(next, rest);
      if st.Circular? {
        CircularStep(r);
        assert Picks(r, steps) == [next.running] + later;
        if k > 0 {
          BoundedWaiting(next, rest, t, k - 1);
          if |later| > k - 1 { assert ([next.running] + later)[..k + 1] == [next.running] + later[..k]; }
        }
      } else {
        assert Picks(r, steps) == later;
        var j := StepMovesUp(r, st, t, k);
        BoundedWaiting(next, rest, t, j);
        if |later| > k { assert later[..j + 1] <= later[..k + 1]; }
      }
    }
  }

  /* n picks of this class with nothing in between. */
  ghost function PicksInARow<T>(n: nat): seq<Step<T>> {
    seq(n, _ => Circular)
  }

  /* The order in which the runnable tasks will be picked. */
  ghost function Turn<T>(r: Rq<T>): seq<T> {
    r.circ.ring + if r.running in r.circ.onRq then [r.running] else []
  }

  lemma TurnIsRunnable<T>(r: Rq<T>)
    requires Ok(r)
    ensures Distinct(Turn(r)) && forall t :: t in Turn(r) ==> t in r.circ.onRq
    ensures forall t :: t in r.circ.onRq ==> t in Turn(r)
  {
  }

  /* A pick takes the first task and puts it last. */
  lemma NextTurn<T>(r: Rq<T>)
    requires Ok(r) && Turn(r) != []
    ensures r.circ.onRq != {} && Ok(Apply(r, Circular)) && Apply(r, Circular).running == Turn(r)[0]
    ensures Turn(Apply(r, Circular)) == Turn(r)[1..] + [Turn(r)[0]]
  {
    TurnIsRunnable(r);
    assert Turn(r)[0] in r.circ.onRq;
    CircularStep(r);
  }

  lemma TurnPrefix<T>(s: seq<T>, n: nat)
    requires 0 < n <= |s|
    ensures s[..n] == [s[0]] + (s[1..] + [s[0]])[..n - 1]
  {
  }

  /* With a fixed set of runnable tasks, as many picks in a row as there are tasks go through all
     of them in turn, each exactly once. */
  lemma {:induction false} RoundRobinTurns<T>(r: Rq<T>, n: nat)
    requires Ok(r) && n <= |Turn(r)|
    ensures LegalRun(r, PicksInARow(n)) && Picks(r, PicksInARow(n)) == Turn(r)[..n]
    decreases n
  {
    hide Ok, Turn, Apply;
    if n > 0 {
      TurnIsRunnable(r);
      NextTurn(r);
      var next := Apply(r, Circular);
      assert PicksInARow<T>(n)[1..] == PicksInARow(n - 1);
      RoundRobinTurns(next, n - 1);
      TurnPrefix(Turn(r), n);
    }
  }
}
