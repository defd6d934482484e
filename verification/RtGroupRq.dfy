/**
 The RT class with groups, as it runs: the fields of one CPU's runqueue and the methods that
 update them in place. Each method is proved to compute the step function of its name.
 */
module RtGroupRq {
  import opened Util
  import opened RtGroup
  import opened RtGroupOps
  import opened RtGroupPick

  /* The state once everything above x has been taken down. */
  ghost function Above(d: Cpu, x: Se): Cpu
    requires Inv(d) && x in d.parent
  {
    match d.parent[x] case None => d case Some(g) => DequeueStack(d, g)
  }

  lemma AboveStep(d: Cpu, x: Se)
    requires Inv(d) && x in d.parent
    ensures var u := Above(d, x);
      && Ready(u, x) && u.parent == d.parent && u.level == d.level
      && DequeueStack(d, x) == if x in u.onList then RtGroup.DequeueOne(u, x) else u
  {
  }

  lemma EnqueueStackStep(s: Cpu, e: Se, head: bool)
    requires Inv(s) && e in s.parent && Path(s.parent, s.level, e) !! s.onList
    ensures Ready(s, e) && e !in s.onList
    ensures var u := RtGroup.EnqueueOne(s, e, head);
      && Inv(u) && u.parent == s.parent && u.level == s.level
      && (s.parent[e].Some? ==>
            (&& s.parent[e].value in s.parent && s.level[s.parent[e].value] < s.level[e]
             && Path(s.parent, s.level, s.parent[e].value) !! u.onList + s.onList))
      && EnqueueStack(s, e, head) ==
         match s.parent[e] case None => u case Some(g) => EnqueueStack(u, g, head)
  {
    EnqueueOneKeepsInv(s, e, head);
    PathLevels(s.parent, s.level, e);
    if s.parent[e].Some? { PathLevels(s.parent, s.level, s.parent[e].value); }
  }

  lemma RequeueStackStep(s: Cpu, e: Se)
    requires Inv(s) && e in s.parent && Path(s.parent, s.level, e) !! s.onList && Ready(s, e) && e !in s.onList
    ensures var u := if IsGroup(s, e) && s.rq[Some(e)].rtNrRunning != 0 then RtGroup.EnqueueOne(s, e, false) else s;
      && Inv(u) && u.parent == s.parent && u.level == s.level
      && (s.parent[e].Some? ==>
            s.parent[e].value in s.parent && Path(s.parent, s.level, s.parent[e].value) !! u.onList)
      && RequeueStack(s, e) == match s.parent[e] case None => u case Some(g) => RequeueStack(u, g)
  {
    EnqueueStackStep(s, e, false);
  }

  /* A level that puts an entity just below the queue it lives on. */
  ghost predicate Fits(s: Cpu, q: Queue, depth: nat) {
    q in s.rq && (q.Some? ==> q.value in s.level && depth == s.level[q.value] + 1)
  }

  ghost function Depth(s: Cpu, q: Queue): (depth: nat)
    requires Inv(s) && q in s.rq
    ensures Fits(s, q, depth)
  {
    if q.Some? then s.level[q.value] + 1 else 0
  }

  lemma InPlace(s: Cpu, e: Se)
    requires Inv(s) && e in s.prio
    ensures e in s.parent && s.parent[e] in s.rq
  {
  }

  lemma TaskPrio(s: Cpu, p: Se)
    requires Inv(s) && p in s.prio
    ensures 0 <= s.prio[p] < MAX_RT_PRIO
  {
  }

  /* A task that is off the list may change its priority and its group. */
  lemma RetuneKeepsValid(s: Cpu, p: Se, q: Queue, depth: nat, newPrio: int, others: int)
    requires Valid(s, others) && p in s.prio && p !in s.onList && Fits(s, q, depth) && 0 <= newPrio < MAX_RT_PRIO
    ensures Valid(s.(parent := s.parent[p := q], level := s.level[p := depth], prio := s.prio[p := newPrio]), others)
  {
    assert !IsGroup(s, p);
    AddedKeepsValid(s, p, q, depth, newPrio, others);
  }

  lemma AddTaskKeepsValid(s: Cpu, p: Se, q: Queue, depth: nat, newPrio: int, others: int)
    requires Valid(s, others) && p !in s.parent && Fits(s, q, depth) && 0 <= newPrio < MAX_RT_PRIO
    ensures Valid(s.(parent := s.parent[p := q], level := s.level[p := depth], prio := s.prio[p := newPrio]), others)
  {
    assert !IsGroup(s, p);
    AddedKeepsValid(s, p, q, depth, newPrio, others);
  }

  ghost function Added(s: Cpu, p: Se, q: Queue, depth: nat, newPrio: int): Cpu {
    s.(parent := s.parent[p := q], level := s.level[p := depth], prio := s.prio[p := newPrio])
  }

  lemma AddedReads(s: Cpu, p: Se, q: Queue, depth: nat, newPrio: int)
    requires Tree(s) && !IsGroup(s, p) && p !in s.onList && Fits(s, q, depth) && 0 <= newPrio < MAX_RT_PRIO
    ensures Tree(Added(s, p, q, depth, newPrio))
    ensures forall x :: x in s.onList ==> Prio(Added(s, p, q, depth, newPrio), x) == Prio(s, x)
    ensures forall k :: Weights(Added(s, p, q, depth, newPrio), k) == Weights(s, k)
  {
    AddedTree(s, p, q, depth, newPrio);
    AddedPrio(s, p, q, depth, newPrio);
    AddedWeights(s, p, q, depth, newPrio);
  }

  lemma AddedTree(s: Cpu, p: Se, q: Queue, depth: nat, newPrio: int)
    requires Tree(s) && !IsGroup(s, p) && Fits(s, q, depth) && 0 <= newPrio < MAX_RT_PRIO
    ensures Tree(Added(s, p, q, depth, newPrio))
  {
  }

  lemma AddedPrio(s: Cpu, p: Se, q: Queue, depth: nat, newPrio: int)
    requires Tree(s) && p !in s.onList
    ensures forall x :: x in s.onList ==> Prio(Added(s, p, q, depth, newPrio), x) == Prio(s, x)
  {
  }

  lemma AddedWeights(s: Cpu, p: Se, q: Queue, depth: nat, newPrio: int)
    requires Tree(s) && p !in s.onList
    ensures forall k :: Weights(Added(s, p, q, depth, newPrio), k) == Weights(s, k)
  {
  }

  lemma AddedKeepsInv(s: Cpu, p: Se, q: Queue, depth: nat, newPrio: int)
    requires Inv(s) && !IsGroup(s, p) && p !in s.onList && Fits(s, q, depth) && 0 <= newPrio < MAX_RT_PRIO
    ensures Inv(Added(s, p, q, depth, newPrio))
  {
    hide Tree, QueueOk, Prio, Nr;
    var t := Added(s, p, q, depth, newPrio);
    AddedReads(s, p, q, depth, newPrio);
    AddedForest(s, p, q, depth, newPrio);
    forall k | k in t.rq ensures QueueOk(t, k) {
      assert QueueOk(s, k);
      QueueFrame(s, t, k);
    }
  }

  lemma AddedForest(s: Cpu, p: Se, q: Queue, depth: nat, newPrio: int)
    requires Tree(Added(s, p, q, depth, newPrio))
    ensures Forest(s.parent[p := q], s.level[p := depth])
  {
  }

  lemma AddedKeepsValid(s: Cpu, p: Se, q: Queue, depth: nat, newPrio: int, others: int)
    requires Valid(s, others) && !IsGroup(s, p) && p !in s.onList && Fits(s, q, depth) && 0 <= newPrio < MAX_RT_PRIO
    ensures Valid(Added(s, p, q, depth, newPrio), others)
  {
    var t := Added(s, p, q, depth, newPrio);
    AddedKeepsInv(s, p, q, depth, newPrio);
    hide Inv;
    forall x | x in t.parent ensures Settled(t, x) {
      assert x != p ==> Settled(s, x);
    }
  }

  ghost function WithGroup(s: Cpu, g: Se, q: Queue, depth: nat): Cpu {
    Cpu(s.parent[g := q], s.level[g := depth], s.prio, s.rq[Some(g) := EmptyRtRq()],
        s.onList, s.rtQueued, s.nrRunning)
  }

  lemma WithGroupTree(s: Cpu, g: Se, q: Queue, depth: nat)
    requires Tree(s) && g !in s.parent && Fits(s, q, depth)
    ensures Tree(WithGroup(s, g, q, depth)) && Some(g) !in s.rq
    ensures forall x :: x in s.parent ==> s.parent[x] != Some(g)
  {
  }

  lemma WithGroupReads(s: Cpu, g: Se, q: Queue, depth: nat)
    requires g !in s.parent && s.onList <= s.parent.Keys
    requires forall x :: x in s.parent ==> s.parent[x] != Some(g)
    ensures forall x :: x in s.onList ==> Prio(WithGroup(s, g, q, depth), x) == Prio(s, x)
    ensures forall k :: k != Some(g) ==> Weights(WithGroup(s, g, q, depth), k) == Weights(s, k)
    ensures Weights(WithGroup(s, g, q, depth), Some(g)) == map[]
  {
    var t := WithGroup(s, g, q, depth);
    assert forall x :: x in s.onList ==> Nr(t, x) == Nr(s, x);
  }

  lemma WithGroupKeepsInv(s: Cpu, g: Se, q: Queue, depth: nat)
    requires Inv(s) && g !in s.parent && Fits(s, q, depth)
    ensures Inv(WithGroup(s, g, q, depth))
  {
    var t := WithGroup(s, g, q, depth);
    WithGroupTree(s, g, q, depth);
    WithGroupReads(s, g, q, depth);
    EmptyQueueOk(t, Some(g));
    hide Tree, QueueOk, Prio, Nr, EmptyRtRq;
    forall k | k in t.rq && k != Some(g) ensures QueueOk(t, k) {
      assert QueueOk(s, k);
      QueueFrame(s, t, k);
    }
  }

  lemma EmptyQueueOk(s: Cpu, q: Queue)
    requires q in s.rq && s.rq[q] == EmptyRtRq() && Weights(s, q) == map[]
    ensures QueueOk(s, q)
  {
  }

  lemma AddGroupKeepsValid(s: Cpu, g: Se, q: Queue, depth: nat, others: int)
    requires Valid(s, others) && g !in s.parent && Fits(s, q, depth)
    ensures Valid(WithGroup(s, g, q, depth), others)
  {
    var t := WithGroup(s, g, q, depth);
    WithGroupKeepsInv(s, g, q, depth);
    hide Forest, QueueOk;
    forall x | x in t.parent ensures Settled(t, x) {
      assert x != g ==> Settled(s, x);
    }
  }

  /* p was put on its queue: the step taken, and what became of every FIFO. */
  ghost predicate TaskEnqueued(s: Cpu, t: Cpu, p: Se, head: bool) {
    Inv(s) && p in s.parent && t == EnqueueRtEntity(s, p, head)
    && Effect(s, t, Path(s.parent, s.level, p), p, head, true)
  }

  ghost predicate TaskDequeued(s: Cpu, t: Cpu, p: Se) {
    Inv(s) && p in s.parent && t == DequeueRtEntity(s, p)
    && Effect(s, t, Path(s.parent, s.level, p), p, false, false)
  }

  /* An operation on a task moves no other task on or off its queue. */
  lemma TasksKept(s: Cpu, t: Cpu, p: Se, head: bool, queued: bool)
    requires Inv(s) && p in s.prio && p in s.parent && Effect(s, t, Path(s.parent, s.level, p), p, head, queued)
    ensures t.prio == s.prio && t.parent == s.parent && t.rq.Keys == s.rq.Keys
    ensures forall x :: x in s.prio && x != p ==> (x in t.onList <==> x in s.onList)
  {
    if s.parent[p].Some? {
      assert IsGroup(s, s.parent[p].value);
      ChainOfGroups(s, s.parent[p].value);
    }
  }

  /* p left q's FIFOs and came back at the head or tail of the one for newPrio; the rest of q's
     FIFOs is as it was. */
  ghost predicate Requeued(s: Cpu, t: Cpu, p: Se, q: Queue, newPrio: int, head: bool) {
    && q in s.rq && q in t.rq && 0 <= newPrio < |s.rq[q].fifo|
    && Reseated(s.rq[q].fifo, t.rq[q].fifo, p, Some(newPrio), head)
  }

  predicate IsLast(s: seq<Se>, e: Se) {
    s != [] && s[|s| - 1] == e
  }

  lemma LeavesFifo(s: Cpu, t: Cpu, p: Se)
    requires TaskDequeued(s, t, p)
    ensures s.parent[p] in s.rq && s.parent[p] in t.rq && t.rq[s.parent[p]].fifo == Drop(s.rq[s.parent[p]].fifo, p)
  {
    hide Inv, DequeueRtEntity, OffPath;
    assert Moved(s, t, p, false);
  }

  lemma JoinsFifo(s: Cpu, t: Cpu, p: Se, head: bool)
    requires TaskEnqueued(s, t, p, head) && p in s.prio
    ensures Requeued(s, t, p, s.parent[p], s.prio[p], head)
  {
    hide QueueOk, EnqueueRtEntity, OffPath;
    assert Moved(s, t, p, head);
    TaskPrio(s, p);
  }

  lemma DropTwice(fifo: seq<seq<Se>>, e: Se)
    ensures Drop(Drop(fifo, e), e) == Drop(fifo, e)
  {
    DropFacts(fifo, e);
    DropFacts(Drop(fifo, e), e);
    forall p | 0 <= p < |fifo| ensures Drop(Drop(fifo, e), e)[p] == Drop(fifo, e)[p] {
      assert e !in Drop(fifo, e)[p];
    }
  }

  /* Nothing is queued, and nothing keeps what will be from running. */
  predicate IsNew(r: RtRq) {
    && !r.rtThrottled && r.rtNrRunning == 0 && r.highestPrioCurr == MAX_RT_PRIO
    && forall p :: 0 <= p < |r.fifo| ==> r.fifo[p] == []
  }

  lemma EmptyIsNew()
    ensures IsNew(EmptyRtRq())
  {
  }

  /* A task left its queue, was changed, and joined its queue, which may be another, at the given end. */
  ghost predicate Bracketed(s: Cpu, t: Cpu, p: Se, q: Queue, newPrio: int, head: bool) {
    exists off: Cpu, depth: nat ::
      TaskDequeued(s, off, p) && TaskEnqueued(Added(off, p, q, depth, newPrio), t, p, head)
  }

  class Rq {
    var parent: map<Se, Queue>   // rt_se->parent and rt_se->rt_rq
    var prio: map<Se, int>
    var rq: map<Queue, RtRq>
    var onList: set<Se>
    var rtQueued: bool
    var nrRunning: int
    var back: map<Se, Option<Se>>
    ghost var level: map<Se, nat>
    ghost const others: nat      // what the other scheduling classes add to nrRunning

    ghost function S(): Cpu
      reads this
    {
      Cpu(parent, level, prio, rq, onList, rtQueued, nrRunning)
    }

    ghost predicate Ok()
      reads this
    {
      Valid(S(), others)
    }

    /* No groups and no RT tasks yet. */
    constructor (others: nat)
      ensures Ok() && this.others == others && rq.Keys == {None} && IsNew(rq[None])
      ensures parent == map[] && prio == map[] && !rtQueued && nrRunning == others
    {
      parent, prio, onList, back, level := map[], map[], {}, map[], map[];
      rq := map[None := EmptyRtRq()];
      rtQueued, nrRunning := false, others;
      this.others := others;
      new;
      assert Weights(S(), None) == map[];
      SumMapEmpty<Se>();
    }

    // ----- one entity

    /* __enqueue_rt_entity. */
    method EnqueueOne(e: Se, head: bool)
      requires Ready(S(), e) && e !in onList
      modifies this`rq, this`onList
      ensures S() == RtGroup.EnqueueOne(old(S()), e, head)
    {
      if Some(e) in rq && (rq[Some(e)].rtThrottled || rq[Some(e)].rtNrRunning == 0) { return; }
      CanInsert(S(), e);
      var q := parent[e];
      var p := RtSePrio(e);
      var r := rq[q];
      r := r.(fifo := Put(r.fifo, p, e, head));
      r := r.(bitmap := r.bitmap[p := true]);
      r := r.(rtNrRunning := r.rtNrRunning + RtSeNrRunning(e));
      if p < r.highestPrioCurr { r := r.(highestPrioCurr := p); }
      rq := rq[q := r];
      onList := onList + {e};
    }

    /* __dequeue_rt_entity. */
    method DequeueOne(e: Se)
      requires Ready(S(), e) && e in onList
      modifies this`rq, this`onList
      ensures S() == RtGroup.DequeueOne(old(S()), e)
    {
      CanDelete(S(), e);
      var q := parent[e];
      var p := RtSePrio(e);
      var r := rq[q];
      r := r.(fifo := Drop(r.fifo, e));
      if r.fifo[p] == [] { r := r.(bitmap := r.bitmap[p := false]); }
      r := r.(rtNrRunning := r.rtNrRunning - RtSeNrRunning(e));
      if r.rtNrRunning != 0 {
        assert r.bitmap[MAX_RT_PRIO];
        if p == r.highestPrioCurr { r := r.(highestPrioCurr := FindFirstBit(r.bitmap, 0)); }
      } else {
        r := r.(highestPrioCurr := MAX_RT_PRIO);
      }
      rq := rq[q := r];
      onList := onList - {e};
    }

    function RtSePrio(e: Se): (p: int)
      requires Some(e) in rq || e in prio
      reads this
      ensures p == Prio(S(), e)
    {
      if Some(e) in rq then rq[Some(e)].highestPrioCurr else prio[e]
    }

    function RtSeNrRunning(e: Se): (n: int)
      reads this
      ensures n == Nr(S(), e)
    {
      if Some(e) in rq then rq[Some(e)].rtNrRunning else 1
    }

    // ----- the top queue

    method DequeueTopRtRq()
      requires None in rq
      modifies this`nrRunning, this`rtQueued
      ensures S() == DequeueTop(old(S()))
    {
      if !rtQueued { return; }
      nrRunning := nrRunning - rq[None].rtNrRunning;
      rtQueued := false;
    }

    method EnqueueTopRtRq()
      requires None in rq
      modifies this`nrRunning, this`rtQueued
      ensures S() == EnqueueTop(old(S()))
    {
      if rtQueued { return; }
      if rq[None].rtThrottled || rq[None].rtNrRunning == 0 { return; }
      nrRunning := nrRunning + rq[None].rtNrRunning;
      rtQueued := true;
    }

    // ----- whole chains

    /* Back pointers lead from every member of the chain down to e. */
    ghost predicate Trail(e: Se, done: set<Se>)
      reads this`parent, this`back
    {
      forall y :: y in done ==>
        (&& y in back && y in parent
         && if y == e then back[y] == None
            else back[y].Some? && back[y].value in done && back[y].value in parent && parent[back[y].value] == Some(y))
    }

    /* The walk up that leaves the back pointers. */
    method LinkBack(e: Se) returns (top: Se)
      requires Forest(parent, level) && e in parent
      modifies this`back
      ensures top in Path(parent, level, e) && parent[top] == None
      ensures Trail(e, Path(parent, level, e))
    {
      var b: Option<Se> := None;
      var se: Option<Se> := Some(e);
      ghost var done: set<Se> := {};
      PathLevels(parent, level, e);
      while se.Some?
        invariant se.Some? ==> se.value in parent && done + Path(parent, level, se.value) == Path(parent, level, e)
        invariant se.Some? ==> forall y :: y in done ==> y in level && level[y] > level[se.value]
        invariant se == None ==> done == Path(parent, level, e)
        invariant if b == None then done == {} && se == Some(e)
                  else b.value in done && b.value in parent && parent[b.value] == se
        invariant Trail(e, done)
        decreases if se.Some? then level[se.value] + 1 else 0
      {
        PathLevels(parent, level, se.value);
        back := back[se.value := b];
        b := se;
        done := done + {se.value};
        se := parent[se.value];
      }
      top := b.value;
    }

    /* The walk down the back pointers. */
    method WalkDown(e: Se, top: Se)
      requires Inv(S()) && e in parent
      requires top in Path(parent, level, e) && parent[top] == None && Trail(e, Path(parent, level, e))
      modifies this`rq, this`onList
      ensures S() == DequeueStack(old(S()), e)
    {
      ghost var d, path := S(), Path(parent, level, e);
      PathLevels(parent, level, e);
      hide Tree, QueueOk, Path, DequeueStack, RtGroup.DequeueOne;
      var se: Option<Se> := Some(top);
      while se.Some?
        invariant se.Some? ==> se.value in path && S() == Above(d, se.value)
        invariant se == None ==> S() == DequeueStack(d, e)
        decreases if se.Some? then 1 + level[e] - level[se.value] else 0
      {
        ghost var x := se.value;
        AboveStep(d, x);
        if se.value in onList { DequeueOne(se.value); }
        se := back[se.value];
      }
    }

    /* dequeue_rt_stack. */
    method DequeueChain(e: Se)
      requires Inv(S()) && e in parent
      modifies this`rq, this`onList, this`nrRunning, this`rtQueued, this`back
      ensures S() == DequeueRtStack(old(S()), e)
    {
      var top := LinkBack(e);
      DequeueTopRtRq();
      TopKeepsInv(old(S()), rtQueued, nrRunning);
      WalkDown(e, top);
    }

    /* enqueue_rt_entity. */
    method EnqueueEntity(e: Se, head: bool)
      requires Inv(S()) && e in parent
      modifies this`rq, this`onList, this`nrRunning, this`rtQueued, this`back
      ensures S() == EnqueueRtEntity(old(S()), e, head)
    {
      DequeueChain(e);
      ghost var a := S();
      hide Tree, QueueOk, Path, RtGroup.EnqueueOne, DequeueRtStack;
      var se: Option<Se> := Some(e);
      while se.Some?
        invariant se.Some? ==> Inv(S()) && se.value in parent && Path(parent, level, se.value) !! onList
        invariant EnqueueStack(a, e, head) == if se.Some? then EnqueueStack(S(), se.value, head) else S()
        decreases if se.Some? then level[se.value] + 1 else 0
      {
        EnqueueStackStep(S(), se.value, head);
        EnqueueOne(se.value, head);
        se := parent[se.value];
      }
      EnqueueTopRtRq();
    }

    /* dequeue_rt_entity. */
    method DequeueEntity(e: Se)
      requires Inv(S()) && e in parent
      modifies this`rq, this`onList, this`nrRunning, this`rtQueued, this`back
      ensures S() == DequeueRtEntity(old(S()), e)
    {
      DequeueChain(e);
      ghost var a := S();
      hide Tree, QueueOk, Path, RtGroup.EnqueueOne, DequeueRtStack;
      var se: Option<Se> := Some(e);
      while se.Some?
        invariant se.Some? ==> Inv(S()) && se.value in parent && Path(parent, level, se.value) !! onList
        invariant RequeueStack(a, e) == if se.Some? then RequeueStack(S(), se.value) else S()
        decreases if se.Some? then level[se.value] + 1 else 0
      {
        EnqueueStackStep(S(), se.value, false);
        RequeueStackStep(S(), se.value);
        if Some(se.value) in rq && rq[Some(se.value)].rtNrRunning != 0 {
          EnqueueOne(se.value, false);
        }
        se := parent[se.value];
      }
      EnqueueTopRtRq();
    }

    // ----- the class's operations

    /* enqueue_task_rt and dequeue_task_rt: no other task changes its standing. */
    method EnqueueTask(p: Se, head: bool)
      requires Ok() && p in prio
      modifies this`rq, this`onList, this`nrRunning, this`rtQueued, this`back
      ensures Ok() && p in onList
      ensures TaskEnqueued(old(S()), S(), p, head)
      ensures rq.Keys == old(rq).Keys && forall x :: x in prio && x != p ==> (x in onList <==> x in old(onList))
    {
      EnqueueEffect(S(), p, head, others);
      EnqueueEntity(p, head);
      TasksKept(old(S()), S(), p, head, true);
    }

    method DequeueTask(p: Se)
      requires Ok() && p in prio
      modifies this`rq, this`onList, this`nrRunning, this`rtQueued, this`back
      ensures Ok() && p !in onList
      ensures TaskDequeued(old(S()), S(), p)
      ensures rq.Keys == old(rq).Keys && forall x :: x in prio && x != p ==> (x in onList <==> x in old(onList))
    {
      DequeueEffect(S(), p, others);
      DequeueEntity(p);
      TasksKept(old(S()), S(), p, false, false);
    }

    /* sched_rt_runtime_exceeded, once the queue is over its limit, and sched_rt_rq_dequeue. */
    method ThrottleQueue(q: Queue)
      requires Ok() && q in rq
      modifies this`rq, this`onList, this`nrRunning, this`rtQueued, this`back
      ensures Ok() && S() == Throttle(old(S()), q)
      ensures q.Some? ==> q.value in old(parent) && Switched(old(S()), S(), q.value, true)
      ensures q == None ==> TopSwitched(old(S()), S(), true, others)
    {
      hide Tree, QueueOk, Settled, Switched, TopSwitched, DequeueRtEntity;
      ThrottleKeepsValid(S(), q, others);
      FlagKeepsInv(S(), q, true);
      rq := rq[q := rq[q].(rtThrottled := true)];
      match q
      case None => DequeueTopRtRq();
      case Some(g) => if g in onList { DequeueEntity(g); }
    }

    /* The period timer's release and sched_rt_rq_enqueue. */
    method UnthrottleQueue(q: Queue)
      requires Ok() && q in rq
      modifies this`rq, this`onList, this`nrRunning, this`rtQueued, this`back
      ensures Ok() && S() == Unthrottle(old(S()), q)
      ensures q.Some? ==> q.value in old(parent) && Switched(old(S()), S(), q.value, false)
      ensures q == None ==> TopSwitched(old(S()), S(), false, others)
    {
      hide Tree, QueueOk, Settled, Switched, TopSwitched, EnqueueRtEntity;
      UnthrottleKeepsValid(S(), q, others);
      FlagKeepsInv(S(), q, false);
      rq := rq[q := rq[q].(rtThrottled := false)];
      if rq[q].rtNrRunning != 0 {
        match q
        case None => EnqueueTopRtRq();
        case Some(g) => if g !in onList { OwnerExists(old(S()), g); EnqueueEntity(g, false); }
      }
    }

    /* _pick_next_task_rt: neither BUG_ON fires, and no eligible task beats the one returned. */
    method PickNextTask() returns (t: Se)
      requires Ok() && rtQueued
      ensures Eligible(S(), t) && forall u :: Eligible(S(), u) ==> prio[t] <= prio[u]
      ensures forall x :: x in Path(parent, level, t) ==> First(S(), x)
    {
      PickIsBest(S(), others);
      PickIsFirst(S(), others, None);
      var q: Queue := None;
      t := 0;
      while true
        invariant q in rq && rq[q].rtNrRunning != 0
        invariant Pick(S(), others, q) == Pick(S(), others, None)
        decreases Deeper(S(), q)
      {
        PickStep(S(), others, q);
        var idx := FindFirstBit(rq[q].bitmap, 0);
        assert idx < MAX_RT_PRIO;
        t := rq[q].fifo[idx][0];
        if Some(t) !in rq { return; }
        q := Some(t);
      }
    }

    // ----- changing a task or the tree

    /* The two ends of the bracket around a change to a task: off the queue if it was on it, and
       back on again. */
    method BeginChange(p: Se) returns (queued: bool)
      requires Ok() && p in prio
      modifies this`rq, this`onList, this`nrRunning, this`rtQueued, this`back
      ensures Ok() && p !in onList && queued == (p in old(onList)) && rq.Keys == old(rq).Keys
      ensures if queued then TaskDequeued(old(S()), S(), p) else S() == old(S())
      ensures forall x :: x in prio && x != p ==> (x in onList <==> x in old(onList))
    {
      queued := p in onList;
      if queued { DequeueTask(p); }
    }

    method EndChange(p: Se, queued: bool, head: bool)
      requires Ok() && p in prio && p !in onList
      modifies this`rq, this`onList, this`nrRunning, this`rtQueued, this`back
      ensures Ok() && queued == (p in onList) && rq.Keys == old(rq).Keys
      ensures if queued then TaskEnqueued(old(S()), S(), p, head) else S() == old(S())
      ensures forall x :: x in prio && x != p ==> (x in onList <==> x in old(onList))
    {
      if queued { EnqueueTask(p, head); }
    }

    /* The change inside the bracket. */
    method Retune(p: Se, q: Queue, newPrio: int)
      requires Ok() && p in prio && p !in onList && q in rq && 0 <= newPrio < MAX_RT_PRIO
      modifies this`parent, this`level, this`prio
      ensures Ok() && prio == old(prio)[p := newPrio] && parent == old(parent)[p := q]
      ensures exists depth: nat :: S() == Added(old(S()), p, q, depth, newPrio)
    {
      ghost var depth := Depth(S(), q);
      RetuneKeepsValid(S(), p, q, depth, newPrio, others);
      parent := parent[p := q];
      level := level[p := depth];
      prio := prio[p := newPrio];
      assert S() == Added(old(S()), p, q, depth, newPrio);
    }

    /* __sched_setscheduler within the class, where the policy may change between SCHED_FIFO and
       SCHED_RR. With policy and priority as they are nothing happens; otherwise a queued task goes to
       the head of its new FIFO unless it became more important, and then to the tail. */
    method SetPriority(p: Se, newPrio: int, samePolicy: bool)
      requires Ok() && p in prio && 0 <= newPrio < MAX_RT_PRIO
      modifies this`rq, this`onList, this`nrRunning, this`rtQueued, this`back, this`prio, this`parent, this`level
      ensures Ok() && prio == old(prio)[p := newPrio] && parent == old(parent)
      ensures forall t :: t in prio ==> (t in onList <==> t in old(onList))
      ensures if p in old(onList) && !(samePolicy && newPrio == old(prio)[p])
              then Requeued(old(S()), S(), p, parent[p], newPrio, old(prio)[p] <= newPrio)
              else rq == old(rq)
      ensures samePolicy && newPrio == old(prio)[p] ==> S() == old(S())
      ensures p in old(onList) && !(samePolicy && newPrio == old(prio)[p]) ==>
        Bracketed(old(S()), S(), p, parent[p], newPrio, old(prio)[p] <= newPrio)
    {
      hide Inv, TaskDequeued, TaskEnqueued, Effect, Drop;
      if samePolicy && newPrio == prio[p] {
        assert prio == prio[p := newPrio];
        return;
      }
      InPlace(S(), p);
      var q, oldPrio := parent[p], prio[p];
      assert q in rq.Keys;
      var queued := BeginChange(p);
      if queued { LeavesFifo(old(S()), S(), p); }
      assert q in rq.Keys;
      Retune(p, q, newPrio);
      ghost var retuned := S();
      EndChange(p, queued, oldPrio <= newPrio);
      if queued {
        JoinsFifo(retuned, S(), p, oldPrio <= newPrio);
        DropTwice(old(rq)[q].fifo, p);
      }
    }

    /* sched_move_task: a queued task goes to the tail in its new group. */
    method MoveTask(p: Se, q: Queue)
      requires Ok() && p in prio && q in rq
      modifies this`rq, this`onList, this`nrRunning, this`rtQueued, this`back, this`prio, this`parent, this`level
      ensures Ok() && parent == old(parent)[p := q] && prio == old(prio) && rq.Keys == old(rq).Keys
      ensures forall t :: t in prio ==> (t in onList <==> t in old(onList))
      ensures if p in old(onList) then 0 <= prio[p] < |rq[q].fifo| && IsLast(rq[q].fifo[prio[p]], p) else rq == old(rq)
      ensures p in old(onList) ==> Bracketed(old(S()), S(), p, q, prio[p], false)
    {
      hide Inv, TaskDequeued, TaskEnqueued, Effect, Drop;
      TaskPrio(S(), p);
      assert q in rq.Keys;
      var queued := BeginChange(p);
      assert q in rq.Keys;
      Retune(p, q, prio[p]);
      ghost var retuned := S();
      EndChange(p, queued, false);
      if queued { JoinsFifo(retuned, S(), p, false); }
    }

    /* init_tg_rt_entry for a new group under q. */
    method AddGroup(g: Se, q: Queue)
      requires Ok() && g !in parent && q in rq
      modifies this`rq, this`parent, this`level
      ensures Ok() && parent == old(parent)[g := q]
      ensures Some(g) in rq && IsNew(rq[Some(g)]) && rq == old(rq)[Some(g) := rq[Some(g)]]
    {
      hide Tree, QueueOk, Settled, EmptyRtRq, IsNew;
      EmptyIsNew();
      ghost var depth := Depth(S(), q);
      AddGroupKeepsValid(S(), g, q, depth, others);
      parent := parent[g := q];
      rq := rq[Some(g) := EmptyRtRq()];
      level := level[g := depth];
    }

    /* A new task of the class, not queued yet. */
    method AddTask(p: Se, q: Queue, taskPrio: int)
      requires Ok() && p !in parent && q in rq && 0 <= taskPrio < MAX_RT_PRIO
      modifies this`prio, this`parent, this`level
      ensures Ok() && parent == old(parent)[p := q] && prio == old(prio)[p := taskPrio]
    {
      ghost var depth := Depth(S(), q);
      AddTaskKeepsValid(S(), p, q, depth, taskPrio, others);
      parent := parent[p := q];
      prio := prio[p := taskPrio];
      level := level[p := depth];
    }
  }
}
