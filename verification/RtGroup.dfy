/**
 The real-time class with group scheduling, on one CPU: a tree of priority queues.
 A group owns a queue and is itself an entity on its parent's queue, at the priority of its
 best runnable member. This module gives the state, the invariant and each step as a function;
 the methods that run the steps on a CPU's fields are in RtGroupRq.
 */
module RtGroup {
  import opened Util

  const MAX_RT_PRIO: nat := 100

  type Se = nat             // a scheduling entity: a task or a group
  type Queue = Option<Se>   // None: the CPU's top queue; Some(g): the queue that group g owns

  /* struct rt_rq. The bitmap has one more bit than there are FIFOs: the delimiter. */
  datatype RtRq = RtRq(fifo: seq<seq<Se>>, bitmap: seq<bool>, rtNrRunning: int,
                       highestPrioCurr: int, rtThrottled: bool)

  /* The RT part of one CPU's runqueue, with all its group queues. */
  datatype Cpu = Cpu(
    parent: map<Se, Queue>,   // the queue an entity lives on
    level: map<Se, nat>,      // its distance from the top
    prio: map<Se, int>,       // the priority of a task; its keys are the tasks
    rq: map<Queue, RtRq>,     // its keys are None and Some(g) for each group g
    onList: set<Se>,          // entities whose run_list is linked
    rtQueued: bool,           // the top queue counts towards nrRunning
    nrRunning: int)

  /* init_rt_rq. */
  function EmptyRtRq(): RtRq {
    RtRq(seq(MAX_RT_PRIO, _ => []), seq(MAX_RT_PRIO, _ => false) + [true], 0, MAX_RT_PRIO, false)
  }

  // ----- what the code reads off the state

  predicate IsGroup(s: Cpu, e: Se) {
    Some(e) in s.rq
  }

  /* rt_se_prio: a group stands at the priority of its best member. */
  function Prio(s: Cpu, e: Se): int {
    if IsGroup(s, e) then s.rq[Some(e)].highestPrioCurr
    else if e in s.prio then s.prio[e] else MAX_RT_PRIO
  }

  /* rt_se_nr_running: a group counts for all the tasks queued below it. */
  function Nr(s: Cpu, e: Se): int {
    if IsGroup(s, e) then s.rq[Some(e)].rtNrRunning else 1
  }

  /* Neither throttled nor empty: what a group needs to be queued on its parent. */
  predicate Runnable(q: RtRq) {
    !q.rtThrottled && q.rtNrRunning > 0
  }

  // ----- the invariant

  /* Following parents descends the levels, so it ends. */
  ghost predicate Forest(parent: map<Se, Queue>, level: map<Se, nat>) {
    && level.Keys == parent.Keys
    && (forall e {:trigger parent[e]} :: e in parent && parent[e].Some? ==>
          parent[e].value in level && level[e] == level[parent[e].value] + 1)
  }

  /* Groups are the entities that own a queue, tasks those that have a priority. */
  ghost predicate Tree(s: Cpu) {
    && None in s.rq && Forest(s.parent, s.level)
    && (forall e {:trigger IsGroup(s, e)} {:trigger e in s.prio} :: e in s.parent ==> (IsGroup(s, e) <==> e !in s.prio))
    && (forall g {:trigger Some(g) in s.rq} :: Some(g) in s.rq ==> g in s.parent)
    && (forall e {:trigger s.prio[e]} :: e in s.prio ==> e in s.parent && 0 <= s.prio[e] < MAX_RT_PRIO)
    && (forall e {:trigger s.parent[e]} :: e in s.parent ==> s.parent[e] in s.rq)
    && s.onList <= s.parent.Keys
  }

  /* What each entity queued on q adds to q's count. */
  ghost function Weights(s: Cpu, q: Queue): map<Se, int> {
    map e | e in s.onList && e in s.parent && s.parent[e] == q :: Nr(s, e)
  }

  /* The bitmap and the cached best priority describe the FIFOs. */
  ghost predicate ArrayOk(r: RtRq) {
    && |r.fifo| == MAX_RT_PRIO && |r.bitmap| == MAX_RT_PRIO + 1 && r.bitmap[MAX_RT_PRIO]
    && (forall p :: 0 <= p < MAX_RT_PRIO ==> (r.bitmap[p] <==> r.fifo[p] != []))
    && (forall p :: 0 <= p < MAX_RT_PRIO ==> Distinct(r.fifo[p]))
    && 0 <= r.highestPrioCurr <= MAX_RT_PRIO && r.bitmap[r.highestPrioCurr]
    && (forall p :: 0 <= p < r.highestPrioCurr ==> !r.bitmap[p])
  }

  /* The FIFOs hold exactly the weighted entities, each at its current priority. */
  ghost predicate Holds(s: Cpu, r: RtRq, w: map<Se, int>) {
    && |r.fifo| == MAX_RT_PRIO
    && (forall p, e {:trigger e in r.fifo[p]} :: 0 <= p < MAX_RT_PRIO && e in r.fifo[p] ==> e in w && Prio(s, e) == p)
    && (forall e {:trigger e in w} :: e in w ==> 0 <= Prio(s, e) < MAX_RT_PRIO && e in r.fifo[Prio(s, e)])
    && (forall e {:trigger w[e]} :: e in w ==> w[e] >= 1)
    && r.rtNrRunning == SumMap(w)
  }

  ghost predicate QueueOk(s: Cpu, q: Queue)
    requires q in s.rq
  {
    ArrayOk(s.rq[q]) && Holds(s, s.rq[q], Weights(s, q))
  }

  /* What holds between any two steps of an operation. */
  ghost predicate Inv(s: Cpu) {
    && None in s.rq && Forest(s.parent, s.level) && Tree(s)
    && (forall q {:trigger QueueOk(s, q)} :: q in s.rq ==> QueueOk(s, q))
  }

  /* A group is queued exactly while it is unthrottled and not empty. */
  ghost predicate Settled(s: Cpu, e: Se) {
    IsGroup(s, e) ==> (e in s.onList <==> Runnable(s.rq[Some(e)]))
  }

  /* What holds between operations; `others` is what the other classes add to nrRunning. */
  ghost predicate Valid(s: Cpu, others: int) {
    && Inv(s)
    && (forall e :: e in s.parent ==> Settled(s, e))
    && (s.rtQueued <==> Runnable(s.rq[None]))
    && TopCounted(s, others)
  }

  ghost predicate TopCounted(s: Cpu, others: int)
    requires None in s.rq
  {
    s.nrRunning == others + if s.rtQueued then s.rq[None].rtNrRunning else 0
  }

  // ----- steps on one queue

  /* The least set bit at or after `from`. */
  function FindFirstBit(bitmap: seq<bool>, from: nat): (bit: nat)
    requires exists k :: from <= k < |bitmap| && bitmap[k]
    ensures from <= bit < |bitmap| && bitmap[bit]
    ensures forall k :: from <= k < bit ==> !bitmap[k]
    decreases |bitmap| - from
  {
    if bitmap[from] then from else FindFirstBit(bitmap, from + 1)
  }

  /* list_add (head) or list_add_tail of e at priority p. */
  function Put(fifo: seq<seq<Se>>, p: int, e: Se, head: bool): seq<seq<Se>>
    requires 0 <= p < |fifo|
  {
    fifo[p := if head then [e] + fifo[p] else fifo[p] + [e]]
  }

  /* list_del_init of e: wherever it is linked. */
  function Drop(fifo: seq<seq<Se>>, e: Se): (rest: seq<seq<Se>>)
    ensures |rest| == |fifo| && forall p :: 0 <= p < |fifo| ==> rest[p] == Without(fifo[p], e)
  {
    seq(|fifo|, p requires 0 <= p < |fifo| => Without(fifo[p], e))
  }

  /* The list, bitmap, count and best-priority updates of __enqueue_rt_entity and inc_rt_tasks. */
  function Insert(r: RtRq, e: Se, p: int, n: int, head: bool): RtRq
    requires ArrayOk(r) && 0 <= p < MAX_RT_PRIO
  {
    r.(fifo := Put(r.fifo, p, e, head),
       bitmap := r.bitmap[p := true],
       rtNrRunning := r.rtNrRunning + n,
       highestPrioCurr := if p < r.highestPrioCurr then p else r.highestPrioCurr)
  }

  /* The same of __dequeue_rt_entity and dec_rt_tasks. */
  function Delete(r: RtRq, e: Se, p: int, n: int): RtRq
    requires ArrayOk(r) && 0 <= p < MAX_RT_PRIO
  {
    var fifo := Drop(r.fifo, e);
    var bitmap := if fifo[p] == [] then r.bitmap[p := false] else r.bitmap;
    var nr := r.rtNrRunning - n;
    assert bitmap[MAX_RT_PRIO];
    r.(fifo := fifo, bitmap := bitmap, rtNrRunning := nr,
       highestPrioCurr :=
         if nr == 0 then MAX_RT_PRIO
         else if p == r.highestPrioCurr then FindFirstBit(bitmap, 0)
         else r.highestPrioCurr)
  }

  lemma InsertHolds(s: Cpu, r: RtRq, w: map<Se, int>, e: Se, head: bool)
    requires ArrayOk(r) && Holds(s, r, w)
    requires e !in w && 0 <= Prio(s, e) < MAX_RT_PRIO && Nr(s, e) >= 1
    ensures ArrayOk(Insert(r, e, Prio(s, e), Nr(s, e), head))
    ensures Holds(s, Insert(r, e, Prio(s, e), Nr(s, e), head), w[e := Nr(s, e)])
  {
    hide Prio, Nr, SumMap, ArrayOk;
    var w', p := w[e := Nr(s, e)], Prio(s, e);
    assert e !in r.fifo[p];
    InsertArrayOk(r, e, p, Nr(s, e), head);
    SumMapRemove(w', e);
    assert w' - {e} == w;
  }

  lemma InsertArrayOk(r: RtRq, e: Se, p: int, n: int, head: bool)
    requires ArrayOk(r) && 0 <= p < MAX_RT_PRIO && e !in r.fifo[p]
    ensures ArrayOk(Insert(r, e, p, n, head))
  {
  }

  lemma DropFacts(fifo: seq<seq<Se>>, e: Se)
    ensures forall p, x {:trigger x in Drop(fifo, e)[p]} ::
      0 <= p < |fifo| && x in Drop(fifo, e)[p] ==> x in fifo[p] && x != e
    ensures forall p, x {:trigger x in Drop(fifo, e)[p]} ::
      0 <= p < |fifo| && x in fifo[p] && x != e ==> x in Drop(fifo, e)[p]
    ensures forall p :: 0 <= p < |fifo| && Distinct(fifo[p]) ==> Distinct(Drop(fifo, e)[p])
    ensures forall p :: 0 <= p < |fifo| && e !in fifo[p] ==> Drop(fifo, e)[p] == fifo[p]
  {
    forall p | 0 <= p < |fifo|
      ensures forall x :: x in Drop(fifo, e)[p] ==> x in fifo[p] && x != e
      ensures forall x :: x in fifo[p] && x != e ==> x in Drop(fifo, e)[p]
      ensures Distinct(fifo[p]) ==> Distinct(Drop(fifo, e)[p])
      ensures e !in fifo[p] ==> Drop(fifo, e)[p] == fifo[p]
    {
      WithoutMembers(fifo[p], e);
    }
  }

  /* A count of zero means empty FIFOs. */
  lemma CountedOut(fifo: seq<seq<Se>>, w: map<Se, int>)
    requires forall p, x {:trigger x in fifo[p]} :: 0 <= p < |fifo| && x in fifo[p] ==> x in w
    requires forall x :: x in w ==> w[x] >= 1
    ensures forall p :: 0 <= p < |fifo| && fifo[p] != [] ==> SumMap(w) > 0
  {
    SumMapPositive(w);
    forall p | 0 <= p < |fifo| && fifo[p] != [] ensures SumMap(w) > 0 {
      assert fifo[p][0] in fifo[p];
    }
  }

  lemma DeleteHolds(s: Cpu, r: RtRq, w: map<Se, int>, e: Se)
    requires ArrayOk(r) && Holds(s, r, w) && e in w && w[e] == Nr(s, e)
    ensures Holds(s, Delete(r, e, Prio(s, e), Nr(s, e)), w - {e})
  {
    hide Prio, Nr, Drop, SumMap;
    var d, w' := Delete(r, e, Prio(s, e), Nr(s, e)), w - {e};
    DropFacts(r.fifo, e);
    SumMapRemove(w, e);
    forall p, x | 0 <= p < MAX_RT_PRIO && x in d.fifo[p] ensures x in w' && Prio(s, x) == p {
      assert x in r.fifo[p];
    }
    forall x | x in w' ensures x in d.fifo[Prio(s, x)] {
      assert x in r.fifo[Prio(s, x)];
    }
  }

  lemma DeleteArrayOk(s: Cpu, r: RtRq, w: map<Se, int>, e: Se)
    requires ArrayOk(r) && Holds(s, r, w) && e in w && w[e] == Nr(s, e)
    ensures ArrayOk(Delete(r, e, Prio(s, e), Nr(s, e)))
  {
    hide Prio, Nr, Drop, SumMap;
    DropFacts(r.fifo, e);
    DeleteHolds(s, r, w, e);
    CountedOut(Drop(r.fifo, e), w - {e});
    assert r.highestPrioCurr <= Prio(s, e);
  }

  // ----- one entity joins or leaves the queue it lives on

  /* The group above e is off its queue: e's position below decides that group's position. */
  ghost predicate Loose(s: Cpu, e: Se)
    requires e in s.parent
  {
    s.parent[e].Some? ==> s.parent[e].value !in s.onList
  }

  ghost predicate Ready(s: Cpu, e: Se) {
    Inv(s) && e in s.parent && Loose(s, e)
  }

  /* __enqueue_rt_entity: a throttled or empty group stays off. */
  function EnqueueOne(s: Cpu, e: Se, head: bool): Cpu
    requires Ready(s, e) && e !in s.onList
  {
    if IsGroup(s, e) && (s.rq[Some(e)].rtThrottled || s.rq[Some(e)].rtNrRunning == 0) then s
    else
      CanInsert(s, e);
      var q := s.parent[e];
      s.(rq := s.rq[q := Insert(s.rq[q], e, Prio(s, e), Nr(s, e), head)], onList := s.onList + {e})
  }

  /* __dequeue_rt_entity. */
  function DequeueOne(s: Cpu, e: Se): Cpu
    requires Ready(s, e) && e in s.onList
  {
    CanDelete(s, e);
    var q := s.parent[e];
    s.(rq := s.rq[q := Delete(s.rq[q], e, Prio(s, e), Nr(s, e))], onList := s.onList - {e})
  }

  lemma NrBounds(s: Cpu, q: Queue)
    requires Inv(s) && q in s.rq
    ensures s.rq[q].rtNrRunning >= 0
    ensures s.rq[q].rtNrRunning == 0 <==> Weights(s, q) == map[]
    ensures s.rq[q].rtNrRunning == 0 <==> s.rq[q].highestPrioCurr == MAX_RT_PRIO
  {
    hide SumMap, Nr;
    var r, w := s.rq[q], Weights(s, q);
    assert QueueOk(s, q);
    SumMapPositive(w);
    assert w == map[] ==> SumMap(w) == 0 by { SumMapEmpty<Se>(); }
    if w != map[] {
      var e :| e in w;
      assert r.fifo[Prio(s, e)] != [];
    }
    if r.highestPrioCurr < MAX_RT_PRIO {
      assert r.fifo[r.highestPrioCurr][0] in r.fifo[r.highestPrioCurr];
    }
  }

  lemma CanInsert(s: Cpu, e: Se)
    requires Inv(s) && e in s.parent
    requires IsGroup(s, e) ==> s.rq[Some(e)].rtNrRunning != 0
    ensures s.parent[e] in s.rq && ArrayOk(s.rq[s.parent[e]])
    ensures 0 <= Prio(s, e) < MAX_RT_PRIO && Nr(s, e) >= 1
  {
    assert QueueOk(s, s.parent[e]);
    if IsGroup(s, e) {
      assert QueueOk(s, Some(e));
      NrBounds(s, Some(e));
    }
  }

  lemma CanDelete(s: Cpu, e: Se)
    requires Inv(s) && e in s.onList
    ensures e in s.parent && s.parent[e] in s.rq && ArrayOk(s.rq[s.parent[e]])
    ensures e in Weights(s, s.parent[e])
    ensures 0 <= Prio(s, e) < MAX_RT_PRIO && Nr(s, e) >= 1
  {
    assert QueueOk(s, s.parent[e]);
    assert e in Weights(s, s.parent[e]);
  }

  /* A step on the queue q of entity e leaves all other queues in order, provided the group that
     owns q is off the list, because nothing queued depends on q then. */
  lemma StepKeepsInv(s: Cpu, e: Se, r: RtRq, onList: set<Se>)
    requires Ready(s, e)
    requires onList == s.onList + {e} || onList == s.onList - {e}
    requires ArrayOk(r)
    requires var w := Weights(s, s.parent[e]);
      Holds(s, r, if e in onList then w[e := Nr(s, e)] else w - {e})
    ensures Inv(s.(rq := s.rq[s.parent[e] := r], onList := onList))
  {
    hide Holds, ArrayOk, Weights, Prio, Nr;
    var q := s.parent[e];
    var t := s.(rq := s.rq[q := r], onList := onList);
    StepKeepsTree(s, e, r, onList);
    forall k | k in t.rq ensures QueueOk(t, k) {
      assert QueueOk(s, k);
      StepReads(s, e, r, onList, k);
      HoldsFrame(s, t, t.rq[k], Weights(t, k));
    }
  }

  lemma HoldsFrame(s: Cpu, t: Cpu, r: RtRq, w: map<Se, int>)
    requires Holds(s, r, w) && forall x :: x in w ==> Prio(t, x) == Prio(s, x)
    ensures Holds(t, r, w)
  {
  }

  /* A queue stays in order while its arrays and what its members read stay the same. */
  lemma QueueFrame(s: Cpu, t: Cpu, q: Queue)
    requires q in s.rq && q in t.rq && QueueOk(s, q)
    requires t.rq[q] == s.rq[q].(rtThrottled := t.rq[q].rtThrottled)
    requires Weights(t, q) == Weights(s, q)
    requires forall x :: x in Weights(s, q) ==> Prio(t, x) == Prio(s, x)
    ensures QueueOk(t, q)
  {
  }

  lemma StepKeepsTree(s: Cpu, e: Se, r: RtRq, onList: set<Se>)
    requires Tree(s) && e in s.parent && onList <= s.onList + {e}
    ensures Tree(s.(rq := s.rq[s.parent[e] := r], onList := onList))
  {
  }

  /* After the step, what is queued on k still reads the same priority and weight. */
  lemma StepReads(s: Cpu, e: Se, r: RtRq, onList: set<Se>, k: Queue)
    requires Tree(s) && e in s.parent && Loose(s, e)
    requires onList == s.onList + {e} || onList == s.onList - {e}
    ensures var t := s.(rq := s.rq[s.parent[e] := r], onList := onList);
      && (forall x :: x in Weights(t, k) ==> Prio(t, x) == Prio(s, x))
      && Weights(t, k) == (if k != s.parent[e] then Weights(s, k)
                           else if e in onList then Weights(s, k)[e := Nr(s, e)] else Weights(s, k) - {e})
  {
    hide Tree, Prio, Nr;
    var t := s.(rq := s.rq[s.parent[e] := r], onList := onList);
    forall x | x in s.parent && x in onList ensures Prio(t, x) == Prio(s, x) && Nr(t, x) == Nr(s, x) {
      StepReadsOne(s, e, r, onList, x);
    }
  }

  lemma StepReadsOne(s: Cpu, e: Se, r: RtRq, onList: set<Se>, x: Se)
    requires Tree(s) && e in s.parent && Loose(s, e) && x in s.parent && x in onList
    requires onList == s.onList + {e} || onList == s.onList - {e}
    ensures var t := s.(rq := s.rq[s.parent[e] := r], onList := onList);
      Prio(t, x) == Prio(s, x) && Nr(t, x) == Nr(s, x)
  {
    assert s.parent[e] != Some(e);
  }

  /* Everything the steps of an operation leave alone. */
  ghost predicate SameTree(s: Cpu, t: Cpu) {
    && t.parent == s.parent && t.level == s.level && t.prio == s.prio
    && t.rtQueued == s.rtQueued && t.nrRunning == s.nrRunning && t.rq.Keys == s.rq.Keys
    && (forall q :: q in s.rq ==> t.rq[q].rtThrottled == s.rq[q].rtThrottled)
  }

  lemma EnqueueOneKeepsInv(s: Cpu, e: Se, head: bool)
    requires Ready(s, e) && e !in s.onList
    ensures var t := EnqueueOne(s, e, head);
      Inv(t) && SameTree(s, t) && s.onList <= t.onList <= s.onList + {e}
  {
    var q := s.parent[e];
    if EnqueueOne(s, e, head) != s {
      assert QueueOk(s, q);
      CanInsert(s, e);
      InsertHolds(s, s.rq[q], Weights(s, q), e, head);
      StepKeepsInv(s, e, Insert(s.rq[q], e, Prio(s, e), Nr(s, e), head), s.onList + {e});
    }
  }

  lemma DequeueOneKeepsInv(s: Cpu, e: Se)
    requires Ready(s, e) && e in s.onList
    ensures var t := DequeueOne(s, e); Inv(t) && SameTree(s, t) && t.onList == s.onList - {e}
  {
    var q := s.parent[e];
    assert QueueOk(s, q);
    CanDelete(s, e);
    DeleteHolds(s, s.rq[q], Weights(s, q), e);
    DeleteArrayOk(s, s.rq[q], Weights(s, q), e);
    StepKeepsInv(s, e, Delete(s.rq[q], e, Prio(s, e), Nr(s, e)), s.onList - {e});
  }
}
