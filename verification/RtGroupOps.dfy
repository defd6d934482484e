/**
 The RT class with groups, continued: the operations that tear an entity's chain of groups down
 from the top and rebuild it from the bottom, and what they keep.
 */
module RtGroupOps {
  import opened Util
  import opened RtGroup

  // ----- an entity together with all the groups above it

  /* e and the groups above it. */
  ghost function Path(parent: map<Se, Queue>, level: map<Se, nat>, e: Se): (path: set<Se>)
    requires Forest(parent, level) && e in parent
    ensures e in path && path <= parent.Keys
    decreases level[e]
  {
    {e} + match parent[e] case None => {} case Some(g) => Path(parent, level, g)
  }

  lemma {:induction false} PathLevels(parent: map<Se, Queue>, level: map<Se, nat>, e: Se)
    requires Forest(parent, level) && e in parent
    ensures forall x :: x in Path(parent, level, e) ==> x in parent && level[x] <= level[e]
    ensures forall x :: x in Path(parent, level, e) && level[x] == level[e] ==> x == e
    ensures forall x {:trigger parent[x]} :: x in Path(parent, level, e) && parent[x].Some? ==>
      parent[x].value in Path(parent, level, e)
    decreases level[e]
  {
    if parent[e].Some? { PathLevels(parent, level, parent[e].value); }
  }

  /* The walk down the back pointers in dequeue_rt_stack: the priority of an upper entity depends
     on the lower ones, so entities are removed top-down. */
  ghost function DequeueStack(s: Cpu, e: Se): (t: Cpu)
    requires Inv(s) && e in s.parent
    ensures Inv(t) && SameTree(s, t) && t.onList == s.onList - Path(s.parent, s.level, e)
    decreases s.level[e]
  {
    hide Inv, EnqueueOne, DequeueOne;
    PathLevels(s.parent, s.level, e);
    var u := match s.parent[e] case None => s case Some(g) =>
      (PathLevels(s.parent, s.level, g); DequeueStack(s, g));
    if e in u.onList then DequeueOneKeepsInv(u, e); DequeueOne(u, e) else u
  }

  /* The walk up the parents in enqueue_rt_entity. */
  ghost function EnqueueStack(s: Cpu, e: Se, head: bool): (t: Cpu)
    requires Inv(s) && e in s.parent && Path(s.parent, s.level, e) !! s.onList
    ensures Inv(t) && SameTree(s, t)
    ensures s.onList <= t.onList <= s.onList + Path(s.parent, s.level, e)
    decreases s.level[e]
  {
    hide Inv, EnqueueOne, DequeueOne;
    PathLevels(s.parent, s.level, e);
    EnqueueOneKeepsInv(s, e, head);
    var u := EnqueueOne(s, e, head);
    match s.parent[e] case None => u case Some(g) =>
      PathLevels(s.parent, s.level, g); EnqueueStack(u, g, head)
  }

  lemma DropAbsent(s: Cpu, e: Se)
    requires Inv(s) && e in s.parent && e !in s.onList
    ensures s.parent[e] in s.rq && Drop(s.rq[s.parent[e]].fifo, e) == s.rq[s.parent[e]].fifo
  {
    var q := s.parent[e];
    assert QueueOk(s, q);
    assert e !in Weights(s, q);
    DropFacts(s.rq[q].fifo, e);
  }

  /* Going from s to t, x left its FIFO. */
  ghost predicate Dropped(s: Cpu, t: Cpu, x: Se) {
    && x in s.parent && s.parent[x] in s.rq && s.parent[x] in t.rq
    && t.rq[s.parent[x]].fifo == Drop(s.rq[s.parent[x]].fifo, x)
  }

  /* No member of the path lives on q. */
  ghost predicate OffPath(parent: map<Se, Queue>, path: set<Se>, q: Queue) {
    forall x :: x in path && x in parent ==> parent[x] != q
  }

  /* An entity's own queue, and the queue it owns, are not on the path of the group above it. */
  lemma PathAbove(s: Cpu, e: Se)
    requires Forest(s.parent, s.level) && e in s.parent
    ensures OffPath(s.parent, Path(s.parent, s.level, e), Some(e))
    ensures s.parent[e].Some? ==>
      (&& s.parent[e].value in s.parent
       && OffPath(s.parent, Path(s.parent, s.level, s.parent[e].value), s.parent[e])
       && OffPath(s.parent, Path(s.parent, s.level, s.parent[e].value), Some(e)))
  {
    PathLevels(s.parent, s.level, e);
    if s.parent[e].Some? { PathLevels(s.parent, s.level, s.parent[e].value); }
  }

  /* Tearing down takes each member of the chain out of its FIFO and changes nothing else. */
  lemma {:induction false} DequeueStackDrops(s: Cpu, e: Se)
    requires Inv(s) && e in s.parent
    ensures forall x :: x in Path(s.parent, s.level, e) ==> Dropped(s, DequeueStack(s, e), x)
    ensures forall q :: q in s.rq && OffPath(s.parent, Path(s.parent, s.level, e), q) ==>
      DequeueStack(s, e).rq[q] == s.rq[q]
    decreases s.level[e]
  {
    var q := s.parent[e];
    assert q in s.rq;
    hide Tree, QueueOk, OffPath, DequeueOne;
    PathAbove(s, e);
    if q.Some? {
      var above, u := Path(s.parent, s.level, q.value), DequeueStack(s, q.value);
      DequeueStackDrops(s, q.value);
      PathLevels(s.parent, s.level, q.value);
      OneDropped(u, e);
      forall x | x in above ensures Dropped(s, DequeueStack(s, e), x) {
        assert Dropped(s, u, x);
        OffPathMember(s.parent, above, x, q);
      }
      forall k | k in s.rq && OffPath(s.parent, {e} + above, k) ensures DequeueStack(s, e).rq[k] == s.rq[k] {
        OffPathSplit(s.parent, above, e, k);
      }
    } else {
      OneDropped(s, e);
      forall k | k in s.rq && OffPath(s.parent, {e}, k) ensures k != q {
        OffPathMember(s.parent, {e}, e, k);
      }
    }
  }

  lemma OneDropped(u: Cpu, e: Se)
    requires Ready(u, e)
    ensures var t := if e in u.onList then DequeueOne(u, e) else u;
      Dropped(u, t, e) && forall k :: k in u.rq && k != u.parent[e] ==> k in t.rq && t.rq[k] == u.rq[k]
  {
    if e !in u.onList { DropAbsent(u, e); }
  }

  /* Going from s to t, x was offered to its queue: a task joins, a group joins if it can run, at
     the head or the tail of the FIFO of its priority. */
  ghost predicate Placed(s: Cpu, t: Cpu, x: Se, head: bool) {
    && x in s.parent && s.parent[x] in s.rq && s.parent[x] in t.rq
    && (x in t.onList <==> !IsGroup(t, x) || Runnable(t.rq[Some(x)]))
    && (x in t.onList ==> 0 <= Prio(t, x) < |s.rq[s.parent[x]].fifo|)
    && t.rq[s.parent[x]].fifo ==
       if x in t.onList then Put(s.rq[s.parent[x]].fifo, Prio(t, x), x, head) else s.rq[s.parent[x]].fifo
  }

  lemma EnqueueOnePlaces(s: Cpu, e: Se, head: bool)
    requires Ready(s, e) && e !in s.onList
    ensures Placed(s, EnqueueOne(s, e, head), e, head)
    ensures forall q :: q in s.rq && q != s.parent[e] ==> EnqueueOne(s, e, head).rq[q] == s.rq[q]
  {
    assert s.parent[e] != Some(e);
    if IsGroup(s, e) { NrBounds(s, Some(e)); }
    if EnqueueOne(s, e, head) != s { CanInsert(s, e); }
    assert QueueOk(s, s.parent[e]);
  }

  lemma PlacedEarlier(s: Cpu, u: Cpu, t: Cpu, x: Se, head: bool)
    requires Placed(u, t, x, head) && SameTree(s, u) && x in s.parent && s.parent[x] in s.rq
    requires u.rq[s.parent[x]] == s.rq[s.parent[x]]
    ensures Placed(s, t, x, head)
  {
  }

  lemma PlacedLater(s: Cpu, u: Cpu, t: Cpu, x: Se, head: bool)
    requires Placed(s, u, x, head) && SameTree(u, t) && SameTree(s, u) && (x in t.onList <==> x in u.onList)
    requires t.rq[s.parent[x]] == u.rq[s.parent[x]]
    requires IsGroup(u, x) ==> t.rq[Some(x)] == u.rq[Some(x)]
    ensures Placed(s, t, x, head)
  {
  }

  /* Each member of the chain was offered to its queue, and nothing else changed. */
  ghost predicate Rebuilt(s: Cpu, t: Cpu, path: set<Se>, head: bool) {
    && (forall x :: x in path ==> Placed(s, t, x, head))
    && (forall q :: q in s.rq && OffPath(s.parent, path, q) ==> q in t.rq && t.rq[q] == s.rq[q])
  }

  lemma RebuiltStep(s: Cpu, u: Cpu, t: Cpu, e: Se, g: Se, head: bool)
    requires Tree(s) && e in s.parent && s.parent[e] == Some(g) && Placed(s, u, e, head)
    requires SameTree(s, u) && SameTree(u, t) && (e in t.onList <==> e in u.onList)
    requires g in s.parent && Rebuilt(u, t, Path(s.parent, s.level, g), head)
    requires forall q :: q in s.rq && q != Some(g) ==> u.rq[q] == s.rq[q]
    ensures Rebuilt(s, t, Path(s.parent, s.level, e), head)
  {
    hide Placed, OffPath;
    PathAbove(s, e);
    PathLevels(s.parent, s.level, e);
    var path, above := Path(s.parent, s.level, e), Path(s.parent, s.level, g);
    forall q | q in s.rq && OffPath(s.parent, path, q) ensures q in t.rq && t.rq[q] == s.rq[q] {
      OffPathSplit(s.parent, above, e, q);
    }
    forall x | x in above ensures Placed(s, t, x, head) {
      assert Placed(u, t, x, head);
      OffPathMember(s.parent, above, x, Some(g));
      PlacedEarlier(s, u, t, x, head);
    }
    PlacedLater(s, u, t, e, head);
  }

  lemma OffPathSplit(parent: map<Se, Queue>, above: set<Se>, e: Se, q: Queue)
    requires OffPath(parent, {e} + above, q) && e in parent
    ensures OffPath(parent, above, q) && parent[e] != q
  {
  }

  lemma OffPathMember(parent: map<Se, Queue>, path: set<Se>, x: Se, q: Queue)
    requires OffPath(parent, path, q) && x in path && x in parent
    ensures parent[x] != q
  {
  }

  lemma {:induction false} EnqueueStackPlaces(s: Cpu, e: Se, head: bool)
    requires Inv(s) && e in s.parent && Path(s.parent, s.level, e) !! s.onList
    ensures Rebuilt(s, EnqueueStack(s, e, head), Path(s.parent, s.level, e), head)
    decreases s.level[e]
  {
    var q := s.parent[e];
    hide Inv, EnqueueOne, Placed, Rebuilt;
    PathLevels(s.parent, s.level, e);
    EnqueueOneKeepsInv(s, e, head);
    EnqueueOnePlaces(s, e, head);
    var u := EnqueueOne(s, e, head);
    if q.Some? {
      PathLevels(s.parent, s.level, q.value);
      EnqueueStackPlaces(u, q.value, head);
      RebuiltStep(s, u, EnqueueStack(s, e, head), e, q.value, head);
    } else {
      RebuiltTop(s, u, e, head);
    }
  }

  lemma RebuiltTop(s: Cpu, t: Cpu, e: Se, head: bool)
    requires Tree(s) && e in s.parent && s.parent[e] == None && Placed(s, t, e, head) && SameTree(s, t)
    requires forall q :: q in s.rq && q != None ==> t.rq[q] == s.rq[q]
    ensures Rebuilt(s, t, Path(s.parent, s.level, e), head)
  {
  }

  // ----- the operations

  /* dequeue_top_rt_rq: the top queue stops counting towards nrRunning. */
  function DequeueTop(s: Cpu): Cpu
    requires None in s.rq
  {
    if !s.rtQueued then s
    else s.(nrRunning := s.nrRunning - s.rq[None].rtNrRunning, rtQueued := false)
  }

  /* enqueue_top_rt_rq. */
  function EnqueueTop(s: Cpu): Cpu
    requires None in s.rq
  {
    if s.rtQueued || s.rq[None].rtThrottled || s.rq[None].rtNrRunning == 0 then s
    else s.(nrRunning := s.nrRunning + s.rq[None].rtNrRunning, rtQueued := true)
  }

  /* BUG_ON(!rq->nr_running) in dequeue_top_rt_rq never fires: a queued top queue has tasks, and the
     runqueue counts all of them. */
  lemma TopIsCounted(s: Cpu, others: nat)
    requires Valid(s, others) && s.rtQueued
    ensures s.rq[None].rtNrRunning > 0 && s.nrRunning >= s.rq[None].rtNrRunning
    ensures DequeueTop(s).nrRunning == others && !DequeueTop(s).rtQueued
  {
    NrBounds(s, None);
  }

  lemma TopKeepsInv(s: Cpu, rtQueued: bool, nrRunning: int)
    requires Inv(s)
    ensures Inv(s.(rtQueued := rtQueued, nrRunning := nrRunning))
  {
    var t := s.(rtQueued := rtQueued, nrRunning := nrRunning);
    forall q | q in t.rq ensures QueueOk(t, q) {
      assert QueueOk(s, q) && Weights(s, q) == Weights(t, q);
      QueueFrame(s, t, q);
    }
  }

  ghost function DequeueRtStack(s: Cpu, e: Se): (t: Cpu)
    requires Inv(s) && e in s.parent
    ensures Inv(t) && SameTree(DequeueTop(s), t) && t.onList == s.onList - Path(s.parent, s.level, e)
  {
    TopKeepsInv(s, DequeueTop(s).rtQueued, DequeueTop(s).nrRunning);
    DequeueStack(DequeueTop(s), e)
  }

  /* enqueue_rt_entity. */
  ghost function EnqueueRtEntity(s: Cpu, e: Se, head: bool): Cpu
    requires Inv(s) && e in s.parent
  {
    EnqueueTop(EnqueueStack(DequeueRtStack(s, e), e, head))
  }

  /* A group that still has members comes back. */
  ghost function RequeueOne(s: Cpu, e: Se): (t: Cpu)
    requires Ready(s, e) && e !in s.onList
    ensures Inv(t) && SameTree(s, t) && s.onList <= t.onList <= s.onList + {e}
  {
    hide Inv, EnqueueOne;
    EnqueueOneKeepsInv(s, e, false);
    if IsGroup(s, e) && s.rq[Some(e)].rtNrRunning != 0 then EnqueueOne(s, e, false) else s
  }

  /* The walk up the parents in dequeue_rt_entity. */
  ghost function RequeueStack(s: Cpu, e: Se): (t: Cpu)
    requires Inv(s) && e in s.parent && Path(s.parent, s.level, e) !! s.onList
    ensures Inv(t) && SameTree(s, t)
    decreases s.level[e]
  {
    hide Inv, RequeueOne;
    PathLevels(s.parent, s.level, e);
    var u := RequeueOne(s, e);
    match s.parent[e] case None => u case Some(g) =>
      PathLevels(s.parent, s.level, g); RequeueStack(u, g)
  }

  /* dequeue_rt_entity. */
  ghost function DequeueRtEntity(s: Cpu, e: Se): Cpu
    requires Inv(s) && e in s.parent
  {
    EnqueueTop(RequeueStack(DequeueRtStack(s, e), e))
  }

  /* Empty groups would not join anyway, so groups return just as they do on an enqueue. */
  lemma {:induction false} RequeueIsEnqueue(s: Cpu, e: Se)
    requires Inv(s) && e in s.parent && Path(s.parent, s.level, e) !! s.onList
    ensures IsGroup(s, e) ==> RequeueStack(s, e) == EnqueueStack(s, e, false)
    ensures !IsGroup(s, e) ==>
      (RequeueStack(s, e) == match s.parent[e] case None => s case Some(g) => EnqueueStack(s, g, false))
    decreases s.level[e]
  {
    PathLevels(s.parent, s.level, e);
    EnqueueOneKeepsInv(s, e, false);
    var u := if IsGroup(s, e) then EnqueueOne(s, e, false) else s;
    if s.parent[e].Some? {
      var g := s.parent[e].value;
      PathLevels(s.parent, s.level, g);
      assert IsGroup(s, g);
      RequeueIsEnqueue(u, g);
    }
  }

  // ----- what the operations keep, and exactly what they change

  /* Outside e itself, every group stands where it should. */
  ghost predicate SettledBut(s: Cpu, e: Se) {
    forall x :: x in s.parent && x != e ==> Settled(s, x)
  }

  /* x left the FIFOs and joined the one for p, first or last, unless p is none; all others keep
     their places. */
  ghost predicate Reseated(before: seq<seq<Se>>, after: seq<seq<Se>>, x: Se, p: Option<int>, head: bool) {
    && |after| == |before| && (p.Some? ==> 0 <= p.value < |before|)
    && forall k :: 0 <= k < |before| ==>
         after[k] == if p != Some(k) then Without(before[k], x)
                     else if head then [x] + Without(before[k], x)
                     else Without(before[k], x) + [x]
  }

  /* x left its FIFO and, if t has it queued, came back at the head or tail of the one for its new
     priority. */
  ghost predicate Moved(s: Cpu, t: Cpu, x: Se, head: bool) {
    && x in s.parent && s.parent[x] in s.rq && s.parent[x] in t.rq
    && Reseated(s.rq[s.parent[x]].fifo, t.rq[s.parent[x]].fifo, x,
                if x in t.onList then Some(Prio(t, x)) else None, head)
  }

  /* The whole effect of an operation on e and its chain: `queued` says whether e itself ends up
     queued. Only the FIFOs on the chain change, and in each only one entity moves. */
  ghost predicate Effect(s: Cpu, t: Cpu, path: set<Se>, e: Se, head: bool, queued: bool) {
    && t.parent == s.parent && t.prio == s.prio && t.rq.Keys == s.rq.Keys
    && (forall q :: q in s.rq ==> t.rq[q].rtThrottled == s.rq[q].rtThrottled)
    && (e in t.onList <==> queued)
    && (forall x :: x in path ==> Moved(s, t, x, head))
    && (forall x :: x !in path ==> (x in t.onList <==> x in s.onList))
    && (forall q :: q in s.rq && OffPath(s.parent, path, q) ==> t.rq[q] == s.rq[q])
  }

  lemma SettledAfter(s: Cpu, t: Cpu, e: Se)
    requires Forest(s.parent, s.level) && e in s.parent && SettledBut(s, e)
    requires t.parent == s.parent && t.rq.Keys == s.rq.Keys
    requires forall x :: x in Path(s.parent, s.level, e) ==> Settled(t, x)
    requires forall x :: x !in Path(s.parent, s.level, e) ==> (x in t.onList <==> x in s.onList)
    requires forall q :: q in s.rq && OffPath(s.parent, Path(s.parent, s.level, e), q) ==> t.rq[q] == s.rq[q]
    ensures forall x :: x in t.parent ==> Settled(t, x)
  {
    PathLevels(s.parent, s.level, e);
    forall x | x in s.parent && x !in Path(s.parent, s.level, e) ensures Settled(t, x) {
      assert Settled(s, x);
      assert OffPath(s.parent, Path(s.parent, s.level, e), Some(x));
    }
  }

  lemma MovedBy(s: Cpu, a: Cpu, b: Cpu, x: Se, head: bool)
    requires Dropped(s, a, x) && Placed(a, b, x, head) && SameTree(s, a) && SameTree(a, b)
    ensures Moved(s, b, x, head) && Settled(b, x)
  {
  }

  /* EnqueueTop finishes an operation whose groups all stand where they should. */
  lemma TopFinishes(s: Cpu, others: int)
    requires Inv(s) && TopCounted(s, others) && !s.rtQueued
    requires forall x :: x in s.parent ==> Settled(s, x)
    ensures Valid(EnqueueTop(s), others)
  {
    var t := EnqueueTop(s);
    TopKeepsInv(s, t.rtQueued, t.nrRunning);
    NrBounds(s, None);
    hide Inv;
    assert forall x :: x in t.parent ==> Settled(s, x) && Settled(t, x) == Settled(s, x);
  }

  lemma PlacedQueued(a: Cpu, b: Cpu, x: Se, head: bool)
    requires Placed(a, b, x, head) && SameTree(a, b)
    requires IsGroup(a, x) ==> b.rq[Some(x)] == a.rq[Some(x)]
    ensures x in b.onList <==> !IsGroup(a, x) || Runnable(a.rq[Some(x)])
  {
  }

  /* Tear down to a, rebuild to b: b differs from s in the chain alone. */
  lemma RebuiltEffect(s: Cpu, e: Se, head: bool)
    requires Inv(s) && e in s.parent
    ensures var b, path := EnqueueStack(DequeueStack(s, e), e, head), Path(s.parent, s.level, e);
      && Effect(s, b, path, e, head, !IsGroup(s, e) || Runnable(s.rq[Some(e)]))
      && forall x :: x in path ==> Settled(b, x)
  {
    hide Tree, QueueOk, Placed, Dropped, Settled, Moved, OffPath, EnqueueStack, DequeueStack;
    var path, a := Path(s.parent, s.level, e), DequeueStack(s, e);
    var b := EnqueueStack(a, e, head);
    PathAbove(s, e);
    DequeueStackDrops(s, e);
    EnqueueStackPlaces(a, e, head);
    forall x | x in path ensures Moved(s, b, x, head) && Settled(b, x) {
      assert Dropped(s, a, x) && Placed(a, b, x, head);
      MovedBy(s, a, b, x, head);
    }
    assert Placed(a, b, e, head);
    PlacedQueued(a, b, e, head);
  }

  /* The steps around the top queue touch neither FIFOs nor list membership. */
  lemma EffectTop(s: Cpu, b: Cpu, path: set<Se>, e: Se, head: bool, queued: bool)
    requires None in s.rq && Effect(DequeueTop(s), b, path, e, head, queued)
    ensures Effect(s, EnqueueTop(b), path, e, head, queued)
  {
    hide OffPath, Moved;
    forall x | x in path ensures Moved(s, EnqueueTop(b), x, head) {
      MovedTop(s, b, x, head);
    }
  }

  lemma MovedTop(s: Cpu, b: Cpu, x: Se, head: bool)
    requires None in s.rq && None in b.rq && Moved(DequeueTop(s), b, x, head)
    ensures Moved(s, EnqueueTop(b), x, head)
  {
  }

  lemma SettledTop(s: Cpu, e: Se)
    requires None in s.rq && SettledBut(s, e)
    ensures SettledBut(DequeueTop(s), e)
  {
  }

  lemma EnqueueEffect(s: Cpu, e: Se, head: bool, others: int)
    requires Inv(s) && TopCounted(s, others) && e in s.parent && SettledBut(s, e)
    ensures Valid(EnqueueRtEntity(s, e, head), others)
    ensures Effect(s, EnqueueRtEntity(s, e, head), Path(s.parent, s.level, e), e, head,
                   !IsGroup(s, e) || Runnable(s.rq[Some(e)]))
  {
    hide Tree, QueueOk, Settled, OffPath, EnqueueStack, DequeueStack, Effect;
    var d := DequeueTop(s);
    TopKeepsInv(s, d.rtQueued, d.nrRunning);
    var b := EnqueueStack(DequeueStack(d, e), e, head);
    RebuiltEffect(d, e, head);
    SettledTop(s, e);
    EffectSettles(d, b, e, head, !IsGroup(s, e) || Runnable(s.rq[Some(e)]));
    TopFinishes(b, others);
    EffectTop(s, b, Path(s.parent, s.level, e), e, head, !IsGroup(s, e) || Runnable(s.rq[Some(e)]));
  }

  lemma EffectSettles(s: Cpu, t: Cpu, e: Se, head: bool, queued: bool)
    requires Forest(s.parent, s.level) && e in s.parent && SettledBut(s, e)
    requires Effect(s, t, Path(s.parent, s.level, e), e, head, queued)
    requires forall x :: x in Path(s.parent, s.level, e) ==> Settled(t, x)
    ensures forall x :: x in t.parent ==> Settled(t, x)
  {
    hide Moved, Settled, OffPath;
    SettledAfter(s, t, e);
  }

  /* Taking a task away from a group: it alone stays off, the groups above come back. */
  lemma RemovedBelow(s: Cpu, e: Se, g: Se)
    requires Inv(s) && e in s.parent && !IsGroup(s, e) && s.parent[e] == Some(g)
    ensures var b, path := RequeueStack(DequeueStack(s, e), e), Path(s.parent, s.level, e);
      Effect(s, b, path, e, false, false) && forall x :: x in path ==> Settled(b, x)
  {
    assert s.parent[e] in s.rq && IsGroup(s, g);
    hide Tree, QueueOk, Placed, Rebuilt, Dropped, Settled, Moved, OffPath, Effect;
    hide EnqueueStack, DequeueStack, RequeueStack;
    var path, above, a := Path(s.parent, s.level, e), Path(s.parent, s.level, g), DequeueStack(s, e);
    var b := EnqueueStack(a, g, false);
    PathLevels(s.parent, s.level, e);
    PathLevels(s.parent, s.level, g);
    PathAbove(s, e);
    DequeueStackDrops(s, e);
    RequeueIsEnqueue(a, e);
    EnqueueStackPlaces(a, g, false);
    RemovedMoves(s, a, b, e, above);
    RemovedElsewhere(s, a, b, e, above);
    assert path == {e} + above;
    EffectOf(s, a, b, path, e, false, false);
  }

  lemma EffectOf(s: Cpu, a: Cpu, b: Cpu, path: set<Se>, e: Se, head: bool, queued: bool)
    requires SameTree(s, a) && SameTree(a, b)
    requires a.onList == s.onList - path && a.onList <= b.onList <= a.onList + path
    requires e in b.onList <==> queued
    requires forall x :: x in path ==> Moved(s, b, x, head)
    requires forall q :: q in s.rq && OffPath(s.parent, path, q) ==> q in b.rq && b.rq[q] == s.rq[q]
    ensures Effect(s, b, path, e, head, queued)
  {
  }

  lemma RemovedElsewhere(s: Cpu, a: Cpu, b: Cpu, e: Se, above: set<Se>)
    requires SameTree(s, a) && e in s.parent && Rebuilt(a, b, above, false)
    requires forall q :: q in s.rq && OffPath(s.parent, {e} + above, q) ==> a.rq[q] == s.rq[q]
    ensures forall q :: q in s.rq && OffPath(s.parent, {e} + above, q) ==> q in b.rq && b.rq[q] == s.rq[q]
  {
  }

  lemma RemovedMoves(s: Cpu, a: Cpu, b: Cpu, e: Se, above: set<Se>)
    requires SameTree(s, a) && SameTree(a, b) && !IsGroup(b, e) && e !in b.onList && e in s.parent
    requires forall x :: x in {e} + above ==> Dropped(s, a, x)
    requires Rebuilt(a, b, above, false) && OffPath(s.parent, above, s.parent[e]) && s.parent[e] in s.rq
    ensures forall x :: x in {e} + above ==> Moved(s, b, x, false) && Settled(b, x)
  {
    hide Dropped, Placed, Moved, Settled, OffPath;
    assert Dropped(s, a, e);
    DroppedMoved(s, a, b, e);
    TaskSettled(b, e);
    forall x | x in above ensures Moved(s, b, x, false) && Settled(b, x) {
      assert Dropped(s, a, x) && Placed(a, b, x, false);
      MovedBy(s, a, b, x, false);
    }
  }

  lemma RemovedAtTop(s: Cpu, e: Se)
    requires Inv(s) && e in s.parent && !IsGroup(s, e) && s.parent[e] == None
    ensures var b, path := RequeueStack(DequeueStack(s, e), e), Path(s.parent, s.level, e);
      Effect(s, b, path, e, false, false) && forall x :: x in path ==> Settled(b, x)
  {
    hide Tree, QueueOk, Dropped, Settled, Moved, OffPath, DequeueStack, RequeueStack, Effect;
    var a, path := DequeueStack(s, e), Path(s.parent, s.level, e);
    assert path == {e};
    DequeueStackDrops(s, e);
    RequeueIsEnqueue(a, e);
    OnOneQueue(s, a, e);
    DroppedMoved(s, a, a, e);
    TaskSettled(a, e);
    EffectOf(s, a, a, path, e, false, false);
  }

  lemma OnOneQueue(s: Cpu, a: Cpu, e: Se)
    requires Dropped(s, a, e)
    ensures s.parent[e] in a.rq
  {
  }

  lemma TaskSettled(s: Cpu, e: Se)
    requires !IsGroup(s, e)
    ensures Settled(s, e)
  {
  }

  lemma DroppedMoved(s: Cpu, a: Cpu, b: Cpu, e: Se)
    requires Dropped(s, a, e) && e !in b.onList
    requires s.parent[e] in b.rq && b.rq[s.parent[e]] == a.rq[s.parent[e]]
    ensures Moved(s, b, e, false)
  {
  }

  lemma DequeueEffect(s: Cpu, e: Se, others: int)
    requires Inv(s) && TopCounted(s, others) && e in s.parent && SettledBut(s, e)
    ensures Valid(DequeueRtEntity(s, e), others)
    ensures Effect(s, DequeueRtEntity(s, e), Path(s.parent, s.level, e), e, false,
                   IsGroup(s, e) && Runnable(s.rq[Some(e)]))
  {
    hide Tree, QueueOk, Settled, OffPath, EnqueueStack, DequeueStack, RequeueStack, Effect;
    var d := DequeueTop(s);
    TopKeepsInv(s, d.rtQueued, d.nrRunning);
    if IsGroup(s, e) {
      RequeueIsEnqueue(DequeueStack(d, e), e);
      EnqueueEffect(s, e, false, others);
    } else {
      var b := RequeueStack(DequeueStack(d, e), e);
      if d.parent[e].Some? { RemovedBelow(d, e, d.parent[e].value); } else { RemovedAtTop(d, e); }
      SettledTop(s, e);
      EffectSettles(d, b, e, false, false);
      TopFinishes(b, others);
      EffectTop(s, b, Path(s.parent, s.level, e), e, false, false);
    }
  }

  // ----- throttling

  function SetThrottled(s: Cpu, q: Queue, throttled: bool): Cpu
    requires q in s.rq
  {
    s.(rq := s.rq[q := s.rq[q].(rtThrottled := throttled)])
  }

  /* sched_rt_runtime_exceeded on a queue over its limit, with sched_rt_rq_dequeue. */
  ghost function Throttle(s: Cpu, q: Queue): Cpu
    requires Inv(s) && q in s.rq
  {
    FlagKeepsInv(s, q, true);
    var u := SetThrottled(s, q, true);
    match q
    case None => DequeueTop(u)
    case Some(g) => if g in s.onList then OwnerExists(s, g); DequeueRtEntity(u, g) else u
  }

  /* The period timer's release of a throttled queue, with sched_rt_rq_enqueue. */
  ghost function Unthrottle(s: Cpu, q: Queue): Cpu
    requires Inv(s) && q in s.rq
  {
    FlagKeepsInv(s, q, false);
    var u := SetThrottled(s, q, false);
    if s.rq[q].rtNrRunning == 0 then u
    else match q
      case None => EnqueueTop(u)
      case Some(g) => if g in s.onList then u else OwnerExists(s, g); EnqueueRtEntity(u, g, false)
  }

  lemma OwnerExists(s: Cpu, g: Se)
    requires Inv(s) && Some(g) in s.rq
    ensures g in s.parent
  {
  }

  lemma FlagReads(s: Cpu, q: Queue, throttled: bool)
    requires Tree(s) && q in s.rq
    ensures var t := SetThrottled(s, q, throttled);
      && Tree(t) && t.rq.Keys == s.rq.Keys
      && (forall x :: Prio(t, x) == Prio(s, x))
      && (forall k :: Weights(t, k) == Weights(s, k))
  {
  }

  lemma FlagKeepsInv(s: Cpu, q: Queue, throttled: bool)
    requires Inv(s) && q in s.rq
    ensures Inv(SetThrottled(s, q, throttled))
  {
    hide Tree, Weights, QueueOk, Prio, Nr;
    var t := SetThrottled(s, q, throttled);
    FlagReads(s, q, throttled);
    forall k | k in t.rq ensures QueueOk(t, k) {
      assert QueueOk(s, k);
      QueueFrame(s, t, k);
    }
  }

  lemma FlagSettled(s: Cpu, q: Queue, throttled: bool, others: int)
    requires Valid(s, others) && q in s.rq
    ensures TopCounted(SetThrottled(s, q, throttled), others)
    ensures forall x :: x in s.parent && Some(x) != q ==> Settled(SetThrottled(s, q, throttled), x)
    ensures s.rq[q].rtNrRunning == 0 ==> forall x :: x in s.parent ==> Settled(SetThrottled(s, q, throttled), x)
  {
  }

  /* An operation on a group leaves the group's own queue and all tasks where they are. */
  lemma GroupEffect(s: Cpu, t: Cpu, g: Se, head: bool, queued: bool)
    requires Inv(s) && g in s.parent && IsGroup(s, g)
    requires Effect(s, t, Path(s.parent, s.level, g), g, head, queued)
    ensures t.rq.Keys == s.rq.Keys && t.rq[Some(g)] == s.rq[Some(g)]
    ensures g in t.onList <==> queued
    ensures forall x :: x in s.prio ==> (x in t.onList <==> x in s.onList)
  {
    ChainOfGroups(s, g);
    hide Tree, QueueOk, Moved, OffPath;
    PathAbove(s, g);
  }

  /* A group's queue was throttled or released: nothing but the flag differs, unless the group had to
     leave or join its parent's queue. Then it has moved, and so has each group above it, to the
     tail of the FIFO of its priority if it is queued; all other FIFOs are as they were. */
  ghost predicate Switched(s: Cpu, t: Cpu, g: Se, throttled: bool)
    requires Forest(s.parent, s.level) && g in s.parent && Some(g) in s.rq
  {
    var u := s.(rq := s.rq[Some(g) := s.rq[Some(g)].(rtThrottled := throttled)]);
    if throttled && g in s.onList then Effect(u, t, Path(s.parent, s.level, g), g, false, false)
    else if !throttled && g !in s.onList && s.rq[Some(g)].rtNrRunning != 0 then
      Effect(u, t, Path(s.parent, s.level, g), g, false, true)
    else t == u
  }

  /* The same of the top queue: its tasks stay where they are, and the runqueue stops or starts to
     count them. */
  ghost predicate TopSwitched(s: Cpu, t: Cpu, throttled: bool, others: int)
    requires None in s.rq
  {
    var counted := !throttled && s.rq[None].rtNrRunning > 0;
    t == s.(rq := s.rq[None := s.rq[None].(rtThrottled := throttled)], rtQueued := counted,
            nrRunning := others + if counted then s.rq[None].rtNrRunning else 0)
  }

  /* Throttling keeps the invariant. The group leaves its parent's queue and only its own chain
     moves; what is queued below it stays as it is. */
  lemma ThrottleKeepsValid(s: Cpu, q: Queue, others: int)
    requires Valid(s, others) && q in s.rq
    ensures Valid(Throttle(s, q), others) && Throttle(s, q).rq.Keys == s.rq.Keys
    ensures Throttle(s, q).rq[q] == s.rq[q].(rtThrottled := true)
    ensures q.Some? ==> q.value in s.parent && q.value !in Throttle(s, q).onList
    ensures forall t :: t in s.prio ==> (t in Throttle(s, q).onList <==> t in s.onList)
    ensures if q.Some? then Switched(s, Throttle(s, q), q.value, true) else TopSwitched(s, Throttle(s, q), true, others)
  {
    hide Inv, Valid, Settled, TopCounted, DequeueRtEntity, DequeueTop;
    match q
    case Some(g) => ThrottleGroup(s, g, others);
    case None => ThrottleTop(s, others);
  }

  lemma ThrottleGroup(s: Cpu, g: Se, others: int)
    requires Valid(s, others) && Some(g) in s.rq
    ensures var t := Throttle(s, Some(g));
      && Valid(t, others) && t.rq.Keys == s.rq.Keys && t.rq[Some(g)] == s.rq[Some(g)].(rtThrottled := true)
      && g !in t.onList && (forall x :: x in s.prio ==> (x in t.onList <==> x in s.onList))
      && g in s.parent && Switched(s, t, g, true)
  {
    hide Tree, QueueOk, Settled, TopCounted, Effect, DequeueRtEntity;
    var u := SetThrottled(s, Some(g), true);
    FlagKeepsInv(s, Some(g), true);
    OwnerExists(s, g);
    if g in s.onList {
      FlagSettled(s, Some(g), true, others);
      DequeueEffect(u, g, others);
      GroupEffect(u, DequeueRtEntity(u, g), g, false, false);
    } else {
      ThrottleQuiet(s, g, others);
    }
  }

  lemma ThrottleQuiet(s: Cpu, g: Se, others: int)
    requires Valid(s, others) && Some(g) in s.rq && g !in s.onList
    ensures Valid(SetThrottled(s, Some(g), true), others)
  {
    FlagKeepsInv(s, Some(g), true);
    FlagSettled(s, Some(g), true, others);
  }

  lemma ThrottleTop(s: Cpu, others: int)
    requires Valid(s, others)
    ensures Valid(Throttle(s, None), others) && Throttle(s, None).rq == SetThrottled(s, None, true).rq
    ensures Throttle(s, None).onList == s.onList && TopSwitched(s, Throttle(s, None), true, others)
  {
    hide Tree, QueueOk, Settled;
    var u := SetThrottled(s, None, true);
    FlagKeepsInv(s, None, true);
    FlagSettled(s, None, true, others);
    TopKeepsInv(u, DequeueTop(u).rtQueued, DequeueTop(u).nrRunning);
    TopStaysSettled(u, DequeueTop(u));
  }

  /* The top queue's flags say nothing about groups. */
  lemma TopStaysSettled(s: Cpu, t: Cpu)
    requires forall x :: x in s.parent ==> Settled(s, x)
    requires t.rq == s.rq && t.onList == s.onList && t.parent == s.parent
    ensures forall x :: x in t.parent ==> Settled(t, x)
  {
    forall x | x in t.parent ensures Settled(t, x) {
      assert Settled(s, x);
    }
  }

  /* Release keeps the invariant, and puts the group back if it has anything to run. */
  lemma UnthrottleKeepsValid(s: Cpu, q: Queue, others: int)
    requires Valid(s, others) && q in s.rq
    ensures Valid(Unthrottle(s, q), others) && Unthrottle(s, q).rq.Keys == s.rq.Keys
    ensures Unthrottle(s, q).rq[q] == s.rq[q].(rtThrottled := false)
    ensures q.Some? ==> q.value in s.parent && (q.value in Unthrottle(s, q).onList <==> s.rq[q].rtNrRunning != 0)
    ensures forall t :: t in s.prio ==> (t in Unthrottle(s, q).onList <==> t in s.onList)
    ensures if q.Some? then Switched(s, Unthrottle(s, q), q.value, false)
            else TopSwitched(s, Unthrottle(s, q), false, others)
  {
    hide Tree, QueueOk;
    match q
    case Some(g) => UnthrottleGroup(s, g, others);
    case None =>
      NrBounds(s, q);
      UnthrottleTop(s, others);
  }

  lemma UnthrottleGroup(s: Cpu, g: Se, others: int)
    requires Valid(s, others) && Some(g) in s.rq
    ensures var t := Unthrottle(s, Some(g));
      && Valid(t, others) && t.rq.Keys == s.rq.Keys && t.rq[Some(g)] == s.rq[Some(g)].(rtThrottled := false)
      && (g in t.onList <==> s.rq[Some(g)].rtNrRunning != 0)
      && (forall x :: x in s.prio ==> (x in t.onList <==> x in s.onList))
      && g in s.parent && Switched(s, t, g, false)
  {
    hide Tree, QueueOk, Effect, EnqueueRtEntity;
    var u := SetThrottled(s, Some(g), false);
    FlagKeepsInv(s, Some(g), false);
    FlagSettled(s, Some(g), false, others);
    NrBounds(s, Some(g));
    OwnerExists(s, g);
    assert Settled(s, g);
    if g in s.onList {
      assert u.rq == s.rq;
    } else if s.rq[Some(g)].rtNrRunning != 0 {
      EnqueueEffect(u, g, false, others);
      GroupEffect(u, EnqueueRtEntity(u, g, false), g, false, true);
    }
  }

  lemma UnthrottleTop(s: Cpu, others: int)
    requires Valid(s, others)
    ensures Valid(Unthrottle(s, None), others) && TopSwitched(s, Unthrottle(s, None), false, others)
  {
    hide Tree, QueueOk, Settled;
    var u := SetThrottled(s, None, false);
    FlagKeepsInv(s, None, false);
    FlagSettled(s, None, false, others);
    NrBounds(s, None);
    TopKeepsInv(u, Unthrottle(s, None).rtQueued, Unthrottle(s, None).nrRunning);
    TopStaysSettled(u, Unthrottle(s, None));
  }

  /* A group's chain holds no tasks. */
  lemma {:induction false} ChainOfGroups(s: Cpu, g: Se)
    requires Tree(s) && g in s.parent && IsGroup(s, g)
    ensures forall x :: x in Path(s.parent, s.level, g) ==> x !in s.prio
    decreases s.level[g]
  {
    if s.parent[g].Some? {
      assert IsGroup(s, s.parent[g].value);
      ChainOfGroups(s, s.parent[g].value);
    }
  }
}
