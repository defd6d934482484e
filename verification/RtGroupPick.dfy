/**
 The RT class with groups, continued: what the caches mean. The top queue's best priority is the
 best among all runnable tasks, and its count is the number of them.
 */
module RtGroupPick {
  import opened Util
  import opened RtGroup
  import opened RtGroupOps

  /* No group that encloses e is throttled. */
  ghost predicate Unblocked(s: Cpu, e: Se)
    requires Tree(s) && e in s.parent
    decreases s.level[e]
  {
    match s.parent[e] case None => true
    case Some(g) => !s.rq[Some(g)].rtThrottled && Unblocked(s, g)
  }

  /* A task that may run as far as the groups around it are concerned. */
  ghost predicate Eligible(s: Cpu, t: Se)
    requires Tree(s)
  {
    t in s.prio && t in s.onList && Unblocked(s, t)
  }

  /* The head of the first FIFO that is not empty. */
  function PickNextRtEntity(r: RtRq): Se
    requires ArrayOk(r) && r.rtNrRunning != 0 && exists k :: 0 <= k < MAX_RT_PRIO && r.bitmap[k]
  {
    r.fifo[FindFirstBit(r.bitmap, 0)][0]
  }

  /* Every queued entity that is unblocked stands no better than the cached best of the top queue,
     and every group around it is itself queued. */
  lemma {:induction false} BestIsLeast(s: Cpu, others: int, e: Se)
    requires Valid(s, others) && e in s.onList && Unblocked(s, e)
    ensures s.rq[None].highestPrioCurr <= Prio(s, e)
    ensures forall x :: x in Path(s.parent, s.level, e) ==> x in s.onList
    decreases s.level[e]
  {
    var q := s.parent[e];
    assert QueueOk(s, q) && e in Weights(s, q);
    assert s.rq[q].bitmap[Prio(s, e)];
    if q.Some? {
      NrBounds(s, q);
      assert Settled(s, q.value);
      BestIsLeast(s, others, q.value);
    }
  }

  /* The groups that can still be met below q; the descent of the pick shrinks it. */
  ghost function Deeper(s: Cpu, q: Queue): set<Se>
    requires Forest(s.parent, s.level)
  {
    set g | g in s.parent && Some(g) in s.rq && (q.Some? && q.value in s.level ==> s.level[g] > s.level[q.value])
  }

  /* _pick_next_task_rt from queue q down. Its preconditions are the two BUG_ONs: a queue it looks
     at is never empty. */
  ghost function Pick(s: Cpu, others: int, q: Queue): (t: Se)
    requires Valid(s, others) && q in s.rq && s.rq[q].rtNrRunning != 0
    ensures t in s.prio && t in s.onList && s.prio[t] == s.rq[q].highestPrioCurr
    ensures q == None || (!s.rq[q].rtThrottled && q.value in s.parent && Unblocked(s, q.value)) ==> Unblocked(s, t)
    decreases Deeper(s, q)
  {
    PickStep(s, others, q);
    var e := PickNextRtEntity(s.rq[q]);
    if IsGroup(s, e) then Pick(s, others, Some(e)) else e
  }

  lemma PickStep(s: Cpu, others: int, q: Queue)
    requires Valid(s, others) && q in s.rq && s.rq[q].rtNrRunning != 0
    ensures ArrayOk(s.rq[q]) && 0 <= s.rq[q].highestPrioCurr < MAX_RT_PRIO
    ensures s.rq[q].bitmap[s.rq[q].highestPrioCurr]
    ensures var e := PickNextRtEntity(s.rq[q]);
      && e in s.onList && e in s.parent && s.parent[e] == q && Prio(s, e) == s.rq[q].highestPrioCurr
      && (IsGroup(s, e) ==>
            && s.rq[Some(e)].rtNrRunning != 0 && !s.rq[Some(e)].rtThrottled
            && Deeper(s, Some(e)) < Deeper(s, q))
      && (!IsGroup(s, e) ==> e in s.prio)
  {
    var r := s.rq[q];
    NrBounds(s, q);
    assert QueueOk(s, q);
    assert FindFirstBit(r.bitmap, 0) == r.highestPrioCurr;
    var e := PickNextRtEntity(r);
    assert e in r.fifo[r.highestPrioCurr];
    assert e in Weights(s, q);
    assert Settled(s, e);
    if IsGroup(s, e) {
      assert e in Deeper(s, q) && e !in Deeper(s, Some(e));
    }
  }

  /* pick_next_task_rt: whenever the top queue is queued, the task returned is eligible and has
     the least priority value among all eligible tasks. */
  lemma PickIsBest(s: Cpu, others: int)
    requires Valid(s, others) && s.rtQueued
    ensures s.rq[None].rtNrRunning != 0 && Eligible(s, Pick(s, others, None))
    ensures forall t :: Eligible(s, t) ==> s.prio[Pick(s, others, None)] <= s.prio[t]
  {
    forall t | Eligible(s, t) ensures s.rq[None].highestPrioCurr <= s.prio[t] {
      BestIsLeast(s, others, t);
    }
  }

  /* e is first in the FIFO of its priority. */
  ghost predicate First(s: Cpu, e: Se) {
    && e in s.parent && s.parent[e] in s.rq && 0 <= Prio(s, e) < |s.rq[s.parent[e]].fifo|
    && var fifo := s.rq[s.parent[e]].fifo[Prio(s, e)];
      (fifo != [] && fifo[0] == e)
  }

  /* Within one priority the order is first in, first out, at every level: the task returned and
     all groups around it head their FIFOs. */
  lemma {:induction false} PickIsFirst(s: Cpu, others: int, q: Queue)
    requires Valid(s, others) && q in s.rq && s.rq[q].rtNrRunning != 0
    requires q.Some? ==> q.value in s.parent && forall x :: x in Path(s.parent, s.level, q.value) ==> First(s, x)
    ensures forall x :: x in Path(s.parent, s.level, Pick(s, others, q)) ==> First(s, x)
    decreases Deeper(s, q)
  {
    hide First;
    PickStep(s, others, q);
    var e := PickNextRtEntity(s.rq[q]);
    NextIsFirst(s, others, q);
    assert Path(s.parent, s.level, e) == {e} + if q.Some? then Path(s.parent, s.level, q.value) else {};
    if IsGroup(s, e) { PickIsFirst(s, others, Some(e)); }
  }

  lemma NextIsFirst(s: Cpu, others: int, q: Queue)
    requires Valid(s, others) && q in s.rq && s.rq[q].rtNrRunning != 0
    ensures ArrayOk(s.rq[q]) && (exists k :: 0 <= k < MAX_RT_PRIO && s.rq[q].bitmap[k])
    ensures First(s, PickNextRtEntity(s.rq[q]))
  {
    PickStep(s, others, q);
    assert FindFirstBit(s.rq[q].bitmap, 0) == s.rq[q].highestPrioCurr by { NrBounds(s, q); assert QueueOk(s, q); }
  }

  // ----- the count

  /* t is queued below e, or is e, and so are all the groups in between. */
  ghost predicate Via(s: Cpu, t: Se, e: Se)
    requires Forest(s.parent, s.level) && t in s.parent
    decreases s.level[t]
  {
    t in s.onList && (t == e || (s.parent[t].Some? && Via(s, s.parent[t].value, e)))
  }

  /* The tasks that reach one of es that way. */
  ghost function TasksVia(s: Cpu, es: set<Se>): set<Se>
    requires Forest(s.parent, s.level)
  {
    set t | t in s.prio && t in s.parent && exists e :: e in es && Via(s, t, e)
  }

  /* The tasks queued on q or below, with all groups in between queued as well. */
  ghost function TasksBelow(s: Cpu, q: Queue): set<Se>
    requires Forest(s.parent, s.level)
  {
    TasksVia(s, Weights(s, q).Keys)
  }

  lemma {:induction false} ViaUnique(s: Cpu, t: Se, e: Se, f: Se)
    requires Forest(s.parent, s.level) && t in s.parent && Via(s, t, e) && Via(s, t, f)
    requires e in s.parent && f in s.parent && s.parent[e] == s.parent[f]
    ensures e == f
    decreases s.level[t]
  {
    if t == e || t == f {
      ViaLevel(s, t, e);
      ViaLevel(s, t, f);
    } else {
      ViaUnique(s, s.parent[t].value, e, f);
    }
  }

  lemma {:induction false} ViaLevel(s: Cpu, t: Se, e: Se)
    requires Forest(s.parent, s.level) && t in s.parent && e in s.parent && Via(s, t, e)
    ensures s.level[e] <= s.level[t] && (s.level[e] == s.level[t] ==> e == t)
    ensures t != e ==> s.parent[t].Some?
    decreases s.level[t]
  {
    if t != e { ViaLevel(s, s.parent[t].value, e); }
  }

  /* A queue's rt_nr_running is the number of tasks queued on it or below it. */
  lemma {:induction false} NrCountsTasks(s: Cpu, q: Queue)
    requires Inv(s) && q in s.rq
    ensures s.rq[q].rtNrRunning == |TasksBelow(s, q)|
    decreases Deeper(s, q), 2, 0
  {
    assert QueueOk(s, q);
    PartCountsTasks(s, q, Weights(s, q));
  }

  lemma {:induction false} PartCountsTasks(s: Cpu, q: Queue, w: map<Se, int>)
    requires Inv(s) && q in s.rq
    requires w.Keys <= Weights(s, q).Keys && forall e :: e in w ==> w[e] == Nr(s, e)
    ensures SumMap(w) == |TasksVia(s, w.Keys)|
    decreases Deeper(s, q), 1, |w|
  {
    hide SumMap, Via, Nr;
    if w == map[] {
      SumMapEmpty<Se>();
      assert TasksVia(s, w.Keys) == {};
    } else {
      var e :| e in w;
      SumMapRemove(w, e);
      PartCountsTasks(s, q, w - {e});
      EntityCountsTasks(s, q, e);
      assert (w - {e}).Keys == w.Keys - {e};
      TasksSplit(s, q, w.Keys, e);
    }
  }

  lemma TasksSplit(s: Cpu, q: Queue, es: set<Se>, e: Se)
    requires Inv(s) && q in s.rq && es <= Weights(s, q).Keys && e in es
    ensures |TasksVia(s, es)| == |TasksVia(s, es - {e})| + |TasksVia(s, {e})|
  {
    var rest, mine := TasksVia(s, es - {e}), TasksVia(s, {e});
    assert TasksVia(s, es) == rest + mine;
    forall t | t in rest ensures t !in mine {
      var f :| f in es - {e} && Via(s, t, f);
      if Via(s, t, e) { ViaUnique(s, t, e, f); }
    }
  }

  lemma {:induction false} EntityCountsTasks(s: Cpu, q: Queue, e: Se)
    requires Inv(s) && q in s.rq && e in Weights(s, q)
    ensures Nr(s, e) == |TasksVia(s, {e})|
    decreases Deeper(s, q), 0, 0
  {
    if IsGroup(s, e) {
      assert e in Deeper(s, q) && e !in Deeper(s, Some(e));
      NrCountsTasks(s, Some(e));
      forall t | t in s.prio && t in s.parent
        ensures t in TasksVia(s, {e}) <==> t in TasksBelow(s, Some(e))
      {
        GroupVia(s, t, e);
      }
      assert TasksVia(s, {e}) == TasksBelow(s, Some(e));
    } else {
      forall t | t in s.prio && t in s.parent ensures t in TasksVia(s, {e}) <==> t == e {
        TaskVia(s, t, e);
      }
      assert TasksVia(s, {e}) == {e};
    }
  }

  /* Reaching a group from strictly below means reaching one of the entities queued on it. */
  lemma {:induction false} GroupVia(s: Cpu, t: Se, g: Se)
    requires Inv(s) && t in s.parent && g in s.onList && IsGroup(s, g)
    ensures Via(s, t, g) && t != g ==> exists e :: e in Weights(s, Some(g)) && Via(s, t, e)
    ensures (exists e :: e in Weights(s, Some(g)) && Via(s, t, e)) ==> Via(s, t, g)
    decreases s.level[t]
  {
    if t in s.onList && s.parent[t].Some? {
      var p := s.parent[t].value;
      GroupVia(s, p, g);
      if p == g { assert t in Weights(s, Some(g)); }
    }
  }

  lemma {:induction false} TaskVia(s: Cpu, t: Se, e: Se)
    requires Inv(s) && t in s.parent && e in s.prio && e in s.onList
    ensures Via(s, t, e) <==> t == e
    decreases s.level[t]
  {
    if s.parent[t].Some? {
      assert IsGroup(s, s.parent[t].value);
      TaskVia(s, s.parent[t].value, e);
    }
  }
}
