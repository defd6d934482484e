/**
 The circular scheduling class as it runs: the hooks of circular.c over the pointer ring, each
 proved to compute the step of its name in RoundRobin.
 */
module Circular {
  import opened Util
  import opened CircList
  import RR = RoundRobin

  /* struct circ_rq, with the runqueue's own count. */
  class CircRq {
    const circList: CircularList
    var curr: Entity?
    var nrRunning: int
    var hNrRunning: int
    var rqNrRunning: int         // rq->nr_running
    ghost var others: nat        // what the other classes add to rq->nr_running
    var members: set<Entity>     // the tasks whose sched_class is this one

    ghost function S(): RR.Circ<Entity>
      reads this, circList, members
    {
      RR.Circ(circList.nodes, if curr == null then None else Some(curr), set e | e in members && e.onRq)
    }

    /* The list is a ring of exactly the queued entities other than curr, and the class's counters
       are the number of queued entities. */
    ghost predicate RingValid()
      reads this, circList, members, circList.nodes`next, circList.nodes`prev
    {
      && circList.Valid() && RR.CircOk(S())
      && (forall e :: e in circList.nodes ==> e in members) && (curr != null ==> curr in members)
      && nrRunning == hNrRunning == |S().onRq|
    }

    /* So is the class's part of the runqueue's counter. */
    ghost predicate Valid()
      reads this, circList, members, circList.nodes`next, circList.nodes`prev
    {
      RingValid() && rqNrRunning == others + |S().onRq|
    }

    constructor (others: nat)
      ensures Valid() && fresh(circList) && S() == RR.Circ([], None, {}) && this.others == others && members == {}
    {
      circList := new CircularList();
      curr, nrRunning, hNrRunning, rqNrRunning := null, 0, 0, others;
      this.others := others;
      members := {};
    }

    /* __enqueue_entity: in front of the head, so at the tail. */
    method EnqueueNode(se: Entity)
      requires circList.Valid() && se !in circList.nodes
      modifies circList, circList.nodes`next, circList.nodes`prev, se`next, se`prev
      ensures circList.Valid() && circList.nodes == old(circList.nodes) + [se]
    {
      var link := circList.head;
      circList.Insert(link, se);
    }

    /* enqueue_entity. */
    method EnqueueEntity(se: Entity)
      requires circList.Valid() && (se != curr ==> se !in circList.nodes)
      modifies this`nrRunning, circList, circList.nodes`next, circList.nodes`prev, se
      ensures circList.Valid() && nrRunning == old(nrRunning) + 1 && se.onRq
      ensures circList.nodes == if se == curr then old(circList.nodes) else old(circList.nodes) + [se]
    {
      hide Distinct, Ring;
      nrRunning := nrRunning + 1;
      if se != curr { EnqueueNode(se); }
      se.onRq := true;
    }

    /* enqueue_task_circular. Called on a task that is queued already it still adds to the
       runqueue's count. */
    method EnqueueTask(se: Entity)
      requires Valid() && se in members
      modifies this`nrRunning, this`hNrRunning, this`rqNrRunning, circList, members
      ensures S() == RR.Enqueue(old(S()), se)
      ensures Valid() <==> !old(se.onRq)
      ensures se.onRq && rqNrRunning == old(rqNrRunning) + 1
    {
      hide RR.CircOk, CircularList.Valid;
      var _ := circList.Traverse();
      if !se.onRq { EnqueueOnce(se); }
      rqNrRunning := rqNrRunning + 1;
    }

    /* The body of its for_each_sched_entity. */
    method EnqueueOnce(se: Entity)
      requires RingValid() && se in members && !se.onRq
      modifies this`nrRunning, this`hNrRunning, circList, members
      ensures RingValid() && se.onRq && S() == RR.Enqueue(old(S()), se) && |S().onRq| == |old(S()).onRq| + 1
    {
      hide Distinct, Ring, CircularList.Valid, RR.CircOk, RR.Enqueue;
      ghost var s := S();
      EnqueueFacts(se);
      Quiet(se);
      EnqueueEntity(se);
      hNrRunning := hNrRunning + 1;
      assert S().onRq == s.onRq + {se};
      assert S() == RR.Enqueue(s, se);
    }

    lemma EnqueueFacts(se: Entity)
      requires RingValid() && se in members && !se.onRq
      ensures RR.CircOk(RR.Enqueue(S(), se)) && se !in S().onRq
      ensures RR.Enqueue(S(), se) ==
        RR.Circ(if se == curr then circList.nodes else circList.nodes + [se], S().curr, S().onRq + {se})
      ensures forall e :: e in RR.Enqueue(S(), se).ring ==> e in members
    {
      RR.HooksKeepOk(S(), se);
    }

    /* An entity that is not queued is not in the ring, and the running one never is. */
    lemma Quiet(se: Entity)
      requires RingValid()
      ensures !se.onRq || se == curr ==> se !in circList.nodes
      ensures se.onRq && se != curr && se in members ==> se in circList.nodes
    {
    }

    /* dequeue_entity. */
    method DequeueEntity(se: Entity)
      requires circList.Valid() && (se != curr ==> se in circList.nodes)
      modifies this`nrRunning, circList, circList.nodes`next, circList.nodes`prev, se`onRq
      ensures circList.Valid() && nrRunning == old(nrRunning) - 1 && !se.onRq
      ensures circList.nodes == if se == curr then old(circList.nodes) else Without(old(circList.nodes), se)
    {
      hide Distinct, Ring;
      if se != curr { circList.Remove(se); }
      se.onRq := false;
      nrRunning := nrRunning - 1;
    }

    /* dequeue_task_circular. Its search through the ring ends because the task is queued. */
    method DequeueTask(se: Entity)
      requires Valid() && se in members && se.onRq
      modifies this`nrRunning, this`hNrRunning, this`rqNrRunning, circList, members
      ensures Valid() && S() == RR.Dequeue(old(S()), se)
      ensures !se.onRq && rqNrRunning == old(rqNrRunning) - 1
    {
      hide RR.CircOk, CircularList.Valid;
      var _ := circList.Traverse();
      DequeueOnce(se);
      ghost var s := S();
      rqNrRunning := rqNrRunning - 1;
      assert S().onRq == s.onRq;
    }

    /* The body of its for_each_sched_entity. */
    method DequeueOnce(se: Entity)
      requires RingValid() && se in members && se.onRq
      modifies this`nrRunning, this`hNrRunning, circList, members
      ensures RingValid() && !se.onRq && S() == RR.Dequeue(old(S()), se) && |S().onRq| == |old(S()).onRq| - 1
    {
      hide Distinct, Ring, CircularList.Valid, RR.CircOk, RR.Dequeue, Without;
      ghost var s := S();
      DequeueFacts(se);
      Quiet(se);
      DequeueEntity(se);
      hNrRunning := hNrRunning - 1;
      assert S().onRq == s.onRq - {se};
      assert S() == RR.Dequeue(s, se);
    }

    lemma DequeueFacts(se: Entity)
      requires RingValid() && se in members && se.onRq
      ensures RR.CircOk(RR.Dequeue(S(), se)) && se in S().onRq
      ensures RR.Dequeue(S(), se) ==
        RR.Circ(if se == curr then circList.nodes else Without(circList.nodes, se), S().curr, S().onRq - {se})
      ensures forall e :: e in RR.Dequeue(S(), se).ring ==> e in members
    {
      RR.HooksKeepOk(S(), se);
      WithoutMembers(circList.nodes, se);
    }

    /* put_prev_entity for the entity that ran. */
    method PutPrevTask(prev: Entity)
      requires Valid() && prev == curr
      modifies this`curr, circList, circList.nodes`next, circList.nodes`prev, prev`next, prev`prev
      ensures Valid() && S() == RR.PutPrev(old(S()), prev) && curr == null
    {
      hide Distinct, Ring, CircularList.Valid, RR.CircOk, RR.PutPrev;
      ghost var s := S();
      PutPrevFacts(prev);
      if prev.onRq { EnqueueNode(prev); }
      curr := null;
      assert S().onRq == s.onRq;
      assert S() == RR.PutPrev(s, prev);
    }

    lemma PutPrevFacts(prev: Entity)
      requires RingValid() && prev == curr
      ensures prev !in circList.nodes && RR.CircOk(RR.PutPrev(S(), prev))
      ensures RR.PutPrev(S(), prev) ==
        RR.Circ(if prev.onRq then circList.nodes + [prev] else circList.nodes, None, S().onRq)
      ensures forall e :: e in RR.PutPrev(S(), prev).ring ==> e in members
    {
    }

    /* set_next_entity: the running entity is kept out of the ring. Also set_curr_task_circular. */
    method SetNextEntity(se: Entity)
      requires Valid() && se in members && curr == null
      modifies this`curr, circList, circList.nodes`next, circList.nodes`prev
      ensures Valid() && S() == RR.SetNext(old(S()), se)
    {
      hide Distinct, Ring, CircularList.Valid, RR.CircOk, RR.SetNext;
      ghost var s := S();
      SetNextFacts(se);
      if se.onRq { circList.Remove(se); }
      curr := se;
      assert S().onRq == s.onRq;
      assert S() == RR.SetNext(s, se);
    }

    lemma SetNextFacts(se: Entity)
      requires RingValid() && se in members && curr == null
      ensures se.onRq ==> se in circList.nodes
      ensures RR.CircOk(RR.SetNext(S(), se))
      ensures RR.SetNext(S(), se) ==
        RR.Circ(if se.onRq then Without(circList.nodes, se) else circList.nodes, Some(se), S().onRq)
      ensures forall e :: e in RR.SetNext(S(), se).ring ==> e in members
    {
      RR.HooksKeepOk(S(), se);
      WithoutMembers(circList.nodes, se);
    }

    /* pick_next_task_circular. prev is the task that ran, or null if another class ran it. With
       something queued the ring is not empty after put_prev, so the branch that falls back to curr
       is never taken. */
    method PickNextTask(prev: Entity?) returns (p: Entity?)
      requires Valid() && prev == curr
      modifies this`curr, circList, circList.nodes`next, circList.nodes`prev, Nodes(prev)`next, Nodes(prev)`prev
      ensures Valid()
      ensures S() == RR.PickNext(old(S()), Maybe(prev)).0
      ensures Maybe(p) == RR.PickNext(old(S()), Maybe(prev)).1
      ensures p == null <==> old(nrRunning) == 0
    {
      hide Distinct, Ring, CircularList.Valid, RR.SetNext, RR.CircOk;
      ghost var s := S();
      if nrRunning == 0 {
        assert s.onRq == {};
        return null;
      }
      assert s.onRq != {};
      if prev != null { PutPrevTask(prev); }
      ghost var u := S();
      assert u == match Maybe(prev) case None => s case Some(x) => RR.PutPrev(s, x);
      var se := circList.head;
      HeadOf();
      assert forall e :: e in circList.nodes ==> e in old(circList.nodes) || e == prev;
      if se == null {
        p := curr;
      } else {
        SetNextEntity(se);
        p := se;
      }
      var _ := circList.Traverse();
    }

    ghost function Maybe(p: Entity?): Option<Entity> {
      if p == null then None else Some(p)
    }

    lemma HeadOf()
      requires Valid()
      ensures circList.head == if circList.nodes == [] then null else circList.nodes[0]
      ensures curr == null && nrRunning > 0 ==> circList.nodes != []
      ensures circList.nodes != [] ==> circList.nodes[0] in members
    {
    }

    /* A task that is not queued and does not run enters or leaves the class. */
    method SetMember(se: Entity, member: bool)
      requires Valid() && !se.onRq && se != curr
      modifies this`members
      ensures Valid() && S() == old(S())
      ensures members == if member then old(members) + {se} else old(members) - {se}
    {
      ghost var s := S();
      members := if member then members + {se} else members - {se};
      assert S().onRq == s.onRq;
    }

    lemma NodesAreMembers()
      requires Valid()
      ensures forall e :: e in circList.nodes ==> e in members
    {
    }

    /* add_nr_running and sub_nr_running in another class. */
    method CountOther(more: bool)
      requires Valid() && (more || others > 0)
      modifies this`rqNrRunning, this`others
      ensures Valid() && S() == old(S())
      ensures others == if more then old(others) + 1 else old(others) - 1
      ensures rqNrRunning - others == old(rqNrRunning) - old(others)
    {
      hide Distinct, Ring, RR.CircOk;
      ghost var s := S();
      rqNrRunning := if more then rqNrRunning + 1 else rqNrRunning - 1;
      others := if more then others + 1 else others - 1;
      assert S().onRq == s.onRq;
    }
  }

  /* struct rq, as far as a change of class sees it. */
  class Runqueue {
    const circ: CircRq
    const curr: Entity             // rq->curr
    var otherQueued: set<Entity>   // the queued tasks of all other classes
    var tasks: set<Entity>

    ghost function R(): RR.Rq<Entity>
      reads this, circ, circ.circList, circ.members
    {
      RR.Rq(circ.S(), curr, circ.members, otherQueued)
    }

    /* Only tasks of the class have on_rq of their circular entity set. */
    ghost predicate Open()
      reads this, circ, circ.circList, circ.members, circ.circList.nodes`next, circ.circList.nodes`prev, tasks
    {
      && circ.Valid() && circ.others == |otherQueued| && circ.members <= tasks && otherQueued <= tasks
      && (forall e :: e in tasks && e !in circ.members ==> !e.onRq)
    }

    ghost predicate Valid()
      reads this, circ, circ.circList, circ.members, circ.circList.nodes`next, circ.circList.nodes`prev, tasks
    {
      Open() && RR.Ok(R()) && curr in tasks
    }

    /* The idle task runs. */
    constructor (idle: Entity)
      requires !idle.onRq
      ensures Valid() && fresh(circ) && fresh(circ.circList) && R() == RR.Rq(RR.Circ([], None, {}), idle, {}, {})
      ensures tasks == {idle}
    {
      circ := new CircRq(0);
      curr, otherQueued, tasks := idle, {}, {idle};
    }

    /* __sched_fork and sched_fork: a new task, of this class or another, not queued yet. */
    method Fork(p: Entity, toCirc: bool)
      requires Valid() && p !in tasks
      modifies this`tasks, circ`members, p`onRq
      ensures Valid() && tasks == old(tasks) + {p}
      ensures R() == old(R()).(circular := if toCirc then old(circ.members) + {p} else old(circ.members))
    {
      hide CircularList.Valid, RR.CircOk;
      ghost var s := circ.S();
      p.onRq := false;
      assert circ.S().onRq == s.onRq;
      if toCirc { circ.SetMember(p, true); }
      tasks := tasks + {p};
    }

    /* The bracket of __sched_setscheduler, rt_mutex_setprio and sched_move_task. The hooks of the
       other classes touch the runqueue's count only. */
    method Change(p: Entity, toCirc: bool)
      requires Valid() && p in tasks
      modifies this`otherQueued, circ, circ.circList, tasks
      ensures Valid() && R() == RR.Change(old(R()), p, toCirc) && tasks == old(tasks)
      ensures circ.rqNrRunning == old(circ.rqNrRunning)
    {
      hide Open, RR.Ok, RR.Kept, RR.ClassDequeue, RR.ClassPutPrev, RR.ClassSetCurr, RR.ClassEnqueue;
      RR.ChangeKeepsOk(R(), p, toCirc);
      StaysOk(R(), p, toCirc);
      Placing(p);
      var queued, running := p.onRq || p in otherQueued, p == curr;
      if queued { DequeueTask(p); }
      if running { PutPrevTask(p); }
      SetClass(p, toCirc);
      if running { SetCurrTask(p); }
      if queued { EnqueueTask(p); }
    }

    lemma StaysOk(r: RR.Rq<Entity>, p: Entity, toCirc: bool)
      requires RR.Kept(r, RR.Change(r, p, toCirc), p, toCirc)
      ensures RR.Ok(RR.Change(r, p, toCirc))
    {
    }

    lemma Placing(p: Entity)
      requires Valid() && p in tasks
      ensures p.onRq || p in otherQueued <==> RR.Queued(R(), p)
      ensures (p.onRq ==> p in circ.members && p !in otherQueued) && (p in otherQueued ==> p !in circ.members)
      ensures circ.curr == if curr in circ.members then curr else null
    {
    }

    /* dequeue_task through p's class. */
    method DequeueTask(p: Entity)
      requires Open() && p in tasks && if p in circ.members then p.onRq && p !in otherQueued else p in otherQueued
      modifies this`otherQueued, circ`nrRunning, circ`hNrRunning, circ`rqNrRunning, circ`others, circ.circList, tasks
      ensures Open() && R() == RR.ClassDequeue(old(R()), p)
      ensures !p.onRq && p !in otherQueued && circ.rqNrRunning == old(circ.rqNrRunning) - 1
    {
      hide CircRq.Valid, RR.Dequeue;
      if p in circ.members {
        circ.DequeueTask(p);
      } else {
        circ.CountOther(false);
        otherQueued := otherQueued - {p};
      }
    }

    /* put_prev_task through p's class. */
    method PutPrevTask(p: Entity)
      requires Open() && p in tasks && (p in circ.members <==> p == circ.curr)
      modifies circ`curr, circ.circList, tasks`next, tasks`prev
      ensures Open() && R() == RR.ClassPutPrev(old(R()), p) && p != circ.curr
      ensures circ.curr == if p in circ.members then null else old(circ.curr)
    {
      hide CircRq.Valid, RR.PutPrev;
      circ.NodesAreMembers();
      if p in circ.members { circ.PutPrevTask(p); }
    }

    /* __setscheduler, as far as the class goes. */
    method SetClass(p: Entity, toCirc: bool)
      requires Open() && p in tasks && !p.onRq && p != circ.curr
      modifies circ`members
      ensures Open()
      ensures R() == old(R()).(circular := if toCirc then old(circ.members) + {p} else old(circ.members) - {p})
    {
      hide CircRq.Valid;
      circ.SetMember(p, toCirc);
    }

    /* set_curr_task through p's class. */
    method SetCurrTask(p: Entity)
      requires Open() && p in tasks && circ.curr == null
      modifies circ`curr, circ.circList, tasks`next, tasks`prev
      ensures Open() && R() == RR.ClassSetCurr(old(R()), p)
    {
      hide CircRq.Valid, RR.SetNext;
      circ.NodesAreMembers();
      if p in circ.members { circ.SetNextEntity(p); }
    }

    /* enqueue_task through p's class. */
    method EnqueueTask(p: Entity)
      requires Open() && p in tasks && !p.onRq && p !in otherQueued
      modifies this`otherQueued, circ`nrRunning, circ`hNrRunning, circ`rqNrRunning, circ`others, circ.circList, tasks
      ensures Open() && R() == RR.ClassEnqueue(old(R()), p)
      ensures circ.rqNrRunning == old(circ.rqNrRunning) + 1
    {
      hide CircRq.Valid, RR.Enqueue;
      if p in circ.members {
        circ.EnqueueTask(p);
      } else {
        circ.CountOther(true);
        otherQueued := otherQueued + {p};
      }
    }
  }
}
