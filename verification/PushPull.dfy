/**
 Push and pull balancing of RT tasks (SMP, no RT groups): each runqueue keeps indexes of its RT
 tasks, the root domain those of the overloaded runqueues. Every operation keeps them equal to what
 they stand for, and what push and pull achieve follows.
 */
module PushPull {
  import opened Util

  type Task = nat
  type Cpu = nat

  const MAX_RT_PRIO: int := 100

  /* A runqueue as the RT class sees it. queued: the tasks in the priority array; highest and next:
     highest_prio; total, migratory: rt_nr_total, rt_nr_migratory; curr: rq->curr, of any class. */
  datatype RtQueue = RtQueue(queued: set<Task>, highest: int, next: int, total: int, migratory: int, overloaded: bool,
                   pushable: seq<Task>, curr: Task, online: bool)

  /* What belongs to the tasks: p->prio and p->cpus_allowed. */
  datatype Env = Env(prio: map<Task, int>, allowed: map<Task, set<Cpu>>)

  predicate Mobile(e: Env, p: Task)
    requires p in e.allowed
  {
    |e.allowed[p]| > 1
  }

  // ----- what the indexes stand for

  /* The tasks of the priority array are RT tasks. */
  ghost predicate Known(e: Env, r: RtQueue) {
    && e.allowed.Keys == e.prio.Keys && r.curr in e.prio
    && forall p :: p in r.queued ==> p in e.prio && 0 <= e.prio[p] < MAX_RT_PRIO
  }

  ghost predicate IsBest(e: Env, s: set<Task>, best: int)
    requires forall p :: p in s ==> p in e.prio
  {
    && (forall p :: p in s ==> best <= e.prio[p]) && best <= MAX_RT_PRIO
    && (best == MAX_RT_PRIO || exists p :: p in s && e.prio[p] == best)
  }

  ghost function Movable(e: Env, s: set<Task>): set<Task>
    requires forall p :: p in s ==> p in e.allowed
  {
    set p | p in s && Mobile(e, p)
  }

  ghost predicate Counted(e: Env, r: RtQueue)
    requires Known(e, r)
  {
    IsBest(e, r.queued, r.highest) && r.total == |r.queued| && r.migratory == |Movable(e, r.queued)|
  }

  predicate Flagged(r: RtQueue) {
    r.overloaded <==> r.migratory >= 1 && r.total > 1
  }

  ghost predicate Sorted(e: Env, s: seq<Task>) {
    && (forall p :: p in s ==> p in e.prio)
    && forall i, j :: 0 <= i < j < |s| ==> e.prio[s[i]] <= e.prio[s[j]]
  }

  /* The list of pushable tasks in itself, and with the tasks it should hold. */
  ghost predicate Listed(e: Env, r: RtQueue) {
    && Distinct(r.pushable) && Sorted(e, r.pushable) && (forall p :: p in r.pushable ==> e.prio[p] < MAX_RT_PRIO)
    && r.next == if r.pushable == [] then MAX_RT_PRIO else e.prio[r.pushable[0]]
  }

  ghost predicate Holds(r: RtQueue, s: set<Task>) {
    forall p :: p in r.pushable <==> p in s
  }

  ghost function Pushable(e: Env, r: RtQueue): set<Task>
    requires Known(e, r)
  {
    Movable(e, r.queued) - {r.curr}
  }

  ghost predicate RqOk(e: Env, r: RtQueue) {
    Known(e, r) && Counted(e, r) && Flagged(r) && Listed(e, r) && Holds(r, Pushable(e, r))
  }

  // ----- plist

  /* plist_add: behind all nodes of the same or a higher priority. */
  function PlistAdd(e: Env, s: seq<Task>, p: Task): seq<Task>
    requires p in e.prio && forall q :: q in s ==> q in e.prio
  {
    if s == [] then [p]
    else if e.prio[s[0]] <= e.prio[p] then [s[0]] + PlistAdd(e, s[1..], p)
    else [p] + s
  }

  /* t is s with p behind the nodes of the same or a higher priority, before all others. */
  ghost predicate Inserted(e: Env, s: seq<Task>, t: seq<Task>, p: Task) {
    && p in e.prio && (forall q :: q in s ==> q in e.prio)
    && exists k :: 0 <= k <= |s| && t == s[..k] + [p] + s[k..] && Between(e, s, p, k)
  }

  ghost predicate Between(e: Env, s: seq<Task>, p: Task, k: nat)
    requires k <= |s| && p in e.prio && forall q :: q in s ==> q in e.prio
  {
    && (forall j :: 0 <= j < k ==> e.prio[s[j]] <= e.prio[p])
    && (forall j :: k <= j < |s| ==> e.prio[p] < e.prio[s[j]])
  }

  lemma {:induction false} PlistAddPlace(e: Env, s: seq<Task>, p: Task)
    requires p in e.prio && Sorted(e, s)
    ensures Inserted(e, s, PlistAdd(e, s, p), p)
  {
    hide Sorted;
    SortedMembers(e, s);
    if s == [] {
      assert Between(e, s, p, 0);
    } else if e.prio[p] < e.prio[s[0]] {
      BeforeAll(e, s, p);
    } else {
      SortedSplit(e, s);
      PlistAddPlace(e, s[1..], p);
      InsertedStep(e, s, PlistAdd(e, s[1..], p), p);
    }
  }

  lemma BeforeAll(e: Env, s: seq<Task>, p: Task)
    requires s != [] && Sorted(e, s) && p in e.prio && e.prio[p] < e.prio[s[0]]
    ensures Inserted(e, s, [p] + s, p)
  {
    assert [p] + s == s[..0] + [p] + s[0..];
    assert Between(e, s, p, 0);
  }

  lemma InsertedStep(e: Env, s: seq<Task>, t: seq<Task>, p: Task)
    requires s != [] && Inserted(e, s[1..], t, p) && s[0] in e.prio && e.prio[s[0]] <= e.prio[p]
    ensures Inserted(e, s, [s[0]] + t, p)
  {
    hide Between;
    var u := s[1..];
    var k :| 0 <= k <= |u| && t == u[..k] + [p] + u[k..] && Between(e, u, p, k);
    BetweenStep(e, s, p, k);
    assert s[..k + 1] == [s[0]] + u[..k] && s[k + 1..] == u[k..];
  }

  lemma BetweenStep(e: Env, s: seq<Task>, p: Task, k: nat)
    requires s != [] && k < |s| && p in e.prio && s[0] in e.prio && e.prio[s[0]] <= e.prio[p]
    requires (forall q :: q in s[1..] ==> q in e.prio) && Between(e, s[1..], p, k)
    ensures (forall q :: q in s ==> q in e.prio) && Between(e, s, p, k + 1)
  {
    assert s == [s[0]] + s[1..];
    forall j | 1 <= j < |s| ensures if j <= k then e.prio[s[j]] <= e.prio[p] else e.prio[p] < e.prio[s[j]] {
      assert s[j] == s[1..][j - 1];
    }
  }

  lemma SortedSplit(e: Env, s: seq<Task>)
    requires Sorted(e, s) && s != []
    ensures Sorted(e, s[1..]) && forall q :: q in s[1..] ==> e.prio[s[0]] <= e.prio[q]
  {
  }

  lemma SortedCons(e: Env, x: Task, s: seq<Task>)
    requires x in e.prio && Sorted(e, s) && forall q :: q in s ==> e.prio[x] <= e.prio[q]
    ensures Sorted(e, [x] + s)
  {
  }

  lemma SortedOne(e: Env, p: Task)
    requires p in e.prio
    ensures Sorted(e, [p])
  {
  }

  lemma SortedMembers(e: Env, s: seq<Task>)
    requires Sorted(e, s)
    ensures forall q :: q in s ==> q in e.prio
  {
  }

  lemma {:induction false} PlistAddKeeps(e: Env, s: seq<Task>, p: Task)
    requires p in e.prio && Sorted(e, s)
    ensures var t := PlistAdd(e, s, p);
      Sorted(e, t) && t != [] && (forall q :: q in t <==> q in s || q == p)
    ensures e.prio[PlistAdd(e, s, p)[0]] == if s == [] || e.prio[p] < e.prio[s[0]] then e.prio[p] else e.prio[s[0]]
  {
    hide Sorted;
    SortedMembers(e, s);
    if s == [] {
      SortedOne(e, p);
    } else {
      SortedSplit(e, s);
      assert s == [s[0]] + s[1..];
      if e.prio[s[0]] <= e.prio[p] {
        PlistAddKeeps(e, s[1..], p);
        SortedCons(e, s[0], PlistAdd(e, s[1..], p));
      } else {
        SortedCons(e, p, s);
      }
    }
  }

  lemma {:induction false} PlistAddDistinct(e: Env, s: seq<Task>, p: Task)
    requires p in e.prio && Sorted(e, s) && Distinct(s) && p !in s
    ensures Distinct(PlistAdd(e, s, p))
  {
    if s != [] {
      SortedSplit(e, s);
      assert s == [s[0]] + s[1..];
      assert s[0] !in s[1..];
      PlistAddDistinct(e, s[1..], p);
      PlistAddKeeps(e, s[1..], p);
    }
  }

  lemma {:induction false} WithoutKeepsSorted(e: Env, s: seq<Task>, p: Task)
    requires Sorted(e, s)
    ensures Sorted(e, Without(s, p))
  {
    if s != [] {
      SortedSplit(e, s);
      WithoutKeepsSorted(e, s[1..], p);
      WithoutMembers(s[1..], p);
      if s[0] != p { SortedCons(e, s[0], Without(s[1..], p)); }
    }
  }

  // ----- the updates of one runqueue

  /* The list p goes to: behind its equals if it joins, otherwise as it is. */
  ghost predicate Joined(e: Env, s: seq<Task>, t: seq<Task>, p: Task, joins: bool) {
    if joins then Inserted(e, s, t, p) else t == s
  }

  method EnqueuePushable(e: Env, r: RtQueue, p: Task) returns (t: RtQueue)
    requires Listed(e, r) && p in e.prio && e.prio[p] < MAX_RT_PRIO
    ensures Listed(e, t) && t == r.(pushable := t.pushable, next := t.next)
    ensures forall q :: q in Without(r.pushable, p) ==> q in e.prio
    ensures t.pushable == PlistAdd(e, Without(r.pushable, p), p)
    ensures Inserted(e, Without(r.pushable, p), t.pushable, p)
    ensures forall q :: q in t.pushable <==> q in r.pushable || q == p
  {
    hide Sorted, Inserted;
    WithoutMembers(r.pushable, p);
    WithoutKeepsSorted(e, r.pushable, p);
    t := r.(pushable := Without(r.pushable, p));
    SortedMembers(e, r.pushable);
    SortedMembers(e, t.pushable);
    PlistAddKeeps(e, t.pushable, p);
    PlistAddDistinct(e, t.pushable, p);
    PlistAddPlace(e, t.pushable, p);
    if r.pushable != [] { HeadAfter(e, r.pushable, p); }
    t := t.(pushable := PlistAdd(e, t.pushable, p));
    if e.prio[p] < t.next { t := t.(next := e.prio[p]); }
  }

  /* Taking a node out and putting it back leaves the least priority value where it is. */
  lemma HeadAfter(e: Env, s: seq<Task>, p: Task)
    requires Sorted(e, s) && Distinct(s) && s != [] && p in e.prio
    ensures forall q :: q in Without(s, p) ==> q in e.prio
    ensures e.prio[PlistAdd(e, Without(s, p), p)[0]] == Min(e.prio[p], e.prio[s[0]])
  {
  }

  method DequeuePushable(e: Env, r: RtQueue, p: Task) returns (t: RtQueue)
    requires Listed(e, r)
    ensures Listed(e, t) && t == r.(pushable := Without(r.pushable, p), next := t.next)
    ensures forall q :: q in t.pushable <==> q in r.pushable && q != p
  {
    WithoutMembers(r.pushable, p);
    WithoutKeepsSorted(e, r.pushable, p);
    t := r.(pushable := Without(r.pushable, p));
    t := t.(next := if t.pushable != [] then e.prio[t.pushable[0]] else MAX_RT_PRIO);
  }

  /* sched_find_first_bit of the priority array's bitmap, from the i-th bit on. */
  function FirstBit(e: Env, queued: set<Task>, i: int): (best: int)
    requires 0 <= i <= MAX_RT_PRIO && forall p :: p in queued ==> p in e.prio && i <= e.prio[p] < MAX_RT_PRIO
    ensures IsBest(e, queued, best)
    decreases MAX_RT_PRIO - i
  {
    if i == MAX_RT_PRIO then i
    else if exists p :: p in queued && e.prio[p] == i then i
    else FirstBit(e, queued, i + 1)
  }

  lemma MovableMore(e: Env, s: set<Task>, p: Task)
    requires forall q :: q in s + {p} ==> q in e.allowed
    ensures p !in s ==> |s + {p}| == |s| + 1
    ensures p !in s ==> |Movable(e, s + {p})| == |Movable(e, s)| + if Mobile(e, p) then 1 else 0
    ensures Movable(e, s + {p}) == if Mobile(e, p) then Movable(e, s) + {p} else Movable(e, s)
  {
    if Mobile(e, p) {
      assert Movable(e, s + {p}) == Movable(e, s) + {p};
    } else {
      assert Movable(e, s + {p}) == Movable(e, s);
    }
  }

  lemma MovableLess(e: Env, s: set<Task>, p: Task)
    requires p in s && forall q :: q in s ==> q in e.allowed
    ensures |s - {p}| == |s| - 1
    ensures |Movable(e, s - {p})| == |Movable(e, s)| - if Mobile(e, p) then 1 else 0
    ensures Movable(e, s - {p}) == Movable(e, s) - {p}
  {
    MovableMore(e, s - {p}, p);
    assert s - {p} + {p} == s;
    assert Movable(e, s - {p}) == Movable(e, s) - {p};
  }

  /* The priority array and inc_rt_tasks, up to update_rt_migration. */
  method IncRtTasks(e: Env, r: RtQueue, p: Task) returns (t: RtQueue)
    requires Known(e, r) && Counted(e, r) && p in e.prio && 0 <= e.prio[p] < MAX_RT_PRIO && p !in r.queued
    ensures Known(e, t) && Counted(e, t)
    ensures t == r.(queued := r.queued + {p}, highest := t.highest, total := t.total, migratory := t.migratory)
  {
    MovableMore(e, r.queued, p);
    t := r.(queued := r.queued + {p});
    if e.prio[p] < r.highest { t := t.(highest := e.prio[p]); }
    t := t.(total := t.total + 1);
    if Mobile(e, p) { t := t.(migratory := t.migratory + 1); }
  }

  method DecRtTasks(e: Env, r: RtQueue, p: Task) returns (t: RtQueue)
    requires Known(e, r) && Counted(e, r) && p in r.queued
    ensures Known(e, t) && Counted(e, t)
    ensures t == r.(queued := r.queued - {p}, highest := t.highest, total := t.total, migratory := t.migratory)
  {
    MovableLess(e, r.queued, p);
    t := r.(queued := r.queued - {p});
    if t.queued != {} {
      if e.prio[p] == r.highest { t := t.(highest := FirstBit(e, t.queued, 0)); }
    } else {
      t := t.(highest := MAX_RT_PRIO);
    }
    t := t.(total := t.total - 1);
    if Mobile(e, p) { t := t.(migratory := t.migratory - 1); }
  }

  /* The end of enqueue_task_rt. */
  method MakePushable(e: Env, r: RtQueue, p: Task) returns (t: RtQueue)
    requires Listed(e, r) && p in e.prio && p in e.allowed && e.prio[p] < MAX_RT_PRIO && p !in r.pushable
    ensures Listed(e, t) && t == r.(pushable := t.pushable, next := t.next)
    ensures forall q :: q in r.pushable ==> q in e.prio
    ensures t.pushable == if p != r.curr && Mobile(e, p) then PlistAdd(e, r.pushable, p) else r.pushable
    ensures Joined(e, r.pushable, t.pushable, p, p != r.curr && Mobile(e, p))
    ensures forall q :: q in t.pushable <==> q in r.pushable || (q == p && p != r.curr && Mobile(e, p))
  {
    hide Inserted;
    t := r;
    if p != r.curr && Mobile(e, p) {
      WithoutMembers(r.pushable, p);
      t := EnqueuePushable(e, t, p);
    }
  }

  predicate PutBack(e: Env, r: RtQueue) {
    r.curr in r.queued && r.curr in e.allowed && Mobile(e, r.curr)
  }

  /* put_prev_task_rt. */
  method PutPrevTask(e: Env, r: RtQueue) returns (t: RtQueue)
    requires Known(e, r) && Listed(e, r)
    ensures Listed(e, t) && t == r.(pushable := t.pushable, next := t.next)
    ensures r.curr !in r.pushable ==>
      Joined(e, r.pushable, t.pushable, r.curr, PutBack(e, r))
    ensures forall q :: q in t.pushable <==> q in r.pushable || (q == r.curr && q in r.queued && Mobile(e, q))
  {
    hide Inserted;
    WithoutMembers(r.pushable, r.curr);
    t := r;
    if r.curr in r.queued && Mobile(e, r.curr) { t := EnqueuePushable(e, t, r.curr); }
  }

  /* The two branches of set_cpus_allowed_rt. */
  method Reindex(e: Env, r: RtQueue, p: Task, weight: nat) returns (t: RtQueue)
    requires Listed(e, r) && p in e.prio && e.prio[p] < MAX_RT_PRIO
    ensures Listed(e, t) && t == r.(pushable := t.pushable, next := t.next, migratory := t.migratory)
    ensures t.migratory == r.migratory + if weight > 1 then 1 else -1
    ensures p == r.curr ==> t.pushable == r.pushable
    ensures p != r.curr && weight <= 1 ==> t.pushable == Without(r.pushable, p)
    ensures p != r.curr && weight > 1 ==> Inserted(e, Without(r.pushable, p), t.pushable, p)
    ensures p != r.curr ==> (p in t.pushable <==> weight > 1)
    ensures forall q :: q != p ==> (q in t.pushable <==> q in r.pushable)
  {
    hide Inserted;
    t := r;
    if weight <= 1 {
      if p != r.curr { t := DequeuePushable(e, t, p); }
      t := t.(migratory := t.migratory - 1);
    } else {
      if p != r.curr { t := EnqueuePushable(e, t, p); }
      t := t.(migratory := t.migratory + 1);
    }
  }

  // ----- one runqueue after another operation

  lemma Unpack(e: Env, r: RtQueue)
    requires RqOk(e, r)
    ensures Known(e, r) && Counted(e, r) && Listed(e, r) && Flagged(r) && 0 <= r.migratory
    ensures forall q :: q in r.pushable ==> q in e.prio && q in r.queued && q != r.curr
  {
  }

  lemma NotListed(e: Env, r: RtQueue, p: Task)
    requires RqOk(e, r)
    ensures p !in r.queued ==> Without(r.pushable, p) == r.pushable
  {
    WithoutMembers(r.pushable, p);
  }

  /* The list after a task has entered the priority array. */
  lemma EntersOk(e: Env, r: RtQueue, t: RtQueue, p: Task)
    requires RqOk(e, r) && p in e.prio && p !in r.queued && t.queued == r.queued + {p} && t.curr == r.curr
    requires Known(e, t) && Counted(e, t) && Flagged(t) && Listed(e, t)
    requires forall q :: q in t.pushable <==> q in r.pushable || (q == p && p != r.curr && Mobile(e, p))
    ensures RqOk(e, t)
  {
  }

  lemma LeavesOk(e: Env, r: RtQueue, t: RtQueue, p: Task)
    requires RqOk(e, r) && p in r.queued && t.queued == r.queued - {p} && t.curr == r.curr
    requires Known(e, t) && Counted(e, t) && Flagged(t) && Listed(e, t)
    requires forall q :: q in t.pushable <==> q in r.pushable && q != p
    ensures RqOk(e, t)
  {
  }

  // ----- the root domain

  ghost predicate Placed(rqs: seq<RtQueue>, cpu: map<Task, Cpu>) {
    forall c, p :: 0 <= c < |rqs| && p in rqs[c].queued ==> p in cpu && cpu[p] == c
  }

  ghost predicate Masked(rqs: seq<RtQueue>, rto: set<Cpu>, rtoCount: int) {
    && (forall c :: c in rto ==> c < |rqs| && rqs[c].online && rqs[c].overloaded)
    && (forall c :: 0 <= c < |rqs| && rqs[c].online && rqs[c].overloaded ==> c in rto)
    && rtoCount == |rto|
  }

  ghost predicate AllOk(e: Env, rqs: seq<RtQueue>) {
    forall c :: 0 <= c < |rqs| ==> RqOk(e, rqs[c])
  }

  /* One runqueue replaced by a sound one with tasks of its own. */
  lemma ReplaceOk(e: Env, rqs: seq<RtQueue>, cpu: map<Task, Cpu>, c: Cpu, r: RtQueue)
    requires AllOk(e, rqs) && Placed(rqs, cpu) && c < |rqs| && RqOk(e, r)
    requires forall p :: p in r.queued ==> p in rqs[c].queued || (p in cpu && cpu[p] == c)
    ensures AllOk(e, rqs[c := r]) && Placed(rqs[c := r], cpu)
  {
  }

  lemma UpdateTwice<T>(s: seq<T>, c: nat, x: T, y: T)
    requires c < |s|
    ensures s[c := x][c := y] == s[c := y]
  {
  }

  lemma SameMask(rqs: seq<RtQueue>, c: Cpu, r: RtQueue, rto: set<Cpu>, rtoCount: int)
    requires Masked(rqs, rto, rtoCount) && c < |rqs| && r.online == rqs[c].online && r.overloaded == rqs[c].overloaded
    ensures Masked(rqs[c := r], rto, rtoCount)
  {
  }

  /* A task's priority or affinity means nothing to runqueues it is not queued on. */
  lemma EnvFrame(e: Env, f: Env, r: RtQueue, p: Task)
    requires RqOk(e, r) && p !in r.queued && f.prio.Keys == f.allowed.Keys && e.prio.Keys <= f.prio.Keys
    requires forall q :: q in e.prio && q != p ==> f.prio[q] == e.prio[q] && f.allowed[q] == e.allowed[q]
    ensures RqOk(f, r)
  {
    assert Movable(f, r.queued) == Movable(e, r.queued);
    if r.highest != MAX_RT_PRIO {
      var q :| q in r.queued && e.prio[q] == r.highest;
      assert f.prio[q] == r.highest;
    }
    forall q | q in r.pushable ensures f.prio[q] == e.prio[q] { assert q in r.queued; }
  }

  lemma EnvFrameAll(e: Env, f: Env, rqs: seq<RtQueue>, p: Task)
    requires AllOk(e, rqs) && (forall c :: 0 <= c < |rqs| ==> p !in rqs[c].queued)
    requires e.allowed.Keys == e.prio.Keys && f.prio.Keys == f.allowed.Keys && e.prio.Keys <= f.prio.Keys
    requires forall q :: q in e.prio && q != p ==> f.prio[q] == e.prio[q] && f.allowed[q] == e.allowed[q]
    ensures AllOk(f, rqs)
  {
    hide RqOk;
    forall c | 0 <= c < |rqs| ensures RqOk(f, rqs[c]) { EnvFrame(e, f, rqs[c], p); }
  }

  /* Switching from one task to another: the one put back becomes pushable, the next one is not. */
  lemma SwitchOk(e: Env, r: RtQueue, t: RtQueue, next: Task)
    requires RqOk(e, r) && next in e.prio && t == r.(pushable := t.pushable, next := t.next, curr := next)
    requires Listed(e, t)
    requires forall q ::
      q in t.pushable <==> q != next && (q in r.pushable || (q == r.curr && q in r.queued && Mobile(e, q)))
    ensures RqOk(e, t)
  {
  }

  /* p is queued somewhere. */
  ghost predicate Queued(rqs: seq<RtQueue>, p: Task) {
    exists c :: 0 <= c < |rqs| && p in rqs[c].queued
  }

  /* One task has moved from a runqueue to another, nothing else has. */
  ghost predicate Moved(rqs: seq<RtQueue>, now: seq<RtQueue>, src: Cpu, dst: Cpu, p: Task) {
    && |now| == |rqs| && src < |rqs| && dst < |rqs| && src != dst
    && p in rqs[src].queued
    && now[src].queued == rqs[src].queued - {p} && now[dst].queued == rqs[dst].queued + {p}
    && (forall c :: 0 <= c < |rqs| ==> now[c].curr == rqs[c].curr && now[c].online == rqs[c].online)
    && (forall c :: 0 <= c < |rqs| && c != src && c != dst ==> now[c] == rqs[c])
  }

  lemma MovedConserves(rqs: seq<RtQueue>, now: seq<RtQueue>, src: Cpu, dst: Cpu, p: Task, q: Task)
    requires Moved(rqs, now, src, dst, p)
    ensures Queued(rqs, q) <==> Queued(now, q)
  {
  }

  lemma MaskOnline(rqs: seq<RtQueue>, c: Cpu, online: bool, rto: set<Cpu>, rtoCount: int)
    requires Masked(rqs, rto, rtoCount) && c < |rqs| && rqs[c].online != online
    ensures var now := rqs[c := rqs[c].(online := online)];
      if !rqs[c].overloaded then Masked(now, rto, rtoCount)
      else if online then Masked(now, rto + {c}, rtoCount + 1)
      else Masked(now, rto - {c}, rtoCount - 1)
  {
  }

  /* What the overload flag and the mask say about the tasks: there are two, and one of them may go. */
  lemma OverloadedMeans(e: Env, rqs: seq<RtQueue>, rto: set<Cpu>, rtoCount: int, c: Cpu)
    requires AllOk(e, rqs) && Masked(rqs, rto, rtoCount) && c < |rqs|
    ensures rqs[c].overloaded <==> Crowded(e, rqs[c].queued)
    ensures c in rto <==> rqs[c].online && Crowded(e, rqs[c].queued)
  {
    var r := rqs[c];
    assert RqOk(e, r);
    if r.overloaded {
      var p :| p in Movable(e, r.queued);
      AnotherOne(r.queued, p);
    }
    if Crowded(e, r.queued) {
      var p, q :| p in r.queued && q in r.queued && p != q && p in e.allowed && |e.allowed[p]| > 1;
      assert p in Movable(e, r.queued);
      SubsetLess({p, q}, r.queued);
    }
  }

  ghost predicate Crowded(e: Env, s: set<Task>) {
    exists p, q :: p in s && q in s && p != q && p in e.allowed && |e.allowed[p]| > 1
  }

  lemma AnotherOne(s: set<Task>, p: Task)
    requires p in s && |s| > 1
    ensures exists q :: q in s && q != p
  {
    var rest := s - {p};
    assert |rest| == |s| - 1;
    var q :| q in rest;
  }

  lemma {:induction false} SubsetLess<T>(a: set<T>, b: set<T>)
    requires a <= b
    ensures |a| <= |b|
  {
    if a != {} {
      var x :| x in a;
      SubsetLess(a - {x}, b - {x});
    }
  }

  class Domain {
    var e: Env
    var cpu: map<Task, Cpu>  // task_cpu
    var rqs: seq<RtQueue>
    var rto: set<Cpu>        // rto_mask
    var rtoCount: int

    ghost predicate Valid() reads this {
      && AllOk(e, rqs) && Placed(rqs, cpu) && Masked(rqs, rto, rtoCount)
    }

    method RtSetOverload(c: Cpu)
      requires c < |rqs|
      modifies this`rto, this`rtoCount
      ensures rto == (if rqs[c].online then old(rto) + {c} else old(rto))
      ensures rtoCount == (if rqs[c].online then old(rtoCount) + 1 else old(rtoCount))
    {
      if !rqs[c].online { return; }
      rto := rto + {c};
      rtoCount := rtoCount + 1;
    }

    method RtClearOverload(c: Cpu)
      requires c < |rqs|
      modifies this`rto, this`rtoCount
      ensures rto == (if rqs[c].online then old(rto) - {c} else old(rto))
      ensures rtoCount == (if rqs[c].online then old(rtoCount) - 1 else old(rtoCount))
    {
      if !rqs[c].online { return; }
      rtoCount := rtoCount - 1;
      rto := rto - {c};
    }

    method UpdateRtMigration(c: Cpu)
      requires c < |rqs| && Masked(rqs, rto, rtoCount) && rqs[c].migratory >= 0
      modifies this`rqs, this`rto, this`rtoCount
      ensures |rqs| == |old(rqs)| && rqs == old(rqs)[c := old(rqs)[c].(overloaded := rqs[c].overloaded)]
      ensures Flagged(rqs[c]) && Masked(rqs, rto, rtoCount)
    {
      if rqs[c].migratory != 0 && rqs[c].total > 1 {
        if !rqs[c].overloaded {
          RtSetOverload(c);
          rqs := rqs[c := rqs[c].(overloaded := true)];
        }
      } else if rqs[c].overloaded {
        RtClearOverload(c);
        rqs := rqs[c := rqs[c].(overloaded := false)];
      }
    }

    /* enqueue_rt_entity: the array, the counts and the root domain's mask, but not yet the list. */
    method IncAt(c: Cpu, p: Task)
      requires c < |rqs| && Masked(rqs, rto, rtoCount) && Known(e, rqs[c]) && Counted(e, rqs[c])
      requires p in e.prio && 0 <= e.prio[p] < MAX_RT_PRIO && p !in rqs[c].queued
      modifies this`rqs, this`rto, this`rtoCount
      ensures |rqs| == |old(rqs)| && rqs == old(rqs)[c := rqs[c]] && Masked(rqs, rto, rtoCount)
      ensures Known(e, rqs[c]) && Counted(e, rqs[c]) && Flagged(rqs[c])
      ensures rqs[c] == old(rqs)[c].(queued := old(rqs)[c].queued + {p},
                                    highest := rqs[c].highest, total := rqs[c].total,
                                     migratory := rqs[c].migratory, overloaded := rqs[c].overloaded)
    {
      hide Masked, IsBest, Movable;
      var r := IncRtTasks(e, rqs[c], p);
      SameMask(rqs, c, r, rto, rtoCount);
      rqs := rqs[c := r];
      UpdateRtMigration(c);
      UpdateTwice(old(rqs), c, r, rqs[c]);
    }

    /* enqueue_task_rt. */
    method EnqueueTask(c: Cpu, p: Task)
      requires Valid() && c < |rqs| && p in e.prio && 0 <= e.prio[p] < MAX_RT_PRIO
      requires p in cpu && cpu[p] == c && p !in rqs[c].queued
      modifies this`rqs, this`rto, this`rtoCount
      ensures Valid() && |rqs| == |old(rqs)|
      ensures rqs[c].queued == old(rqs)[c].queued + {p}
      ensures rqs[c].curr == old(rqs)[c].curr && rqs[c].online == old(rqs)[c].online
      ensures forall x :: 0 <= x < |rqs| && x != c ==> rqs[x] == old(rqs)[x]
      ensures rqs[c].pushable ==
        if p != rqs[c].curr && Mobile(e, p) then PlistAdd(e, old(rqs)[c].pushable, p) else old(rqs)[c].pushable
      ensures Joined(e, old(rqs)[c].pushable, rqs[c].pushable, p, p != rqs[c].curr && Mobile(e, p))
    {
      hide Joined, RqOk, Placed, Masked, IsBest, Sorted, Distinct, Movable;
      var was := rqs[c];
      Unpack(e, was);
      IncAt(c, p);
      var r := MakePushable(e, rqs[c], p);
      SameMask(rqs, c, r, rto, rtoCount);
      UpdateTwice(old(rqs), c, rqs[c], r);
      rqs := rqs[c := r];
      EntersOk(e, was, r, p);
      ReplaceOk(e, old(rqs), cpu, c, r);
    }

    /* dequeue_task_rt. */
    method DequeueTask(c: Cpu, p: Task)
      requires Valid() && c < |rqs| && p in rqs[c].queued
      modifies this`rqs, this`rto, this`rtoCount
      ensures Valid() && |rqs| == |old(rqs)|
      ensures rqs[c].queued == old(rqs)[c].queued - {p}
      ensures rqs[c].curr == old(rqs)[c].curr && rqs[c].online == old(rqs)[c].online
      ensures forall x :: 0 <= x < |rqs| && x != c ==> rqs[x] == old(rqs)[x]
      ensures rqs[c].pushable == Without(old(rqs)[c].pushable, p)
    {
      hide RqOk, Placed, Masked, IsBest, Sorted, Distinct, Movable;
      var was := rqs[c];
      Unpack(e, was);
      var r := DecRtTasks(e, was, p);
      SameMask(rqs, c, r, rto, rtoCount);
      rqs := rqs[c := r];
      UpdateRtMigration(c);
      UpdateTwice(old(rqs), c, r, rqs[c]);
      r := DequeuePushable(e, rqs[c], p);
      SameMask(rqs, c, r, rto, rtoCount);
      UpdateTwice(old(rqs), c, rqs[c], r);
      rqs := rqs[c := r];
      LeavesOk(e, was, r, p);
      ReplaceOk(e, old(rqs), cpu, c, r);
    }

    /* put_prev_task_rt for the task that ran, then the choice of the next one: pick_next_task_rt
       if it is an RT task, another class otherwise. */
    method SwitchTo(c: Cpu, next: Task)
      requires Valid() && c < |rqs| && next in e.prio
      modifies this`rqs
      ensures Valid() && |rqs| == |old(rqs)|
      ensures rqs[c] == old(rqs)[c].(curr := next, pushable := rqs[c].pushable, next := rqs[c].next)
      ensures exists put :: (&& rqs[c].pushable == Without(put, next)
                             && Joined(e, old(rqs)[c].pushable, put, old(rqs)[c].curr, PutBack(e, old(rqs)[c])))
      ensures forall x :: 0 <= x < |rqs| && x != c ==> rqs[x] == old(rqs)[x]
    {
      hide Joined, RqOk, Placed, Masked, IsBest, Sorted, Distinct, Movable;
      var was := rqs[c];
      Unpack(e, was);
      var r := PutPrevTask(e, was);
      assert Joined(e, was.pushable, r.pushable, was.curr, PutBack(e, was));
      r := DequeuePushable(e, r, next);
      r := r.(curr := next);
      SwitchOk(e, was, r, next);
      ReplaceOk(e, rqs, cpu, c, r);
      SameMask(rqs, c, r, rto, rtoCount);
      rqs := rqs[c := r];
    }

    /* set_rq_online and rq_online_rt. */
    method Online(c: Cpu)
      requires Valid() && c < |rqs|
      modifies this`rqs, this`rto, this`rtoCount
      ensures Valid() && rqs == old(rqs)[c := old(rqs)[c].(online := true)]
    {
      hide RqOk, Placed, Masked;
      if !rqs[c].online {
        MaskOnline(rqs, c, true, rto, rtoCount);
        OnlineOk(e, rqs, cpu, c, true);
        rqs := rqs[c := rqs[c].(online := true)];
        if rqs[c].overloaded { RtSetOverload(c); }
      }
      assert rqs == old(rqs)[c := old(rqs)[c].(online := true)];
    }

    /* set_rq_offline and rq_offline_rt. */
    method Offline(c: Cpu)
      requires Valid() && c < |rqs|
      modifies this`rqs, this`rto, this`rtoCount
      ensures Valid() && rqs == old(rqs)[c := old(rqs)[c].(online := false)]
    {
      hide RqOk, Placed, Masked;
      if rqs[c].online {
        MaskOnline(rqs, c, false, rto, rtoCount);
        OnlineOk(e, rqs, cpu, c, false);
        if rqs[c].overloaded { RtClearOverload(c); }
        rqs := rqs[c := rqs[c].(online := false)];
      }
      assert rqs == old(rqs)[c := old(rqs)[c].(online := false)];
    }

    /* deactivate_task, set_task_cpu and activate_task between two locked runqueues. */
    method MoveTask(src: Cpu, dst: Cpu, p: Task)
      requires Valid() && src < |rqs| && dst < |rqs| && src != dst && p in rqs[src].queued
      modifies this`rqs, this`rto, this`rtoCount, this`cpu
      ensures Valid() && Moved(old(rqs), rqs, src, dst, p) && cpu == old(cpu)[p := dst]
      ensures rqs[src].pushable == Without(old(rqs)[src].pushable, p) && p in e.allowed
      ensures Joined(e, old(rqs)[dst].pushable, rqs[dst].pushable, p, p != rqs[dst].curr && Mobile(e, p))
    {
      hide Joined, RqOk, Masked;
      OnlyHere(rqs, cpu, src, p);
      Unpack(e, rqs[src]);
      DequeueTask(src, p);
      cpu := cpu[p := dst];
      EnqueueTask(dst, p);
    }

    /* set_cpus_allowed_rt; the mask is stored by the caller. */
    method SetCpusAllowedRt(c: Cpu, p: Task, mask: set<Cpu>)
      requires Valid() && c < |rqs| && p in e.prio
      modifies this`rqs, this`rto, this`rtoCount
      ensures Masked(rqs, rto, rtoCount) && |rqs| == |old(rqs)| && rqs == old(rqs)[c := rqs[c]]
      ensures p in e.allowed && RqOk(e.(allowed := e.allowed[p := mask]), rqs[c])
      ensures Remasked(e, old(rqs)[c], rqs[c], p, mask)
      ensures rqs[c].queued == old(rqs)[c].queued
      ensures rqs[c].curr == old(rqs)[c].curr && rqs[c].online == old(rqs)[c].online
    {
      hide Inserted, RqOk, Placed, Masked, IsBest, Sorted, Distinct, Movable;
      var weight := |mask|;
      var was := rqs[c];
      ghost var f := e.(allowed := e.allowed[p := mask]);
      Unpack(e, was);
      if p !in was.queued || Mobile(e, p) == (weight > 1) {
        SameMobility(e, f, was, p);
        assert rqs[c := was] == rqs;
        return;
      }
      MaskWeight(e, f, was, p);
      var r := Reindex(e, was, p, weight);
      ReindexMasks(e, was, r, p, mask);
      SameMask(rqs, c, r, rto, rtoCount);
      rqs := rqs[c := r];
      UpdateRtMigration(c);
      UpdateTwice(old(rqs), c, r, rqs[c]);
      MaskChangeOk(e, f, was, rqs[c], p);
    }

    /* do_set_cpus_allowed. */
    method SetAllowed(c: Cpu, p: Task, mask: set<Cpu>)
      requires Valid() && c < |rqs| && p in e.prio && p in cpu && cpu[p] == c
      modifies this`rqs, this`rto, this`rtoCount, this`e
      ensures Valid() && e == old(e).(allowed := old(e.allowed)[p := mask]) && |rqs| == |old(rqs)|
      ensures Remasked(old(e), old(rqs)[c], rqs[c], p, mask)
      ensures rqs[c].queued == old(rqs)[c].queued
      ensures rqs[c].curr == old(rqs)[c].curr && rqs[c].online == old(rqs)[c].online
      ensures forall x :: 0 <= x < |rqs| && x != c ==> rqs[x] == old(rqs)[x]
    {
      hide RqOk, Placed, Masked;
      Elsewhere(rqs, cpu, c, p);
      Unpack(e, rqs[c]);
      SetCpusAllowedRt(c, p, mask);
      AllExcept(e, e.(allowed := e.allowed[p := mask]), old(rqs), c, rqs[c], p);
      e := e.(allowed := e.allowed[p := mask]);
      PlacedSame(old(rqs), rqs, cpu);
    }

    constructor (env: Env, idle: seq<Task>)
      requires env.allowed.Keys == env.prio.Keys && forall c :: 0 <= c < |idle| ==> idle[c] in env.prio
      ensures Valid() && e == env && |rqs| == |idle|
      ensures forall c :: 0 <= c < |rqs| ==> rqs[c].queued == {} && rqs[c].curr == idle[c] && !rqs[c].online
    {
      e, cpu, rto, rtoCount := env, map[], {}, 0;
      rqs := seq(|idle|, c requires 0 <= c < |idle| =>
        RtQueue({}, MAX_RT_PRIO, MAX_RT_PRIO, 0, 0, false, [], idle[c], false));
    }

    /* A new task, not queued yet. */
    method AddTask(p: Task, prio: int, allowed: set<Cpu>, c: Cpu)
      requires Valid() && p !in e.prio && e.allowed.Keys == e.prio.Keys && c < |rqs|
      modifies this`e, this`cpu
      ensures Valid() && e == Env(old(e.prio)[p := prio], old(e.allowed)[p := allowed]) && cpu == old(cpu)[p := c]
    {
      NewcomerQueuedNowhere(e, rqs, p);
      EnvFrameAll(e, Env(e.prio[p := prio], e.allowed[p := allowed]), rqs, p);
      e := Env(e.prio[p := prio], e.allowed[p := allowed]);
      cpu := cpu[p := c];
    }

    /* The bracket that changes a task's priority, or takes it into the RT class or out of it: off
       its queue, new priority, on its queue again. onRq: it is queued, in whatever class. */
    method ChangePrio(c: Cpu, p: Task, prio: int, onRq: bool)
      requires Valid() && c < |rqs| && p in e.prio && e.allowed.Keys == e.prio.Keys && p in cpu && cpu[p] == c
      requires p in rqs[c].queued <==> onRq && 0 <= e.prio[p] < MAX_RT_PRIO
      modifies this`rqs, this`rto, this`rtoCount, this`e
      ensures Valid() && e == old(e).(prio := old(e.prio)[p := prio]) && |rqs| == |old(rqs)|
      ensures rqs[c].queued ==
        if onRq && 0 <= prio < MAX_RT_PRIO then old(rqs)[c].queued + {p} else old(rqs)[c].queued - {p}
      ensures p in e.allowed && Joined(e, Without(old(rqs)[c].pushable, p), rqs[c].pushable, p,
        p != rqs[c].curr && Mobile(e, p) && onRq && 0 <= prio < MAX_RT_PRIO)
      ensures rqs[c].curr == old(rqs)[c].curr && rqs[c].online == old(rqs)[c].online
      ensures forall x :: 0 <= x < |rqs| && x != c ==> rqs[x] == old(rqs)[x]
    {
      hide Inserted, RqOk, Masked;
      NotListed(e, rqs[c], p);
      if onRq && 0 <= e.prio[p] < MAX_RT_PRIO { DequeueTask(c, p); }
      Elsewhere(rqs, cpu, c, p);
      // put_prev_task_rt and set_curr_task_rt find nothing to do for a task that is off its queue
      EnvFrameAll(e, e.(prio := e.prio[p := prio]), rqs, p);
      e := e.(prio := e.prio[p := prio]);
      if onRq && 0 <= prio < MAX_RT_PRIO { EnqueueTask(c, p); }
    }

    // ----- push

    /* find_lock_lowest_rq: at most three answers of cpupri_find are tried. Nothing else runs in
       between, so the task is still here, allowed there, waiting and queued when both are locked. */
    method FindLockLowestRq(c: Cpu, p: Task, find: (Task, nat) -> Option<Cpu>) returns (lowest: Option<Cpu>)
      requires p in e.prio && p in e.allowed
      requires forall k :: find(p, k).Some? ==> find(p, k).value < |rqs| && find(p, k).value in e.allowed[p]
      ensures lowest.Some? ==>
        lowest.value in e.allowed[p] && exists k :: Suits(e, rqs, c, p, find, k) && find(p, k) == lowest
      ensures lowest.Some? <==> |e.allowed[p]| != 1 && exists k :: Suits(e, rqs, c, p, find, k)
      ensures lowest.None? ==> |e.allowed[p]| == 1 || GivesUp(e, rqs, c, p, find)
    {
      if |e.allowed[p]| == 1 { return None; }
      for tries := 0 to 3
        invariant Refused(e, rqs, c, p, find, tries)
      {
        lowest := find(p, tries);
        if lowest == None || lowest == Some(c) {
          NoneSuits(e, rqs, c, p, find, tries);
          return None;
        }
        if rqs[lowest.value].highest > e.prio[p] {
          assert Suits(e, rqs, c, p, find, tries);
          return;
        }
      }
      NoneSuits(e, rqs, c, p, find, 3);
      lowest := None;
    }

    /* push_rt_task. cpupri_find answers allowed CPUs. */
    method PushRtTask(c: Cpu, find: (Task, nat) -> Option<Cpu>) returns (dst: Option<Cpu>)
      requires Valid() && c < |rqs|
      requires forall p, k :: p in e.allowed && find(p, k).Some? ==>
        (find(p, k).value < |rqs| && find(p, k).value in e.allowed[p])
      modifies this`rqs, this`rto, this`rtoCount, this`cpu
      ensures Valid()
      ensures dst.Some? ==>
        && old(rqs)[c].pushable != [] && Pushed(e, old(rqs), rqs, old(cpu), cpu, c, dst.value, old(rqs)[c].pushable[0])
        && |rqs[c].pushable| < |old(rqs)[c].pushable|
        && exists k :: Suits(e, old(rqs), c, old(rqs)[c].pushable[0], find, k)
             && find(old(rqs)[c].pushable[0], k) == dst
      ensures dst.Some? <==> MayPush(e, old(rqs), c, find)
      ensures dst.None? ==> rqs == old(rqs) && cpu == old(cpu)
      ensures dst.None? && rqs[c].overloaded && rqs[c].pushable != [] ==>
        NothingToDo(e, rqs, c, rqs[c].pushable[0], find)
    {
      hide RqOk, Placed, Masked;
      if !rqs[c].overloaded { return None; }
      Unpack(e, rqs[c]);
      if rqs[c].pushable == [] { return None; }
      var p := rqs[c].pushable[0];
      PickOk(e, rqs, cpu, c);
      if e.prio[p] < e.prio[rqs[c].curr] { return None; }
      dst := FindLockLowestRq(c, p, find);
      if dst.None? { return; }  // p is still the first pushable task: give up
      Unpack(e, rqs[dst.value]);
      WithoutHeadShorter(rqs[c].pushable);
      MoveTask(c, dst.value, p);
    }

    /* push_rt_tasks ends: every push makes the list of pushable tasks shorter. */
    method PushRtTasks(c: Cpu, find: (Task, nat) -> Option<Cpu>)
      requires Valid() && c < |rqs|
      requires forall p, k :: p in e.allowed && find(p, k).Some? ==>
        (find(p, k).value < |rqs| && find(p, k).value in e.allowed[p])
      modifies this`rqs, this`rto, this`rtoCount, this`cpu
      ensures Valid() && |rqs| == |old(rqs)|
      ensures forall q :: Queued(rqs, q) <==> Queued(old(rqs), q)
      ensures rqs[c].queued <= old(rqs)[c].queued && rqs[c].curr == old(rqs)[c].curr && rqs[c].curr in e.prio
      ensures forall q :: q in old(rqs)[c].queued && q !in rqs[c].queued ==> Below(e, q, rqs[c].curr)
      ensures rqs[c].overloaded && rqs[c].pushable != [] ==> NothingToDo(e, rqs, c, rqs[c].pushable[0], find)
    {
      hide RqOk, Placed, Masked, AllOk, NothingToDo;
      CurrKnown(e, rqs, c);
      var dst := PushRtTask(c, find);
      if dst.Some? { ConservesAll(old(rqs), rqs, c, dst.value, old(rqs)[c].pushable[0]); }
      while dst.Some?
        modifies this`rqs, this`rto, this`rtoCount, this`cpu
        invariant Valid() && |rqs| == |old(rqs)|
        invariant forall q :: Queued(rqs, q) <==> Queued(old(rqs), q)
        invariant rqs[c].queued <= old(rqs)[c].queued && rqs[c].curr == old(rqs)[c].curr
        invariant forall q :: q in old(rqs)[c].queued && q !in rqs[c].queued ==> Below(e, q, rqs[c].curr)
        invariant dst.None? && rqs[c].overloaded && rqs[c].pushable != [] ==>
          NothingToDo(e, rqs, c, rqs[c].pushable[0], find)
        decreases if dst.Some? then 1 else 0, |rqs[c].pushable|
      {
        ghost var before := rqs;
        dst := PushRtTask(c, find);
        if dst.Some? { ConservesAll(before, rqs, c, dst.value, before[c].pushable[0]); }
      }
    }

    // ----- pull

    /* pick_highest_pushable_task: pick_rt_task's task_running is false for all tasks of the list. */
    method PickHighestPushable(src: Cpu, dst: Cpu) returns (p: Option<Task>)
      requires src < |rqs| && forall q :: q in rqs[src].pushable ==> q in e.allowed
      ensures p == Candidate(e, rqs[src].pushable, dst)
    {
      var s := rqs[src].pushable;
      for i := 0 to |s|
        invariant Candidate(e, s, dst) == Candidate(e, s[i..], dst)
      {
        if dst in e.allowed[s[i]] { return Some(s[i]); }
      }
      return None;
    }

    /* One turn of pull_rt_task's loop. */
    method PullFrom(src: Cpu, c: Cpu) returns (p: Option<Task>)
      requires Valid() && src < |rqs| && c < |rqs| && src != c
      modifies this`rqs, this`rto, this`rtoCount, this`cpu
      ensures Valid() && |rqs| == |old(rqs)| && NoneBetter(e, rqs, src, c)
      ensures p.Some? <==> exists q: Task :: Takes(e, old(rqs), src, c, q)
      ensures p.Some? ==> Takes(e, old(rqs), src, c, p.value)
      ensures p.None? ==> rqs == old(rqs) && rto == old(rto) && cpu == old(cpu)
      ensures p.Some? ==> Pushed(e, old(rqs), rqs, old(cpu), cpu, src, c, p.value)
      ensures p.Some? ==> e.prio[p.value] < old(rqs)[c].highest && rqs[c].highest <= old(rqs)[c].highest
      ensures forall x :: 0 <= x < |rqs| && x != src && x != c && NoneBetter(e, old(rqs), x, c) ==>
        NoneBetter(e, rqs, x, c)
      ensures forall x :: x in rto && x != src && x != c ==> x in old(rto)
    {
      hide Joined, RqOk, Placed, AllOk, Masked, NoneBetter, IsBest, Sorted, Distinct, Movable, Takes, Counted;
      OneOk(e, rqs, src);
      OneOk(e, rqs, c);
      if rqs[src].next >= rqs[c].highest {
        NoneByNext(e, rqs, src, c);
        NoneTaken(e, rqs, src, c);
        return None;
      }
      p := PickHighestPushable(src, c);
      CandidateBest(e, rqs[src].pushable, c);
      if p == None || e.prio[p.value] >= rqs[c].highest || e.prio[p.value] < e.prio[rqs[src].curr] {
        NoneByCandidate(e, rqs, src, c);
        NoneTaken(e, rqs, src, c);
        return None;
      }
      TakesCandidate(e, rqs, src, c, p.value);
      BeatsAll(e, rqs[c], p.value);
      MoveTask(src, c, p.value);
      OneOk(e, rqs, src);
      OneOk(e, rqs, c);
      AfterPull(e, old(rqs), rqs, src, c, p.value);
      MaskShrinks(old(rqs), old(rto), old(rtoCount), rqs, rto, rtoCount, src, c);
    }

    /* pull_rt_task, from every overloaded CPU in turn. */
    method PullRtTask(c: Cpu) returns (pulled: bool)
      requires Valid() && c < |rqs|
      modifies this`rqs, this`rto, this`rtoCount, this`cpu
      ensures Valid() && |rqs| == |old(rqs)|
      ensures forall src :: src in rto && src != c ==> NoneBetter(e, rqs, src, c)
      ensures forall q :: Queued(rqs, q) <==> Queued(old(rqs), q)
      ensures forall q :: q in old(rqs)[c].queued ==> q in rqs[c].queued
      ensures forall q :: q in rqs[c].queued && q !in old(rqs)[c].queued ==> Pullable(e, old(rqs), c, q)
      ensures pulled <==> rqs[c].queued != old(rqs)[c].queued
    {
      hide RqOk, Placed, AllOk, Masked, NoneBetter;
      pulled := false;
      if rtoCount == 0 {
        EmptyMask(rqs, rto, rtoCount);
        return;
      }
      ghost var start := rqs;
      for src := 0 to |rqs|
        modifies this`rqs, this`rto, this`rtoCount, this`cpu
        invariant Valid() && |rqs| == |start|
        invariant forall x :: x in rto && x < src && x != c ==> NoneBetter(e, rqs, x, c)
        invariant forall x :: src <= x < |rqs| && x != c ==> rqs[x] == start[x]
        invariant forall q :: Queued(rqs, q) <==> Queued(start, q)
        invariant forall q :: q in start[c].queued ==> q in rqs[c].queued
        invariant forall q :: q in rqs[c].queued && q !in start[c].queued ==> Pullable(e, start, c, q)
        invariant pulled <==> rqs[c].queued != start[c].queued
        invariant rqs[c].highest <= start[c].highest
      {
        if src !in rto || src == c { continue; }
        ghost var before := rqs;
        var p := PullFrom(src, c);
        if p.Some? {
          ConservesAll(before, rqs, src, c, p.value);
          assert p.value in start[src].queued;
          assert Pullable(e, start, c, p.value);
          pulled := true;
        }
      }
      MaskInside(rqs, rto, rtoCount);
    }
  }

  /* The first task of the list that is allowed on dst. */
  function Candidate(e: Env, s: seq<Task>, dst: Cpu): Option<Task>
    requires forall q :: q in s ==> q in e.allowed
  {
    if s == [] then None else if dst in e.allowed[s[0]] then Some(s[0]) else Candidate(e, s[1..], dst)
  }

  lemma {:induction false} CandidateBest(e: Env, s: seq<Task>, dst: Cpu)
    requires Sorted(e, s) && forall q :: q in s ==> q in e.allowed
    ensures var p := Candidate(e, s, dst);
      && (p.Some? ==> p.value in s && dst in e.allowed[p.value])
      && (forall q :: q in s && dst in e.allowed[q] ==> p.Some? && e.prio[p.value] <= e.prio[q])
  {
    if s != [] {
      SortedSplit(e, s);
      CandidateBest(e, s[1..], dst);
    }
  }

  /* src has nothing for dst: its best pushable task allowed there does not outrank dst's best RT
     task, or it already outranks what src itself runs and is about to run there. */
  ghost predicate NoneBetter(e: Env, rqs: seq<RtQueue>, src: Cpu, dst: Cpu) {
    && src < |rqs| && dst < |rqs| && rqs[src].curr in e.prio
    && (forall q :: q in rqs[src].pushable ==> q in e.allowed && q in e.prio)
    && var p := Candidate(e, rqs[src].pushable, dst);
      (p.Some? ==>
        p.value in e.prio && (e.prio[p.value] >= rqs[dst].highest || e.prio[p.value] < e.prio[rqs[src].curr]))
  }

  /* p is what a turn at src takes to dst: the first pushable task there that is allowed on dst. It
     outranks dst's RT tasks, and does not outrank what src runs. */
  ghost predicate Takes(e: Env, rqs: seq<RtQueue>, src: Cpu, dst: Cpu, p: Task) {
    && src < |rqs| && dst < |rqs| && src != dst && rqs[src].curr in e.prio && p in e.prio
    && FirstAllowed(e, rqs[src].pushable, dst, p)
    && e.prio[rqs[src].curr] <= e.prio[p] < rqs[dst].highest
  }

  ghost predicate FirstAllowed(e: Env, s: seq<Task>, dst: Cpu, p: Task) {
    && (forall q :: q in s ==> q in e.allowed)
    && exists i :: 0 <= i < |s| && s[i] == p && dst in e.allowed[p] &&
         forall j :: 0 <= j < i ==> dst !in e.allowed[s[j]]
  }

  lemma TakesCandidate(e: Env, rqs: seq<RtQueue>, src: Cpu, dst: Cpu, p: Task)
    requires src < |rqs| && dst < |rqs| && src != dst && rqs[src].curr in e.prio
    requires forall q :: q in rqs[src].pushable ==> q in e.allowed && q in e.prio
    ensures Takes(e, rqs, src, dst, p) <==>
      (&& Candidate(e, rqs[src].pushable, dst) == Some(p) && p in e.prio
       && e.prio[rqs[src].curr] <= e.prio[p] < rqs[dst].highest)
  {
    CandidateFirst(e, rqs[src].pushable, dst);
  }

  /* A turn takes nothing exactly if NoneBetter holds. */
  lemma NoneTaken(e: Env, rqs: seq<RtQueue>, src: Cpu, dst: Cpu)
    requires src != dst && NoneBetter(e, rqs, src, dst)
    ensures forall q: Task :: !Takes(e, rqs, src, dst, q)
  {
    forall q: Task ensures !Takes(e, rqs, src, dst, q) { TakesCandidate(e, rqs, src, dst, q); }
  }

  lemma {:induction false} CandidateFirst(e: Env, s: seq<Task>, dst: Cpu)
    requires forall q :: q in s ==> q in e.allowed
    ensures forall p: Task :: Candidate(e, s, dst) == Some(p) <==> FirstAllowed(e, s, dst, p)
  {
    if s != [] {
      CandidateFirst(e, s[1..], dst);
      forall p: Task ensures Candidate(e, s, dst) == Some(p) <==> FirstAllowed(e, s, dst, p) {
        FirstAllowedStep(e, s, dst, p);
      }
    }
  }

  lemma FirstAllowedStep(e: Env, s: seq<Task>, dst: Cpu, p: Task)
    requires s != [] && forall q :: q in s ==> q in e.allowed
    ensures FirstAllowed(e, s, dst, p) <==>
      if dst in e.allowed[s[0]] then p == s[0] else FirstAllowed(e, s[1..], dst, p)
  {
    var t := s[1..];
    if dst !in e.allowed[s[0]] && FirstAllowed(e, t, dst, p) {
      var i :| 0 <= i < |t| && t[i] == p && dst in e.allowed[p] && forall j :: 0 <= j < i ==> dst !in e.allowed[t[j]];
      assert s[i + 1] == p;
      forall j | 0 <= j < i + 1 ensures dst !in e.allowed[s[j]] {
        if j > 0 { assert s[j] == t[j - 1]; }
      }
    }
    if dst !in e.allowed[s[0]] && FirstAllowed(e, s, dst, p) {
      var i :| 0 <= i < |s| && s[i] == p && dst in e.allowed[p] && forall j :: 0 <= j < i ==> dst !in e.allowed[s[j]];
      assert t[i - 1] == p;
      forall j | 0 <= j < i - 1 ensures dst !in e.allowed[t[j]] { assert t[j] == s[j + 1]; }
    }
  }

  /* A task that may be pulled to c: it is allowed here, may move, and outranks every RT task here;
     it is pushable on another runqueue, where it does not outrank the running task. */
  ghost predicate Pullable(e: Env, rqs: seq<RtQueue>, c: Cpu, p: Task) {
    && c < |rqs| && p in e.prio && p in e.allowed && c in e.allowed[p] && |e.allowed[p]| > 1
    && e.prio[p] < rqs[c].highest
    && exists src :: 0 <= src < |rqs| && src != c && p in rqs[src].queued && p != rqs[src].curr
         && p in rqs[src].pushable && rqs[src].curr in e.prio && e.prio[p] >= e.prio[rqs[src].curr]
  }

  /* p is not the running task and does not outrank it. */
  ghost predicate Below(e: Env, p: Task, curr: Task) {
    p in e.prio && curr in e.prio && p != curr && e.prio[p] >= e.prio[curr]
  }

  lemma CurrKnown(e: Env, rqs: seq<RtQueue>, c: Cpu)
    requires AllOk(e, rqs) && c < |rqs|
    ensures rqs[c].curr in e.prio
  {
  }

  lemma OneOk(e: Env, rqs: seq<RtQueue>, c: Cpu)
    requires AllOk(e, rqs) && c < |rqs|
    ensures RqOk(e, rqs[c]) && Known(e, rqs[c]) && Counted(e, rqs[c]) && Listed(e, rqs[c])
    ensures forall q :: q in rqs[c].pushable ==>
      q in rqs[c].queued && q in e.prio && q in e.allowed && |e.allowed[q]| > 1 && q != rqs[c].curr
  {
  }

  lemma EmptyMask(rqs: seq<RtQueue>, rto: set<Cpu>, rtoCount: int)
    requires Masked(rqs, rto, rtoCount) && rtoCount == 0
    ensures rto == {}
  {
  }

  lemma NoneByNext(e: Env, rqs: seq<RtQueue>, src: Cpu, dst: Cpu)
    requires src < |rqs| && dst < |rqs| && RqOk(e, rqs[src]) && rqs[src].next >= rqs[dst].highest
    ensures NoneBetter(e, rqs, src, dst)
  {
    var s := rqs[src].pushable;
    forall q | q in s ensures q in e.prio && q in e.allowed {}
    CandidateBest(e, s, dst);
    if s != [] { SortedSplit(e, s); }
  }

  lemma NoneByCandidate(e: Env, rqs: seq<RtQueue>, src: Cpu, dst: Cpu)
    requires src < |rqs| && dst < |rqs| && RqOk(e, rqs[src])
    requires forall q :: q in rqs[src].pushable ==> q in e.allowed
    requires var p := Candidate(e, rqs[src].pushable, dst);
      || p == None
      || (p.value in e.prio && (e.prio[p.value] >= rqs[dst].highest || e.prio[p.value] < e.prio[rqs[src].curr]))
    ensures NoneBetter(e, rqs, src, dst)
  {
  }

  /* What outranks the best outranks all. */
  lemma BeatsAll(e: Env, r: RtQueue, p: Task)
    requires Known(e, r) && Counted(e, r) && p in e.prio && e.prio[p] < r.highest
    ensures forall q :: q in r.queued ==> q in e.prio && e.prio[p] < e.prio[q]
  {
  }

  lemma HighestFalls(e: Env, r: RtQueue, t: RtQueue, p: Task)
    requires Known(e, r) && Counted(e, r) && Known(e, t) && Counted(e, t) && t.queued == r.queued + {p}
    ensures t.highest <= e.prio[p] && t.highest <= r.highest
  {
  }

  lemma MaskInside(rqs: seq<RtQueue>, rto: set<Cpu>, rtoCount: int)
    requires Masked(rqs, rto, rtoCount)
    ensures forall c :: c in rto ==> c < |rqs|
  {
  }

  /* After a pull neither the CPU pulled from nor those looked at before have anything better. */
  lemma AfterPull(e: Env, rqs: seq<RtQueue>, now: seq<RtQueue>, src: Cpu, dst: Cpu, p: Task)
    requires Moved(rqs, now, src, dst, p)
    requires RqOk(e, rqs[src]) && RqOk(e, rqs[dst]) && RqOk(e, now[src]) && RqOk(e, now[dst])
    requires now[src].pushable == Without(rqs[src].pushable, p) && e.prio[p] < rqs[dst].highest
    requires (forall q :: q in rqs[src].pushable ==> q in e.allowed) && Candidate(e, rqs[src].pushable, dst) == Some(p)
    ensures now[dst].highest <= e.prio[p] && now[dst].highest <= rqs[dst].highest
    ensures NoneBetter(e, now, src, dst)
    ensures forall x :: 0 <= x < |rqs| && x != src && x != dst && NoneBetter(e, rqs, x, dst) ==>
      NoneBetter(e, now, x, dst)
  {
    var s := rqs[src].pushable;
    WithoutMembers(s, p);
    CandidateBest(e, s, dst);
    CandidateBest(e, now[src].pushable, dst);
    HighestFalls(e, rqs[dst], now[dst], p);
    NoneByCandidate(e, now, src, dst);
  }

  lemma MaskShrinks(rqs: seq<RtQueue>, rto: set<Cpu>, n: int,
                    now: seq<RtQueue>, nowRto: set<Cpu>, count: int, src: Cpu, dst: Cpu)
    requires Masked(rqs, rto, n) && Masked(now, nowRto, count) && |now| == |rqs|
    requires forall x :: 0 <= x < |rqs| && x != src && x != dst ==> now[x] == rqs[x]
    ensures forall x :: x in nowRto && x != src && x != dst ==> x in rto
  {
  }

  lemma NewcomerQueuedNowhere(e: Env, rqs: seq<RtQueue>, p: Task)
    requires AllOk(e, rqs) && p !in e.prio
    ensures forall c :: 0 <= c < |rqs| ==> p !in rqs[c].queued
  {
  }

  /* A push or pull: a task that did not run and may run elsewhere has moved to a CPU it is allowed
     on, where it outranks every RT task. */
  ghost predicate Pushed(e: Env, rqs: seq<RtQueue>, now: seq<RtQueue>, cpu: map<Task, Cpu>, nowCpu: map<Task, Cpu>,
                         src: Cpu, dst: Cpu, p: Task)
  {
    && Moved(rqs, now, src, dst, p) && nowCpu == cpu[p := dst]
    && p in e.allowed && |e.allowed[p]| > 1 && dst in e.allowed[p] && p != rqs[src].curr && p in e.prio
    && (forall q :: q in rqs[dst].queued ==> q in e.prio && e.prio[p] < e.prio[q])
  }

  /* The first k answers name other CPUs, each with an RT task at least as important as p. */
  ghost predicate Refused(e: Env, rqs: seq<RtQueue>, c: Cpu, p: Task, find: (Task, nat) -> Option<Cpu>, k: nat)
    requires p in e.prio
  {
    forall j :: 0 <= j < k ==>
      var v := find(p, j);
      v.Some? && v.value < |rqs| && v.value != c && rqs[v.value].highest <= e.prio[p]
  }

  /* The k-th answer is the first one that counts: a CPU other than c where p outranks every RT task. */
  ghost predicate Suits(e: Env, rqs: seq<RtQueue>, c: Cpu, p: Task, find: (Task, nat) -> Option<Cpu>, k: int) {
    && 0 <= k < 3 && p in e.prio && Refused(e, rqs, c, p, find, k)
    && var v := find(p, k);
      v.Some? && v.value < |rqs| && v.value != c && rqs[v.value].highest > e.prio[p]
  }

  /* When push_rt_task moves a task: the CPU is overloaded, its first pushable task does not outrank
     what runs here, and one of the answers suits. */
  ghost predicate MayPush(e: Env, rqs: seq<RtQueue>, c: Cpu, find: (Task, nat) -> Option<Cpu>) {
    && c < |rqs| && rqs[c].overloaded && rqs[c].pushable != []
    && var p := rqs[c].pushable[0];
      && p in e.prio && rqs[c].curr in e.prio && e.prio[p] >= e.prio[rqs[c].curr]
      && exists k :: Suits(e, rqs, c, p, find, k)
  }

  /* The answers end before one suits. */
  lemma NoneSuits(e: Env, rqs: seq<RtQueue>, c: Cpu, p: Task, find: (Task, nat) -> Option<Cpu>, tries: nat)
    requires p in e.prio && tries <= 3 && Refused(e, rqs, c, p, find, tries)
    requires tries == 3 || find(p, tries) == None || find(p, tries) == Some(c)
    ensures forall k :: !Suits(e, rqs, c, p, find, k)
  {
  }

  /* Three unsuitable answers, or fewer and then none or the CPU itself. */
  ghost predicate GivesUp(e: Env, rqs: seq<RtQueue>, c: Cpu, p: Task, find: (Task, nat) -> Option<Cpu>)
    requires p in e.prio
  {
    exists k :: 0 <= k <= 3 && Refused(e, rqs, c, p, find, k) && (k == 3 || find(p, k) == None || find(p, k) == Some(c))
  }

  /* Why the first pushable task was left where it is. */
  ghost predicate NothingToDo(e: Env, rqs: seq<RtQueue>, c: Cpu, p: Task, find: (Task, nat) -> Option<Cpu>) {
    && c < |rqs| && p in e.prio && rqs[c].curr in e.prio
    && (e.prio[p] < e.prio[rqs[c].curr] || GivesUp(e, rqs, c, p, find))
  }

  /* The BUG_ONs of pick_next_pushable_task. */
  lemma PickOk(e: Env, rqs: seq<RtQueue>, cpu: map<Task, Cpu>, c: Cpu)
    requires AllOk(e, rqs) && Placed(rqs, cpu) && c < |rqs| && rqs[c].pushable != []
    ensures var p := rqs[c].pushable[0];
      && p in cpu && cpu[p] == c && p != rqs[c].curr && p in e.allowed && |e.allowed[p]| > 1
      && p in rqs[c].queued && p in e.prio && 0 <= e.prio[p] < MAX_RT_PRIO
  {
    assert RqOk(e, rqs[c]);
    assert rqs[c].pushable[0] in rqs[c].pushable;
  }

  lemma WithoutHeadShorter(s: seq<Task>)
    requires s != []
    ensures |Without(s, s[0])| < |s|
  {
    WithoutShorter(s[1..], s[0]);
  }

  lemma {:induction false} WithoutShorter(s: seq<Task>, p: Task)
    ensures |Without(s, p)| <= |s|
  {
    if s != [] { WithoutShorter(s[1..], p); }
  }

  lemma ConservesAll(rqs: seq<RtQueue>, now: seq<RtQueue>, src: Cpu, dst: Cpu, p: Task)
    requires Moved(rqs, now, src, dst, p)
    ensures forall q :: Queued(rqs, q) <==> Queued(now, q)
  {
  }

  lemma OnlineOk(e: Env, rqs: seq<RtQueue>, cpu: map<Task, Cpu>, c: Cpu, online: bool)
    requires AllOk(e, rqs) && Placed(rqs, cpu) && c < |rqs|
    ensures AllOk(e, rqs[c := rqs[c].(online := online)]) && Placed(rqs[c := rqs[c].(online := online)], cpu)
  {
  }

  lemma OnlyHere(rqs: seq<RtQueue>, cpu: map<Task, Cpu>, c: Cpu, p: Task)
    requires Placed(rqs, cpu) && c < |rqs| && p in rqs[c].queued
    ensures cpu[p] == c && forall x :: 0 <= x < |rqs| && x != c ==> p !in rqs[x].queued
  {
  }

  lemma Elsewhere(rqs: seq<RtQueue>, cpu: map<Task, Cpu>, c: Cpu, p: Task)
    requires Placed(rqs, cpu) && p in cpu && cpu[p] == c
    ensures forall x :: 0 <= x < |rqs| && x != c ==> p !in rqs[x].queued
  {
  }

  lemma PlacedSame(rqs: seq<RtQueue>, now: seq<RtQueue>, cpu: map<Task, Cpu>)
    requires Placed(rqs, cpu) && |now| == |rqs| && forall x :: 0 <= x < |rqs| ==> now[x].queued == rqs[x].queued
    ensures Placed(now, cpu)
  {
  }

  /* A new mask for p only: everything but whether p may move stays. */
  ghost predicate OtherMask(e: Env, f: Env, p: Task) {
    && p in e.prio && e.allowed.Keys == e.prio.Keys && f.allowed.Keys == e.allowed.Keys && f.prio == e.prio
    && forall q {:trigger f.allowed[q]} :: q in e.allowed && q != p ==> f.allowed[q] == e.allowed[q]
  }

  /* What a new mask does to the list: a waiting task joins it behind its equals when it may move
     from now on, leaves it when it may not any more. */
  ghost predicate Remasked(e: Env, r: RtQueue, t: RtQueue, p: Task, mask: set<Cpu>) {
    && p in e.allowed
    && if p !in r.queued || p == r.curr || Mobile(e, p) == (|mask| > 1) then t.pushable == r.pushable
       else if |mask| > 1 then Inserted(e, r.pushable, t.pushable, p)
       else t.pushable == Without(r.pushable, p)
  }

  lemma ReindexMasks(e: Env, r: RtQueue, t: RtQueue, p: Task, mask: set<Cpu>)
    requires RqOk(e, r) && p in r.queued && Mobile(e, p) != (|mask| > 1)
    requires p == r.curr ==> t.pushable == r.pushable
    requires p != r.curr && |mask| <= 1 ==> t.pushable == Without(r.pushable, p)
    requires p != r.curr && |mask| > 1 ==> Inserted(e, Without(r.pushable, p), t.pushable, p)
    ensures Remasked(e, r, t, p, mask)
  {
    hide Inserted;
    WithoutMembers(r.pushable, p);
  }

  lemma MovableMask(e: Env, f: Env, s: set<Task>, p: Task)
    requires OtherMask(e, f, p) && p in s && (forall q :: q in s ==> q in e.allowed) && Mobile(e, p) != Mobile(f, p)
    ensures if Mobile(f, p) then Movable(f, s) == Movable(e, s) + {p} && p !in Movable(e, s)
            else Movable(f, s) == Movable(e, s) - {p} && p in Movable(e, s)
  {
  }

  lemma OneMember<T>(a: set<T>, b: set<T>, p: T)
    ensures p !in a && b == a + {p} ==> |b| == |a| + 1
    ensures p in a && b == a - {p} ==> |b| == |a| - 1
  {
  }

  lemma MaskWeight(e: Env, f: Env, r: RtQueue, p: Task)
    requires RqOk(e, r) && OtherMask(e, f, p) && p in r.queued && Mobile(e, p) != Mobile(f, p)
    ensures |Movable(f, r.queued)| == |Movable(e, r.queued)| + if Mobile(f, p) then 1 else -1
    ensures Movable(f, r.queued) == if Mobile(f, p) then Movable(e, r.queued) + {p} else Movable(e, r.queued) - {p}
    ensures !Mobile(f, p) ==> r.migratory >= 1
  {
    hide IsBest, Listed;
    MovableMask(e, f, r.queued, p);
    OneMember(Movable(e, r.queued), Movable(f, r.queued), p);
  }

  lemma MaskChangeOk(e: Env, f: Env, r: RtQueue, t: RtQueue, p: Task)
    requires RqOk(e, r) && OtherMask(e, f, p) && p in r.queued && Mobile(e, p) != Mobile(f, p)
    requires t.queued == r.queued && t.highest == r.highest && t.total == r.total && t.curr == r.curr
    requires t.migratory == r.migratory + (if Mobile(f, p) then 1 else -1)
    requires Flagged(t) && Listed(e, t)
    requires p in t.pushable <==> p != r.curr && Mobile(f, p)
    requires forall q :: q != p ==> (q in t.pushable <==> q in r.pushable)
    ensures RqOk(f, t)
  {
    hide Distinct;
    MaskWeight(e, f, r, p);
    assert Sorted(f, t.pushable);
  }

  lemma SameMobility(e: Env, f: Env, r: RtQueue, p: Task)
    requires RqOk(e, r) && OtherMask(e, f, p) && (p in r.queued ==> Mobile(e, p) == Mobile(f, p))
    ensures RqOk(f, r)
  {
    assert Movable(f, r.queued) == Movable(e, r.queued);
    assert Sorted(f, r.pushable);
  }

  lemma AllExcept(e: Env, f: Env, rqs: seq<RtQueue>, c: Cpu, r: RtQueue, p: Task)
    requires AllOk(e, rqs) && OtherMask(e, f, p) && c < |rqs| && RqOk(f, r)
    requires forall x :: 0 <= x < |rqs| && x != c ==> p !in rqs[x].queued
    ensures AllOk(f, rqs[c := r])
  {
    hide RqOk;
    var now := rqs[c := r];
    forall x | 0 <= x < |now| ensures RqOk(f, now[x]) {
      if x != c { EnvFrame(e, f, rqs[x], p); }
    }
  }
}
