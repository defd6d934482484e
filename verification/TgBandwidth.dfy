/**
 Admission control over the task group tree: whatever requests are granted, every group's ratio, as
 to_ratio counts it, covers its children's ratios and stays within the global limit's; and what that
 says of CPU time. It says nothing of a group whose runtime is so long that its ratio wraps.
 */
module TgBandwidth {
  import opened Util
  import opened CpuRatio
  import opened TgWalk

  const EINVAL: int := 22
  const EBUSY: int := 16

  // ----- the check of one group

  /* The bandwidth of every group of the tree. */
  datatype Groups = Groups(h: Hierarchy, root: Tg, period: map<Tg, nat>, runtime: map<Tg, nat>)

  /* struct rt_schedulable_data: the values to try out for one group, if any; busy are the groups
     that have RT tasks at the time. */
  datatype Proposal = Proposal(tg: Option<Tg>, period: nat, runtime: nat, busy: set<Tg>)

  /* The global limit; it is off when the runtime is infinite. */
  datatype Limit = Limit(period: nat, runtime: nat)

  ghost predicate Known(s: Groups) {
    && WellFormed(s.h) && s.root in s.h.parent && s.h.parent[s.root] == None
    && s.period.Keys == s.h.parent.Keys && s.runtime.Keys == s.h.parent.Keys
    && (forall g {:trigger s.h.parent[g]} :: g in s.h.parent && s.h.parent[g] == None ==> g == s.root)
    && (forall g {:trigger s.h.children[g]} :: g in s.h.parent ==> |s.h.children[g]| < MANY)
  }

  function PeriodOf(s: Groups, d: Proposal, g: Tg): nat {
    if d.tg == Some(g) then d.period else if g in s.period then s.period[g] else 0
  }

  function RuntimeOf(s: Groups, d: Proposal, g: Tg): nat {
    if d.tg == Some(g) then d.runtime else if g in s.runtime then s.runtime[g] else 0
  }

  function Ratio(s: Groups, d: Proposal, g: Tg): nat {
    ToRatio(PeriodOf(s, d, g), RuntimeOf(s, d, g))
  }

  /* The sum over the list of children as the loop forms it, in an unsigned long. */
  function WrappedSum(s: Groups, d: Proposal, cs: seq<Tg>): int {
    if cs == [] then 0 else U64(WrappedSum(s, d, cs[..|cs| - 1]) + Ratio(s, d, cs[|cs| - 1]))
  }

  function Verdict(s: Groups, d: Proposal, l: Limit, g: Tg): int {
    var period, runtime, total := PeriodOf(s, d, g), RuntimeOf(s, d, g), Ratio(s, d, g);
    if runtime > period && runtime != RUNTIME_INF then -EINVAL
    else if l.runtime != RUNTIME_INF && runtime == 0 && g in d.busy then -EBUSY
    else if total > ToRatio(l.period, l.runtime) then -EINVAL
    else if g in s.h.children && WrappedSum(s, d, s.h.children[g]) > total then -EINVAL
    else 0
  }

  /* The answer on group g with this period and runtime. Starving RT tasks outweighs the ratios. */
  ghost predicate Judged(s: Groups, d: Proposal, l: Limit, g: Tg, period: nat, runtime: nat, ret: int)
    requires g in s.h.children
  {
    && ret in {0, -EBUSY, -EINVAL}
    && (ret == -EBUSY <==> runtime == 0 && g in d.busy && l.runtime != RUNTIME_INF)
    && (ret == 0 <==>
        && !(runtime == 0 && g in d.busy && l.runtime != RUNTIME_INF)
        && (runtime <= period || runtime == RUNTIME_INF)
        && WrappedSum(s, d, s.h.children[g]) <= ToRatio(period, runtime) <= ToRatio(l.period, l.runtime))
  }

  /* tg_rt_schedulable. */
  method TgRtSchedulable(s: Groups, d: Proposal, l: Limit, tg: Tg) returns (ret: int)
    requires tg in s.period && tg in s.runtime && tg in s.h.children
    requires forall c :: c in s.h.children[tg] ==> c in s.period && c in s.runtime
    ensures ret == Verdict(s, d, l, tg)
    ensures if d.tg == Some(tg) then Judged(s, d, l, tg, d.period, d.runtime, ret)
            else Judged(s, d, l, tg, s.period[tg], s.runtime[tg], ret)
  {
    var sum := 0;
    var period, runtime := s.period[tg], s.runtime[tg];
    if d.tg == Some(tg) {
      period, runtime := d.period, d.runtime;
    }
    if runtime > period && runtime != RUNTIME_INF { return -EINVAL; }
    if l.runtime != RUNTIME_INF && runtime == 0 && tg in d.busy { return -EBUSY; }
    var total := ToRatio(period, runtime);
    if total > ToRatio(l.period, l.runtime) { return -EINVAL; }
    var cs := s.h.children[tg];
    for i := 0 to |cs|
      invariant sum == WrappedSum(s, d, cs[..i])
    {
      var child := cs[i];
      period, runtime := s.period[child], s.runtime[child];
      if d.tg == Some(child) {
        period, runtime := d.period, d.runtime;
      }
      assert cs[..i + 1][..i] == cs[..i];
      sum := U64(sum + ToRatio(period, runtime));
    }
    assert cs[..|cs|] == cs;
    if sum > total { return -EINVAL; }
    return 0;
  }

  // ----- what the walk decides

  ghost function Sum(s: Groups, d: Proposal, cs: seq<Tg>): nat {
    if cs == [] then 0 else Sum(s, d, cs[..|cs| - 1]) + Ratio(s, d, cs[|cs| - 1])
  }

  /* No group has more than its period or starves RT tasks, no ratio exceeds the global limit's, and
     every group's ratio covers its children's. */
  ghost predicate Schedulable(s: Groups, d: Proposal, l: Limit) {
    forall g {:trigger s.h.children[g]} :: g in s.h.parent && g in s.h.children ==>
      && (RuntimeOf(s, d, g) <= PeriodOf(s, d, g) || RuntimeOf(s, d, g) == RUNTIME_INF)
      && (l.runtime != RUNTIME_INF && RuntimeOf(s, d, g) == 0 ==> g !in d.busy)
      && Ratio(s, d, g) <= ToRatio(l.period, l.runtime)
      && Sum(s, d, s.h.children[g]) <= Ratio(s, d, g)
  }

  lemma NoWrap(n: nat, sum: nat, ratio: nat)
    requires 0 < n < MANY && sum <= (n - 1) * UNIT && ratio <= UNIT
    ensures U64(sum + ratio) == sum + ratio <= n * UNIT
  {
  }

  lemma {:induction false} SumExact(s: Groups, d: Proposal, cs: seq<Tg>)
    requires |cs| < MANY && forall c :: c in cs ==> Ratio(s, d, c) <= UNIT
    ensures WrappedSum(s, d, cs) == Sum(s, d, cs) && Sum(s, d, cs) <= |cs| * UNIT
  {
    hide Ratio, U64;
    if cs != [] {
      assert cs[|cs| - 1] in cs;
      SumExact(s, d, cs[..|cs| - 1]);
      NoWrap(|cs|, Sum(s, d, cs[..|cs| - 1]), Ratio(s, d, cs[|cs| - 1]));
    }
  }

  /* A visitor that looks at the group alone, and tg_nop. */
  function Each(f: Tg -> int): Visitor {
    (past: seq<Visit>, g: Tg) => f(g)
  }

  function Nop(): Visitor {
    (past: seq<Visit>, g: Tg) => 0
  }

  /* A visitor that looks at nothing but the group lets the walk end with 0 exactly if it accepts
     every group of the subtree; otherwise the walk returns what it said of one of them. */
  lemma {:induction false} WalkAccepts(h: Hierarchy, g: Tg, f: Tg -> int, past: seq<Visit>)
    requires WellFormed(h) && g in h.parent
    ensures var r := Walk(h, g, Each(f), Nop(), past).1;
      && (r == 0 <==> forall x :: x in h.parent && Below(h, g, x) ==> f(x) == 0)
      && (r != 0 ==> exists x :: x in h.parent && Below(h, g, x) && f(x) == r)
    decreases Deeper(h, g), |h.children[g]| + 1
  {
    if f(g) == 0 {
      WalkChildrenAccept(h, g, 0, f, past + [Down(g)]);
      forall x | x in h.parent ensures Below(h, g, x) <==> x == g || UnderChildren(h, g, 0, x) {
        BelowSplit(h, g, x);
      }
    } else {
      assert Below(h, g, g);
    }
  }

  lemma {:induction false} WalkChildrenAccept(h: Hierarchy, g: Tg, i: nat, f: Tg -> int, past: seq<Visit>)
    requires WellFormed(h) && g in h.parent && i <= |h.children[g]|
    ensures var r := WalkChildren(h, g, i, Each(f), Nop(), past).1;
      && (r == 0 <==> forall x :: x in h.parent && UnderChildren(h, g, i, x) ==> f(x) == 0)
      && (r != 0 ==> exists x :: x in h.parent && UnderChildren(h, g, i, x) && f(x) == r)
    decreases Deeper(h, g), |h.children[g]| - i
  {
    if i < |h.children[g]| {
      ChildDeeper(h, g, i);
      var c := h.children[g][i];
      WalkAccepts(h, c, f, past);
      var (now, ret) := Walk(h, c, Each(f), Nop(), past);
      if ret == 0 { WalkChildrenAccept(h, g, i + 1, f, now); }
      forall x | x in h.parent
        ensures UnderChildren(h, g, i, x) <==> Below(h, c, x) || UnderChildren(h, g, i + 1, x)
      {
        UnderSplit(h, g, i, x);
      }
    }
  }

  lemma {:induction false} RootAbove(s: Groups, g: Tg)
    requires Known(s) && g in s.h.parent
    ensures Below(s.h, s.root, g)
    decreases s.h.level[g]
  {
    if g != s.root {
      assert s.h.parent[g].Some?;
      RootAbove(s, s.h.parent[g].value);
    }
  }

  predicate Sane(l: Limit) {
    l.runtime <= l.period || l.runtime == RUNTIME_INF
  }

  /* The verdicts on all groups together; none of their sums wraps then. */
  lemma VerdictsAgree(s: Groups, d: Proposal, l: Limit)
    requires Known(s) && Sane(l)
    ensures (forall g :: g in s.h.parent ==> Verdict(s, d, l, g) == 0) <==> Schedulable(s, d, l)
  {
    hide ToRatio, WrappedSum, Sum, WellFormed;
    TreeShape(s.h);
    RatioBound(l.period, l.runtime);
    if (forall g :: g in s.h.parent ==> Verdict(s, d, l, g) == 0) || Schedulable(s, d, l) {
      forall g | g in s.h.parent ensures Ratio(s, d, g) <= UNIT {
        assert Verdict(s, d, l, g) == 0 || g in s.h.children;
      }
      forall g | g in s.h.parent ensures WrappedSum(s, d, s.h.children[g]) == Sum(s, d, s.h.children[g]) {
        forall c | c in s.h.children[g] ensures Ratio(s, d, c) <= UNIT { assert c in s.h.parent; }
        SumExact(s, d, s.h.children[g]);
      }
    }
  }

  /* __rt_schedulable accepts a proposal exactly if it is schedulable, and otherwise answers with
     what is wrong with one of the groups. */
  method RtSchedulable(s: Groups, d: Proposal, l: Limit) returns (ret: int)
    requires Known(s) && Sane(l)
    ensures ret == 0 <==> Schedulable(s, d, l)
    ensures ret != 0 ==> ret in {-EINVAL, -EBUSY} && exists g :: g in s.h.parent && Verdict(s, d, l, g) == ret
    ensures ret != 0 ==> exists k :: FirstRefused(s, d, l, Visits(s.h, s.root), k, ret)
  {
    var f := (g: Tg) => Verdict(s, d, l, g);
    var visits;
    visits, ret := WalkTgTreeFrom(s.h, s.root, Each(f), Nop());
    WalkAccepts(s.h, s.root, f, []);
    forall g | g in s.h.parent ensures Below(s.h, s.root, g) && f(g) == Verdict(s, d, l, g) { RootAbove(s, g); }
    VerdictsAgree(s, d, l);
    if ret != 0 { FirstObjection(s, d, l, f); }
  }

  /* The k-th visit enters a group that is not accepted, for the reason ret, after accepted ones only. */
  ghost predicate FirstRefused(s: Groups, d: Proposal, l: Limit, visits: seq<Visit>, k: int, ret: int) {
    && 0 <= k < |visits| && visits[k].Down? && Verdict(s, d, l, visits[k].g) == ret != 0
    && forall j :: 0 <= j < k && visits[j].Down? ==> Verdict(s, d, l, visits[j].g) == 0
  }

  lemma FirstObjection(s: Groups, d: Proposal, l: Limit, f: Tg -> int)
    requires Known(s) && forall g :: f(g) == Verdict(s, d, l, g)
    requires Walk(s.h, s.root, Each(f), Nop(), []).1 != 0
    ensures exists k :: FirstRefused(s, d, l, Visits(s.h, s.root), k, Walk(s.h, s.root, Each(f), Nop(), []).1)
  {
    hide Walk, Visits, Verdict;
    WalkStops(s.h, s.root, Each(f), Nop(), []);
    WalkVisits(s.h, s.root, Each(f), Nop(), []);
    var (visits, ret) := Walk(s.h, s.root, Each(f), Nop(), []);
    var k := |visits| - 1;
    assert [] + Visits(s.h, s.root) == Visits(s.h, s.root);
    forall j | 0 <= j < k && visits[j].Down? ensures f(visits[j].g) == 0 {
      assert Says(Each(f), Nop(), visits, j) == 0;
    }
    assert FirstRefused(s, d, l, Visits(s.h, s.root), k, ret);
  }

  // ----- runs of granted and refused requests

  function NoProposal(busy: set<Tg>): Proposal { Proposal(None, 0, 0, busy) }

  /* No group has more than its period; every group's ratio is at most the global limit's and covers
     the ratios of its children. */
  ghost predicate Sound(s: Groups, l: Limit) {
    && Known(s) && Sane(l)
    && forall g {:trigger s.h.children[g]} :: g in s.h.parent ==>
        && Sane(Own(s, g))
        && OwnRatio(s, g) <= ToRatio(l.period, l.runtime)
        && Sum(s, NoProposal({}), s.h.children[g]) <= OwnRatio(s, g)
  }

  /* The period and runtime of a group. */
  ghost function Own(s: Groups, g: Tg): Limit {
    Limit(PeriodOf(s, NoProposal({}), g), RuntimeOf(s, NoProposal({}), g))
  }

  ghost function OwnRatio(s: Groups, g: Tg): nat {
    Ratio(s, NoProposal({}), g)
  }

  /* Sums depend on nothing but the ratios. */
  lemma {:induction false} SumFrame(s: Groups, d: Proposal, s': Groups, d': Proposal, cs: seq<Tg>)
    requires forall c :: c in cs ==> Ratio(s, d, c) == Ratio(s', d', c)
    ensures Sum(s, d, cs) == Sum(s', d', cs)
  {
    if cs != [] {
      assert cs[|cs| - 1] in cs;
      SumFrame(s, d, s', d', cs[..|cs| - 1]);
    }
  }

  lemma {:induction false} SumConcat(s: Groups, d: Proposal, a: seq<Tg>, b: seq<Tg>)
    ensures Sum(s, d, a + b) == Sum(s, d, a) + Sum(s, d, b)
  {
    if b == [] {
      assert a + b == a;
    } else {
      assert (a + b)[..|a + b| - 1] == a + b[..|b| - 1];
      SumConcat(s, d, a, b[..|b| - 1]);
    }
  }

  lemma TreeShape(h: Hierarchy)
    requires WellFormed(h)
    ensures h.children.Keys == h.parent.Keys && h.level.Keys == h.parent.Keys
    ensures forall g, c {:trigger c in h.children[g]} :: g in h.parent && c in h.children[g] ==> c in h.parent
  {
  }

  lemma SumOne(s: Groups, d: Proposal, g: Tg)
    ensures Sum(s, d, [g]) == Ratio(s, d, g)
    ensures Sum(s, d, []) == 0
  {
  }

  ghost function Granted(s: Groups, tg: Tg, period: nat, runtime: nat): Groups {
    s.(period := s.period[tg := period], runtime := s.runtime[tg := runtime])
  }

  lemma GrantKeepsSound(s: Groups, l: Limit, tg: Tg, period: nat, runtime: nat, busy: set<Tg>)
    requires Known(s) && Sane(l) && tg in s.h.parent
    requires Schedulable(s, Proposal(Some(tg), period, runtime, busy), l)
    ensures Sound(Granted(s, tg, period, runtime), l)
  {
    hide ToRatio, WellFormed, Sum;
    TreeShape(s.h);
    var d, t := Proposal(Some(tg), period, runtime, busy), Granted(s, tg, period, runtime);
    assert t.period.Keys == s.period.Keys && t.runtime.Keys == s.runtime.Keys;
    forall g ensures Ratio(s, d, g) == OwnRatio(t, g) && Own(t, g) == Limit(PeriodOf(s, d, g), RuntimeOf(s, d, g)) {}
    forall g | g in s.h.parent ensures Sum(s, d, s.h.children[g]) == Sum(t, NoProposal({}), s.h.children[g]) {
      SumFrame(s, d, t, NoProposal({}), s.h.children[g]);
    }
  }

  lemma LimitKeepsSound(s: Groups, l: Limit, busy: set<Tg>)
    requires Known(s) && Sane(l) && Schedulable(s, NoProposal(busy), l)
    ensures Sound(s, l)
  {
    forall g | g in s.h.parent
      ensures Sum(s, NoProposal(busy), s.h.children[g]) == Sum(s, NoProposal({}), s.h.children[g])
    {
      SumFrame(s, NoProposal(busy), s, NoProposal({}), s.h.children[g]);
    }
  }

  // ----- creation and destruction

  /* sched_create_group and sched_online_group: no runtime, first in its parent's list. */
  ghost function Created(s: Groups, tg: Tg, parent: Tg, period: nat): Groups
    requires parent in s.h.level && parent in s.h.children
  {
    var h := Hierarchy(s.h.parent[tg := Some(parent)],
                       s.h.children[parent := [tg] + s.h.children[parent]][tg := []],
                       s.h.level[tg := s.h.level[parent] + 1]);
    Groups(h, s.root, s.period[tg := period], s.runtime[tg := 0])
  }

  lemma CreateKeepsTree(h: Hierarchy, tg: Tg, parent: Tg)
    requires WellFormed(h) && parent in h.parent && tg !in h.parent
    ensures WellFormed(Hierarchy(h.parent[tg := Some(parent)],
                                 h.children[parent := [tg] + h.children[parent]][tg := []],
                                 h.level[tg := h.level[parent] + 1]))
  {
    assert tg !in h.children[parent];
    DistinctConcat([tg], h.children[parent]);
  }

  lemma NothingIsZero(period: nat)
    ensures ToRatio(period, 0) == 0
  {
  }

  lemma CreateKeepsKnown(s: Groups, tg: Tg, parent: Tg, period: nat)
    requires Known(s) && parent in s.h.parent && tg !in s.h.parent
    requires parent in s.h.level && parent in s.h.children && |s.h.children[parent]| + 1 < MANY
    ensures Known(Created(s, tg, parent, period))
  {
    hide WellFormed;
    TreeShape(s.h);
    CreateKeepsTree(s.h, tg, parent);
  }

  lemma CreateKeepsSound(s: Groups, l: Limit, tg: Tg, parent: Tg, period: nat)
    requires Sound(s, l) && parent in s.h.parent && tg !in s.h.parent && |s.h.children[parent]| + 1 < MANY
    ensures Sound(Created(s, tg, parent, period), l)
  {
    hide ToRatio, WellFormed, Sum, Known;
    SoundIsKnown(s, l);
    TreeShape(s.h);
    var t, d := Created(s, tg, parent, period), NoProposal({});
    CreateKeepsKnown(s, tg, parent, period);
    NothingIsZero(period);
    forall g | g in s.h.parent ensures Sum(t, d, t.h.children[g]) == Sum(s, d, s.h.children[g]) {
      forall c | c in s.h.children[g] ensures Ratio(s, d, c) == Ratio(t, d, c) { assert c in s.h.parent; }
      SumFrame(s, d, t, d, s.h.children[g]);
      if g == parent {
        SumConcat(t, d, [tg], s.h.children[g]);
        SumOne(t, d, tg);
      }
    }
    SumOne(t, d, tg);
    forall g | g in t.h.parent
      ensures OwnRatio(t, g) <= ToRatio(l.period, l.runtime) && Sum(t, d, t.h.children[g]) <= OwnRatio(t, g)
      ensures Sane(Own(t, g))
    {
      if g != tg { assert g in s.h.parent && g in s.h.children; }
    }
  }

  /* sched_offline_group, for a group without children. */
  ghost function Destroyed(s: Groups, tg: Tg): Groups
    requires tg in s.h.parent && s.h.parent[tg].Some? && s.h.parent[tg].value in s.h.children
  {
    var p := s.h.parent[tg].value;
    var h := Hierarchy(s.h.parent - {tg}, s.h.children[p := Without(s.h.children[p], tg)] - {tg}, s.h.level - {tg});
    Groups(h, s.root, s.period - {tg}, s.runtime - {tg})
  }

  lemma DestroyKeepsTree(h: Hierarchy, tg: Tg)
    requires WellFormed(h) && tg in h.parent && h.parent[tg].Some? && h.children[tg] == []
    ensures var p := h.parent[tg].value;
      WellFormed(Hierarchy(h.parent - {tg}, h.children[p := Without(h.children[p], tg)] - {tg}, h.level - {tg}))
  {
    var p := h.parent[tg].value;
    WithoutMembers(h.children[p], tg);
    var t := Hierarchy(h.parent - {tg}, h.children[p := Without(h.children[p], tg)] - {tg}, h.level - {tg});
    forall c | c in t.parent && t.parent[c].Some?
      ensures t.parent[c].value in t.level && t.level[c] == t.level[t.parent[c].value] + 1
    {
      assert c in h.children[h.parent[c].value];
    }
  }

  lemma {:induction false} SumWithout(s: Groups, d: Proposal, cs: seq<Tg>, x: Tg)
    ensures Sum(s, d, Without(cs, x)) <= Sum(s, d, cs) && |Without(cs, x)| <= |cs|
  {
    if cs != [] {
      SumWithout(s, d, cs[1..], x);
      assert cs == [cs[0]] + cs[1..];
      SumConcat(s, d, [cs[0]], cs[1..]);
      SumConcat(s, d, [cs[0]], Without(cs[1..], x));
    }
  }

  lemma DestroyKeepsSound(s: Groups, l: Limit, tg: Tg)
    requires Sound(s, l) && tg in s.h.parent && tg != s.root && s.h.children[tg] == []
    ensures s.h.parent[tg].Some? && s.h.parent[tg].value in s.h.children
    ensures Sound(Destroyed(s, tg), l)
  {
    assert s.h.parent[tg].Some?;
    assert s.h.parent[tg].value in s.h.level;
    hide WellFormed, Sum, Ratio;
    DestroyKeepsSums(s, l, tg);
  }

  lemma DestroyKeepsSums(s: Groups, l: Limit, tg: Tg)
    requires Sound(s, l) && tg in s.h.parent && s.h.children[tg] == []
    requires s.h.parent[tg].Some? && s.h.parent[tg].value in s.h.children
    ensures Sound(Destroyed(s, tg), l)
  {
    hide ToRatio, WellFormed, Sum;
    TreeShape(s.h);
    DestroyKeepsTree(s.h, tg);
    var t, d := Destroyed(s, tg), NoProposal({});
    TreeShape(t.h);
    forall g | g in t.h.parent
      ensures OwnRatio(t, g) <= ToRatio(l.period, l.runtime) && Sum(t, d, t.h.children[g]) <= OwnRatio(t, g)
      ensures |t.h.children[g]| < MANY && Sane(Own(t, g))
    {
      assert g in s.h.parent && |s.h.children[g]| < MANY;
      forall c | c in t.h.children[g] ensures Ratio(s, d, c) == Ratio(t, d, c) { assert c in t.h.parent; }
      SumFrame(s, d, t, d, t.h.children[g]);
      SumWithout(s, d, s.h.children[g], tg);
    }
  }

  /* A group is on no list but its parent's. */
  lemma ListsWithout(h: Hierarchy, tg: Tg)
    requires WellFormed(h) && tg in h.parent && h.parent[tg].Some?
    ensures forall g :: g in h.parent && g != h.parent[tg].value ==>
      g in h.children && Without(h.children[g], tg) == h.children[g]
  {
    forall g | g in h.parent && g != h.parent[tg].value ensures Without(h.children[g], tg) == h.children[g] {
      WithoutMembers(h.children[g], tg);
    }
  }

  // ----- what soundness gives

  ghost predicate Apart(h: Hierarchy, a: set<Tg>)
    requires WellFormed(h) && a <= h.parent.Keys
  {
    forall x, y :: x in a && y in a && x != y ==> !Below(h, x, y)
  }

  ghost function Ratios(s: Groups, a: set<Tg>): map<Tg, int> {
    map g | g in a :: OwnRatio(s, g)
  }

  lemma RatiosUnion(s: Groups, a: set<Tg>, b: set<Tg>)
    requires a !! b
    ensures SumMap(Ratios(s, a + b)) == SumMap(Ratios(s, a)) + SumMap(Ratios(s, b))
  {
    hide SumMap, OwnRatio;
    assert Ratios(s, a) + Ratios(s, b) == Ratios(s, a + b);
    SumMapUnion(Ratios(s, a), Ratios(s, b));
  }

  /* The ratios of any groups of a subtree, none of which contains another, fit into the ratio of its
     top: distributing a group's ratio further down never makes more of it. */
  lemma {:induction false} AntichainFits(s: Groups, l: Limit, g: Tg, a: set<Tg>)
    requires Sound(s, l) && g in s.h.parent && a <= s.h.parent.Keys && Apart(s.h, a)
    requires forall x :: x in a ==> Below(s.h, g, x)
    ensures SumMap(Ratios(s, a)) <= OwnRatio(s, g)
    decreases Deeper(s.h, g), |s.h.children[g]| + 1
  {
    hide SumMap, Ratio, Sum;
    if g in a {
      forall x | x in a ensures x == g { assert Below(s.h, g, x); }
      assert Ratios(s, a) == map[g := OwnRatio(s, g)];
      SumMapOne(g, OwnRatio(s, g));
    } else {
      forall x | x in a ensures UnderChildren(s.h, g, 0, x) { BelowSplit(s.h, g, x); }
      AntichainFitsFrom(s, l, g, 0, a);
      assert s.h.children[g][0..] == s.h.children[g];
    }
  }

  lemma NothingUnder(h: Hierarchy, g: Tg, x: Tg)
    requires WellFormed(h) && g in h.parent && x in h.parent
    ensures !UnderChildren(h, g, |h.children[g]|, x)
  {
  }

  lemma {:induction false} AntichainFitsFrom(s: Groups, l: Limit, g: Tg, i: nat, a: set<Tg>)
    requires Sound(s, l) && g in s.h.parent && i <= |s.h.children[g]| && a <= s.h.parent.Keys && Apart(s.h, a)
    requires forall x :: x in a ==> UnderChildren(s.h, g, i, x)
    ensures SumMap(Ratios(s, a)) <= Sum(s, NoProposal({}), s.h.children[g][i..])
    decreases Deeper(s.h, g), |s.h.children[g]| - i
  {
    hide SumMap, Ratio, Sum, WellFormed, Below;
    TreeShape(s.h);
    var cs := s.h.children[g];
    if i == |cs| {
      forall x | x in s.h.parent ensures !UnderChildren(s.h, g, i, x) { NothingUnder(s.h, g, x); }
      assert a == {};
      assert Ratios(s, a) == map[];
      SumMapEmpty<Tg>();
    } else {
      ChildDeeper(s.h, g, i);
      var a1, a2 := set x | x in a && Below(s.h, cs[i], x), set x | x in a && !Below(s.h, cs[i], x);
      forall x | x in a2 ensures UnderChildren(s.h, g, i + 1, x) { UnderSplit(s.h, g, i, x); }
      AntichainFits(s, l, cs[i], a1);
      AntichainFitsFrom(s, l, g, i + 1, a2);
      assert a == a1 + a2;
      RatiosUnion(s, a1, a2);
      assert cs[i..] == [cs[i]] + cs[i + 1..];
      SumConcat(s, NoProposal({}), [cs[i]], cs[i + 1..]);
      SumOne(s, NoProposal({}), cs[i]);
    }
  }

  /* So ratios of such groups never add up to more than the limit's, which is at most one CPU. */
  lemma NeverOvercommitted(s: Groups, l: Limit, a: set<Tg>)
    requires Sound(s, l) && a <= s.h.parent.Keys && Apart(s.h, a)
    ensures SumMap(Ratios(s, a)) <= OwnRatio(s, s.root) <= ToRatio(l.period, l.runtime) <= UNIT
  {
    forall x | x in a ensures Below(s.h, s.root, x) { RootAbove(s, x); }
    AntichainFits(s, l, s.root, a);
    assert s.root in s.h.children;
    RatioBound(l.period, l.runtime);
  }

  // ----- what that says of time

  /* The part of a CPU that a group may really use. */
  ghost function OwnTime(s: Groups, g: Tg): real {
    TimeShare(Own(s, g).period, Own(s, g).runtime)
  }

  ghost function Times(s: Groups, a: set<Tg>): map<Tg, real> {
    map g | g in a :: OwnTime(s, g)
  }

  /* No ratio in a wraps. */
  ghost predicate AllUnwrapped(s: Groups, a: set<Tg>) {
    forall g :: g in a ==> Unwrapped(Own(s, g).runtime)
  }

  lemma OwnTimeBelow(s: Groups, l: Limit, g: Tg)
    requires Sound(s, l) && g in s.h.parent && Unwrapped(Own(s, g).runtime)
    ensures OwnTime(s, g) * UNIT as real < (OwnRatio(s, g) + 1) as real
  {
    assert g in s.h.children;
    ShareBelow(Own(s, g).period, Own(s, g).runtime);
  }

  lemma OwnRatioBelow(s: Groups, g: Tg)
    ensures OwnRatio(s, g) as real <= OwnTime(s, g) * UNIT as real
  {
    RatioBelow(Own(s, g).period, Own(s, g).runtime);
  }

  lemma TimesBelow(s: Groups, l: Limit, a: set<Tg>)
    requires Sound(s, l) && a <= s.h.parent.Keys && a != {} && AllUnwrapped(s, a)
    ensures SumReals(Times(s, a)) * UNIT as real < (SumMap(Ratios(s, a)) + |a|) as real
  {
    hide Sound, SumMap, SumReals, OwnTime, OwnRatio, Own, Unwrapped;
    var u, b := Times(s, a), Ratios(s, a);
    forall g | g in a ensures OwnTime(s, g) * UNIT as real < (OwnRatio(s, g) + 1) as real { OwnTimeBelow(s, l, g); }
    assert u.Keys == a && b.Keys == a;
    SizeOf(u);
    SharesBelow(u, b);
  }

  /* Real time of groups of a subtree, none of which contains another, stays below the real time of
     its top, up to 2^-20 of a CPU a group, as long as their ratios do not wrap. */
  lemma TimeFits(s: Groups, l: Limit, g: Tg, a: set<Tg>)
    requires Sound(s, l) && g in s.h.parent && a <= s.h.parent.Keys && Apart(s.h, a) && a != {}
    requires (forall x :: x in a ==> Below(s.h, g, x)) && AllUnwrapped(s, a)
    ensures SumReals(Times(s, a)) < OwnTime(s, g) + |a| as real / UNIT as real
  {
    hide Sound, SumMap, SumReals, OwnRatio, OwnTime, Times, Ratios, Below, AllUnwrapped;
    AntichainFits(s, l, g, a);
    TimesBelow(s, l, a);
    OwnRatioBelow(s, g);
    Divide(SumReals(Times(s, a)), OwnTime(s, g), |a| as real, UNIT as real);
  }

  /* So no CPU is promised more than the limit, up to that rounding. */
  lemma TimeNeverOvercommitted(s: Groups, l: Limit, a: set<Tg>)
    requires Sound(s, l) && a <= s.h.parent.Keys && Apart(s.h, a) && a != {} && AllUnwrapped(s, a)
    ensures SumReals(Times(s, a)) < TimeShare(l.period, l.runtime) + |a| as real / UNIT as real
  {
    hide Sound, SumMap, SumReals, Times, Ratios, Own, OwnRatio, AllUnwrapped, ToRatio, TimeShare;
    NeverOvercommitted(s, l, a);
    TimesBelow(s, l, a);
    RatioBelow(l.period, l.runtime);
    Divide(SumReals(Times(s, a)), TimeShare(l.period, l.runtime), |a| as real, UNIT as real);
  }

  // ----- and where it says nothing

  lemma {:induction false} SumMonotone(s: Groups, d: Proposal, d': Proposal, cs: seq<Tg>)
    requires forall c :: c in cs ==> Ratio(s, d, c) <= Ratio(s, d', c)
    ensures Sum(s, d, cs) <= Sum(s, d', cs)
  {
    if cs != [] {
      assert cs[|cs| - 1] in cs;
      SumMonotone(s, d, d', cs[..|cs| - 1]);
    }
  }

  /* A runtime that is a multiple of 2^44 ns has the ratio 0: a group without children can always be
     given such a runtime, up to its whole period, under any limit. */
  lemma WrappedGroupSchedulable(s: Groups, l: Limit, tg: Tg, period: nat, runtime: nat, busy: set<Tg>)
    requires Sound(s, l) && tg in s.h.parent && s.h.children[tg] == []
    requires runtime <= period && runtime % MANY == 0 && runtime != RUNTIME_INF
    requires l.runtime != RUNTIME_INF ==> forall g :: g in busy && g in s.h.parent ==>
      if g == tg then runtime != 0 else RuntimeOf(s, NoProposal({}), g) != 0
    ensures Schedulable(s, Proposal(Some(tg), period, runtime, busy), l)
    ensures Ratio(s, Proposal(Some(tg), period, runtime, busy), tg) == 0
  {
    hide ToRatio, Sum, WellFormed;
    TreeShape(s.h);
    var d := Proposal(Some(tg), period, runtime, busy);
    WrappedIsZero(period, runtime);
    SumOne(s, d, tg);
    forall g ensures Ratio(s, d, g) == if g == tg then 0 else OwnRatio(s, g) {}
    forall g | g in s.h.parent ensures Sum(s, d, s.h.children[g]) <= Sum(s, NoProposal({}), s.h.children[g]) {
      SumMonotone(s, d, NoProposal({}), s.h.children[g]);
    }
    forall g | g in s.h.parent && g != tg
      ensures Sum(s, d, s.h.children[g]) <= Ratio(s, d, g) <= ToRatio(l.period, l.runtime)
    {
      assert g in s.h.children;
    }
  }

  // ----- the requests

  function Uniform(cpus: nat, runtime: nat): (q: seq<nat>)
    ensures |q| == cpus && forall i :: 0 <= i < cpus ==> q[i] == runtime
  {
    seq(cpus, i => runtime)
  }

  lemma RootIsSound(s: Groups, l: Limit)
    requires Sane(l)
    requires s.h == Hierarchy(map[0 := None], map[0 := []], map[0 := 0])
    requires s.root == 0 && s.period == map[0 := l.period] && s.runtime == map[0 := l.runtime]
    ensures Sound(s, l)
  {
    hide ToRatio;
  }

  class TaskGroups {
    var s: Groups
    var limit: Limit                  // sysctl_sched_rt_period and sysctl_sched_rt_runtime
    var rqRuntime: map<Tg, seq<nat>>  // rt_runtime of each group's queue on each CPU

    ghost predicate Valid() reads this {
      Sound(s, limit) && rqRuntime.Keys == s.h.parent.Keys
    }

    constructor (period: nat, runtime: nat, cpus: nat)
      requires runtime <= period || runtime == RUNTIME_INF
      ensures Valid() && limit == Limit(period, runtime)
      ensures s.h.parent.Keys == {s.root} && Flat(s, {})
    {
      hide Sound;
      var h := Hierarchy(map[0 := None], map[0 := []], map[0 := 0]);
      s := Groups(h, 0, map[0 := period], map[0 := runtime]);
      limit := Limit(period, runtime);
      rqRuntime := map[0 := Uniform(cpus, runtime)];
      new;
      RootIsSound(s, limit);
    }

    /* tg_set_rt_bandwidth: all or nothing. */
    method SetRtBandwidth(tg: Tg, period: nat, runtime: nat, busy: set<Tg>) returns (err: int)
      requires Valid() && tg in s.h.parent
      modifies this
      ensures Valid() && limit == old(limit)
      ensures err == 0 <==> Schedulable(old(s), Proposal(Some(tg), period, runtime, busy), limit)
      ensures err == 0 ==> s == Granted(old(s), tg, period, runtime)
      ensures err == 0 ==> s.h == old(s).h && s.root == old(s).root
      ensures err == 0 ==> s.period == old(s).period[tg := period] && s.runtime == old(s).runtime[tg := runtime]
      ensures err == 0 ==> rqRuntime == old(rqRuntime)[tg := Uniform(|old(rqRuntime[tg])|, runtime)]
      ensures err != 0 ==> err in {-EINVAL, -EBUSY} && s == old(s) && rqRuntime == old(rqRuntime)
    {
      hide Sound, Schedulable, Known, Verdict;
      SoundIsKnown(s, limit);
      err := RtSchedulable(s, Proposal(Some(tg), period, runtime, busy), limit);
      if err != 0 { return; }
      GrantKeepsSound(s, limit, tg, period, runtime, busy);
      s := s.(period := s.period[tg := period]);
      s := s.(runtime := s.runtime[tg := runtime]);
      var q := rqRuntime[tg];
      for cpu := 0 to |q|
        modifies {}
        invariant |q| == |old(rqRuntime[tg])|
        invariant forall i :: 0 <= i < cpu ==> q[i] == runtime
      {
        q := q[cpu := runtime];
      }
      assert q == Uniform(|q|, runtime);
      rqRuntime := rqRuntime[tg := q];
    }

    /* sched_group_set_rt_runtime, in microseconds; negative means no limit. */
    method SetRtRuntime(tg: Tg, us: int, busy: set<Tg>) returns (err: int)
      requires Valid() && tg in s.h.parent && tg in s.period
      modifies this
      ensures Valid() && limit == old(limit)
      ensures var runtime := if us < 0 then RUNTIME_INF else U64(us * 1000);
        && (err == 0 <==> Schedulable(old(s), Proposal(Some(tg), old(s).period[tg], runtime, busy), limit))
        && s == (if err == 0 then Granted(old(s), tg, old(s).period[tg], runtime) else old(s))
      ensures err == 0 ==>
        s == old(s).(runtime := old(s).runtime[tg := if us < 0 then RUNTIME_INF else U64(us * 1000)])
    {
      hide Schedulable, Sound;
      var rtRuntime := U64(us * 1000);
      if us < 0 { rtRuntime := RUNTIME_INF; }
      err := SetRtBandwidth(tg, s.period[tg], rtRuntime, busy);
    }

    /* sched_group_set_rt_period, in microseconds. */
    method SetRtPeriod(tg: Tg, us: int, busy: set<Tg>) returns (err: int)
      requires Valid() && tg in s.h.parent && tg in s.runtime
      modifies this
      ensures Valid() && limit == old(limit)
      ensures var period := U64(us * 1000);
        && (err == 0 <==>
            period != 0 && Schedulable(old(s), Proposal(Some(tg), period, old(s).runtime[tg], busy), limit))
        && s == (if err == 0 then Granted(old(s), tg, period, old(s).runtime[tg]) else old(s))
        && (period == 0 ==> err == -EINVAL)
      ensures err == 0 ==> s == old(s).(period := old(s).period[tg := U64(us * 1000)])
    {
      hide Schedulable, Sound;
      var rtPeriod := U64(us * 1000);
      if rtPeriod == 0 { return -EINVAL; }
      err := SetRtBandwidth(tg, rtPeriod, s.runtime[tg], busy);
    }

    /* sched_rt_handler with RT groups: the new global values are in force during the check and are
       put back if anything objects. dlFits is sched_dl_global_constraints. */
    method SetLimit(period: nat, runtime: nat, busy: set<Tg>, dlFits: bool) returns (err: int)
      requires Valid()
      modifies this`limit
      ensures Valid()
      ensures err == 0 <==>
        && period != 0 && (runtime <= period || runtime == RUNTIME_INF) && dlFits
        && Schedulable(s, NoProposal(busy), Limit(period, runtime))
      ensures limit == if err == 0 then Limit(period, runtime) else old(limit)
      ensures err != 0 ==> err in {-EINVAL, -EBUSY}
    {
      hide Sound, Schedulable, Known, Verdict;
      SoundIsKnown(s, limit);
      var was := limit;
      limit := Limit(period, runtime);
      if period == 0 || (runtime != RUNTIME_INF && runtime > period) {
        limit := was;
        return -EINVAL;
      }
      err := RtSchedulable(s, NoProposal(busy), limit);
      if err == 0 && !dlFits { err := -EBUSY; }
      if err != 0 {
        limit := was;
        return;
      }
      LimitKeepsSound(s, limit, busy);
    }

    /* sched_create_group and sched_online_group; defPeriod is def_rt_bandwidth's period. */
    method CreateGroup(tg: Tg, parent: Tg, defPeriod: nat, cpus: nat)
      requires Valid() && parent in s.h.parent && tg !in s.h.parent && |s.h.children[parent]| + 1 < MANY
      modifies this`s, this`rqRuntime
      ensures parent in old(s.h.level) && parent in old(s.h.children)
      ensures Valid() && s == Created(old(s), tg, parent, defPeriod)
      ensures s.h.parent == old(s).h.parent[tg := Some(parent)] && s.root == old(s).root
      ensures s.h.children == old(s).h.children[parent := [tg] + old(s).h.children[parent]][tg := []]
      ensures s.period == old(s).period[tg := defPeriod] && s.runtime == old(s).runtime[tg := 0]
      ensures rqRuntime == old(rqRuntime)[tg := Uniform(cpus, 0)]
    {
      hide Sound, WellFormed;
      SoundIsKnown(s, limit);
      TreeShape(s.h);
      CreateKeepsSound(s, limit, tg, parent, defPeriod);
      var siblings := [tg] + s.h.children[parent];
      var h := Hierarchy(s.h.parent[tg := Some(parent)],
                         s.h.children[parent := siblings][tg := []],
                         s.h.level[tg := s.h.level[parent] + 1]);
      s := Groups(h, s.root, s.period[tg := defPeriod], s.runtime[tg := 0]);
      rqRuntime := rqRuntime[tg := Uniform(cpus, 0)];
    }

    /* sched_offline_group; a group with children cannot be removed. */
    method DestroyGroup(tg: Tg)
      requires Valid() && tg in s.h.parent && tg != s.root && s.h.children[tg] == []
      modifies this`s, this`rqRuntime
      ensures old(s.h.parent[tg].Some? && s.h.parent[tg].value in s.h.children)
      ensures Valid() && s == Destroyed(old(s), tg) && rqRuntime == old(rqRuntime) - {tg}
      ensures s.h.parent == old(s).h.parent - {tg} && s.root == old(s).root
      ensures s.period == old(s).period - {tg} && s.runtime == old(s).runtime - {tg}
      ensures forall g :: g in s.h.parent ==> g in s.h.children && s.h.children[g] == Without(old(s).h.children[g], tg)
    {
      hide Sound, WellFormed;
      SoundIsKnown(s, limit);
      DestroyKeepsSound(s, limit, tg);
      ListsWithout(s.h, tg);
      var parent := s.h.parent[tg].value;
      var siblings := Without(s.h.children[parent], tg);
      var h := Hierarchy(s.h.parent - {tg}, s.h.children[parent := siblings] - {tg}, s.h.level - {tg});
      s := Groups(h, s.root, s.period - {tg}, s.runtime - {tg});
      rqRuntime := rqRuntime - {tg};
    }
  }

  // ----- a run that wraps

  const LONG_US: int := 0x200_0000_0000  // 1 << 41
  const LONG_NS: int := 125 * MANY

  lemma LongIsLong()
    ensures U64(LONG_US * 1000) == LONG_NS && LONG_NS % MANY == 0 && 0 < LONG_NS < RUNTIME_INF
  {
  }

  /* A root with children that have none. */
  ghost predicate Flat(s: Groups, a: set<Tg>) {
    && s.root in s.h.children && |s.h.children[s.root]| == |a|
    && s.h.parent.Keys == {s.root} + a && s.root !in a
    && forall g :: g in a ==> s.h.parent[g] == Some(s.root) && g in s.h.children && s.h.children[g] == []
  }

  /* Each may run all the time. */
  ghost predicate AllTheTime(s: Groups, a: set<Tg>) {
    forall g :: g in a ==> g in s.period && g in s.runtime && s.period[g] == s.runtime[g] == LONG_NS
  }

  lemma AllApart(s: Groups, a: set<Tg>)
    requires Known(s) && Flat(s, a)
    ensures Apart(s.h, a)
  {
    hide WellFormed;
    forall x, y | x in a && y in a && x != y ensures !Below(s.h, x, y) {
      assert !Below(s.h, x, s.root);
    }
  }

  lemma AllWhole(s: Groups, a: set<Tg>)
    requires AllTheTime(s, a)
    ensures SumReals(Times(s, a)) == |a| as real
  {
    hide SumReals;
    var u := Times(s, a);
    forall g | g in a ensures u[g] == 1.0 {}
    assert u.Keys == a;
    SizeOf(u);
    EachOne(u);
  }

  ghost function WithLong(s: Groups, tg: Tg): Groups {
    Granted(Granted(s, tg, LONG_NS, 0), tg, LONG_NS, LONG_NS)
  }

  lemma OneMoreFlat(s: Groups, tg: Tg, defPeriod: nat, a: set<Tg>)
    requires Flat(s, a) && s.root in s.h.level && tg !in s.h.parent
    ensures Flat(WithLong(Created(s, tg, s.root, defPeriod), tg), a + {tg})
  {
    assert tg !in a;
  }

  lemma OneMoreLong(s: Groups, tg: Tg, defPeriod: nat, a: set<Tg>)
    requires Flat(s, a) && s.root in s.h.level && AllTheTime(s, a)
    ensures AllTheTime(WithLong(Created(s, tg, s.root, defPeriod), tg), a + {tg})
  {
  }

  /* The two writes: the period first, then the runtime. Both are granted, whatever the limit. */
  method LetIn(groups: TaskGroups, tg: Tg)
    requires groups.Valid() && tg in groups.s.h.parent && tg in groups.s.h.children && groups.s.h.children[tg] == []
    requires tg in groups.s.runtime && groups.s.runtime[tg] == 0
    modifies groups
    ensures groups.Valid() && groups.limit == old(groups.limit)
    ensures groups.s == WithLong(old(groups.s), tg)
  {
    hide Sound, Schedulable, U64;
    LongIsLong();
    SoundIsKnown(groups.s, groups.limit);
    WrappedGroupSchedulable(groups.s, groups.limit, tg, LONG_NS, 0, {});
    var err := groups.SetRtPeriod(tg, LONG_US, {});
    WrappedGroupSchedulable(groups.s, groups.limit, tg, LONG_NS, LONG_NS, {});
    err := groups.SetRtRuntime(tg, LONG_US, {});
  }

  method AddLong(groups: TaskGroups, tg: Tg, defPeriod: nat, cpus: nat, ghost a: set<Tg>)
    requires groups.Valid() && Flat(groups.s, a) && AllTheTime(groups.s, a)
    requires tg !in groups.s.h.parent && |a| + 1 < MANY
    modifies groups
    ensures groups.Valid() && groups.limit == old(groups.limit) && groups.s.root == old(groups.s.root)
    ensures Flat(groups.s, a + {tg}) && AllTheTime(groups.s, a + {tg})
  {
    hide Sound, WellFormed, AllTheTime, WithLong;
    SoundIsKnown(groups.s, groups.limit);
    TreeShape(groups.s.h);
    OneMoreFlat(groups.s, tg, defPeriod, a);
    OneMoreLong(groups.s, tg, defPeriod, a);
    groups.CreateGroup(tg, groups.s.root, defPeriod, cpus);
    LetIn(groups, tg);
    SameRoot(old(groups.s), tg, defPeriod);
  }

  lemma SameRoot(s: Groups, tg: Tg, defPeriod: nat)
    requires s.root in s.h.level && s.root in s.h.children
    ensures WithLong(Created(s, tg, s.root, defPeriod), tg).root == s.root
  {
  }

  lemma FlatKeys(s: Groups, a: set<Tg>)
    requires Flat(s, a)
    ensures s.h.parent.Keys == {s.root} + a
  {
  }

  /* Any number of groups get a whole CPU each, under any limit. */
  method WrappedGroupsEnter(groups: TaskGroups, n: nat, defPeriod: nat, cpus: nat) returns (ghost a: set<Tg>)
    requires groups.Valid() && Flat(groups.s, {}) && n < MANY
    modifies groups
    ensures groups.Valid() && groups.limit == old(groups.limit)
    ensures |a| == n && a <= groups.s.h.parent.Keys && Apart(groups.s.h, a)
    ensures SumReals(Times(groups.s, a)) == n as real
  {
    hide Sound, Flat, Known, SumReals, WellFormed, Apart, Times;
    a := {};
    var root := groups.s.root;
    for i := 0 to n
      invariant groups.Valid() && groups.limit == old(groups.limit) && groups.s.root == root
      invariant |a| == i && Flat(groups.s, a) && AllTheTime(groups.s, a) && forall g :: g in a ==> g <= root + i
    {
      FlatKeys(groups.s, a);
      AddLong(groups, root + i + 1, defPeriod, cpus, a);
      a := a + {root + i + 1};
    }
    SoundIsKnown(groups.s, groups.limit);
    FlatKeys(groups.s, a);
    AllApart(groups.s, a);
    AllWhole(groups.s, a);
  }

  lemma SoundIsKnown(s: Groups, l: Limit)
    requires Sound(s, l)
    ensures Known(s) && Sane(l)
    ensures s.period.Keys == s.h.parent.Keys
  {
  }
}
