/**
 NUMA levels: the distinct distances found by a selection sort over one row of the distance table,
 and the masks of CPUs within each distance of each node, kept up to date as CPUs come and go.
 */
module Numa {
  type Cpu = nat
  type Node = nat

  /* node_distance and cpu_to_node. */
  datatype Topology = Topology(distance: seq<seq<int>>, node: map<Cpu, Node>)

  ghost predicate Square(t: Topology) {
    && |t.distance| > 0
    && (forall i {:trigger t.distance[i]} :: 0 <= i < |t.distance| ==> |t.distance[i]| == |t.distance|)
    && (forall c {:trigger t.node[c]} :: c in t.node ==> t.node[c] < |t.distance|)
  }

  // ----- the levels

  ghost predicate Increasing(s: seq<int>) {
    forall i, j :: 0 <= i < j < |s| ==> s[i] < s[j]
  }

  /* The distances found so far: all those of the row between the local one and curr. */
  ghost predicate Found(levels: seq<int>, row: seq<int>, local: int, curr: int) {
    && Increasing(levels)
    && (forall d :: d in levels ==> d in row && local < d <= curr)
    && (forall d :: d in row && local < d <= curr ==> d in levels)
    && curr == if levels == [] then local else levels[|levels| - 1]
  }

  /* The least distance of row[..k] beyond curr, or curr itself if there is none. */
  ghost predicate NextIs(row: seq<int>, k: nat, curr: int, next: int)
    requires k <= |row|
  {
    && (next == curr || (next in row && next > curr))
    && (forall x :: 0 <= x < k && row[x] > curr ==> next != curr && next <= row[x])
  }

  ghost function Elements(s: seq<int>): set<int> {
    set d | d in s
  }

  lemma {:induction false} ElementsOf(s: seq<int>)
    ensures |Elements(s)| <= |s|
    ensures Increasing(s) ==> |Elements(s)| == |s|
  {
    if s != [] {
      var n := |s| - 1;
      ElementsOf(s[..n]);
      assert s == s[..n] + [s[n]];
      assert Elements(s) == Elements(s[..n]) + {s[n]};
      if Increasing(s) { assert s[n] !in Elements(s[..n]); }
    }
  }

  /* There are fewer levels than nodes: the local distance is none. */
  lemma FewLevels(levels: seq<int>, row: seq<int>, curr: int)
    requires row != [] && Found(levels, row, row[0], curr)
    ensures |levels| < |row|
  {
    assert row == [row[0]] + row[1..];
    assert Elements(levels) <= Elements(row[1..]);
    ElementsOf(levels);
    ElementsOf(row[1..]);
    Subset(Elements(levels), Elements(row[1..]));
  }

  lemma {:induction false} Subset(a: set<int>, b: set<int>)
    requires a <= b
    ensures |a| <= |b|
  {
    assert b == a + (b - a);
  }

  lemma FoundNext(levels: seq<int>, row: seq<int>, local: int, curr: int, next: int)
    requires Found(levels, row, local, curr) && local <= curr && NextIs(row, |row|, curr, next) && next != curr
    ensures Found(levels + [next], row, local, next)
  {
  }

  /* The loops of sched_init_numa over node 0's row: debugging is off, so no other row is looked at.
     distance has room for as many entries as there are nodes. */
  method DiscoverLevels(row: seq<int>, distance: array<int>) returns (level: nat)
    requires row != [] && distance.Length == |row|
    modifies distance
    ensures level < distance.Length && Increasing(distance[..level])
    ensures forall d :: d in distance[..level] <==> d in row && d > row[0]
  {
    var currDistance := row[0];
    var nextDistance := currDistance;
    level := 0;
    for j := 0 to |row|
      invariant level == j && Found(distance[..level], row, row[0], currDistance) && row[0] <= currDistance
      invariant nextDistance == currDistance
    {
      FewLevels(distance[..level], row, currDistance);
      for k := 0 to |row|
        invariant NextIs(row, k, currDistance, nextDistance)
      {
        var d := row[k];
        if d > currDistance && (d < nextDistance || nextDistance == currDistance) {
          nextDistance := d;
        }
      }
      if nextDistance != currDistance {
        FoundNext(distance[..level], row, row[0], currDistance, nextDistance);
        ghost var before := distance[..level];
        distance[level] := nextDistance;
        assert distance[..level] == before;
        assert distance[..level + 1] == before + [nextDistance];
        level := level + 1;
        currDistance := nextDistance;
      } else {
        NoneBeyond(distance[..level], row, currDistance);
        return;
      }
    }
    FewLevels(distance[..level], row, currDistance);
  }

  lemma NoneBeyond(levels: seq<int>, row: seq<int>, curr: int)
    requires row != [] && Found(levels, row, row[0], curr) && NextIs(row, |row|, curr, curr)
    ensures forall d :: d in levels <==> d in row && d > row[0]
  {
  }

  // ----- the masks

  /* The present CPUs within the distance of node j: what a mask stands for. */
  function Within(t: Topology, present: set<Cpu>, j: Node, distance: int): set<Cpu>
    requires j < |t.distance|
  {
    set c | c in present && c in t.node && t.node[c] < |t.distance[j]| && t.distance[j][t.node[c]] <= distance
  }

  /* cpumask_of_node. */
  function OfNode(t: Topology, present: set<Cpu>, k: Node): set<Cpu> {
    set c | c in present && c in t.node && t.node[c] == k
  }

  /* The mask while the loop over the nodes has come to the k-th. */
  function Gathered(t: Topology, present: set<Cpu>, j: Node, distance: int, k: nat): set<Cpu>
    requires j < |t.distance|
  {
    set c | c in Within(t, present, j, distance) && t.node[c] < k
  }

  lemma GatherNode(t: Topology, present: set<Cpu>, j: Node, distance: int, k: nat)
    requires Square(t) && j < |t.distance| && k < |t.distance|
    ensures Gathered(t, present, j, distance, k + 1) ==
      if t.distance[j][k] > distance then Gathered(t, present, j, distance, k)
      else Gathered(t, present, j, distance, k) + OfNode(t, present, k)
  {
  }

  lemma GatheredAll(t: Topology, present: set<Cpu>, j: Node, distance: int)
    requires Square(t) && j < |t.distance|
    ensures Gathered(t, present, j, distance, |t.distance|) == Within(t, present, j, distance)
    ensures Gathered(t, present, j, distance, 0) == {}
  {
  }

  /* The masks of all nodes on levels from..to are those of these CPUs. */
  ghost predicate Rows(t: Topology, levels: seq<int>, masks: array2<set<Cpu>>, from: int, to: int, cpus: set<Cpu>)
    requires masks.Length0 == |levels| && masks.Length1 == |t.distance|
    reads masks
  {
    forall i, j :: 0 <= from <= i < to <= |levels| && 0 <= j < |t.distance| ==>
      masks[i, j] == Within(t, cpus, j, levels[i])
  }

  class NumaMasks {
    const t: Topology
    const levels: seq<int>          // sched_domains_numa_distance
    const masks: array2<set<Cpu>>   // sched_domains_numa_masks
    ghost var present: set<Cpu>

    ghost predicate Shaped() {
      Square(t) && masks.Length0 == |levels| && masks.Length1 == |t.distance|
    }

    ghost predicate Valid() reads this, masks {
      && Shaped()
      && Rows(t, levels, masks, 0, |levels|, present)
    }

    /* A CPU is in the mask of node j at level i exactly if it is present and its node is no further
       away from j than that level. */
    ghost predicate ByDistance() reads this, masks {
      && masks.Length0 == |levels| && masks.Length1 == |t.distance|
      && forall i, j, c :: 0 <= i < |levels| && 0 <= j < |t.distance| && c in t.node ==>
           (c in masks[i, j] <==>
            c in present && t.node[c] < |t.distance[j]| && t.distance[j][t.node[c]] <= levels[i])
    }

    /* sched_init_numa, with the levels discovered and the CPUs of the nodes at that time. */
    constructor (t: Topology, levels: seq<int>, cpus: set<Cpu>)
      requires Square(t)
      ensures Valid() && ByDistance() && present == cpus && this.t == t && this.levels == levels && fresh(masks)
    {
      this.t, this.levels, this.present := t, levels, cpus;
      this.masks := new set<Cpu>[|levels|, |t.distance|];
      new;
      for i := 0 to |levels|
        modifies masks
        invariant Rows(t, levels, masks, 0, i, cpus)
      {
        for j := 0 to |t.distance|
          modifies masks
          invariant Rows(t, levels, masks, 0, i, cpus)
          invariant forall y :: 0 <= y < j ==> masks[i, y] == Within(t, cpus, y, levels[i])
        {
          var mask := {};
          GatheredAll(t, cpus, j, levels[i]);
          for k := 0 to |t.distance|
            modifies {}
            invariant mask == Gathered(t, cpus, j, levels[i], k)
          {
            GatherNode(t, cpus, j, levels[i], k);
            if t.distance[j][k] > levels[i] { continue; }
            mask := mask + OfNode(t, cpus, k);
          }
          masks[i, j] := mask;
        }
      }
    }

    /* sched_domains_numa_masks_set, when a CPU has come online. */
    method Set(cpu: Cpu)
      requires Valid() && cpu in t.node
      modifies this`present, masks
      ensures Valid() && ByDistance() && present == old(present) + {cpu}
    {
      var node := t.node[cpu];
      present := present + {cpu};
      for i := 0 to |levels|
        modifies masks
        invariant Rows(t, levels, masks, 0, i, present)
        invariant Rows(t, levels, masks, i, |levels|, old(present))
      {
        for j := 0 to |t.distance|
          modifies masks
          invariant Rows(t, levels, masks, 0, i, present)
          invariant Rows(t, levels, masks, i + 1, |levels|, old(present))
          invariant forall y :: 0 <= y < j ==> masks[i, y] == Within(t, present, y, levels[i])
          invariant forall y :: j <= y < |t.distance| ==> masks[i, y] == Within(t, old(present), y, levels[i])
        {
          OneMoreCpu(t, old(present), cpu, j, levels[i]);
          if t.distance[j][node] <= levels[i] { masks[i, j] := masks[i, j] + {cpu}; }
        }
      }
    }

    /* sched_domains_numa_masks_clear, when a CPU is dead. */
    method Clear(cpu: Cpu)
      requires Valid()
      modifies this`present, masks
      ensures Valid() && ByDistance() && present == old(present) - {cpu}
    {
      present := present - {cpu};
      for i := 0 to |levels|
        modifies masks
        invariant Rows(t, levels, masks, 0, i, present)
        invariant Rows(t, levels, masks, i, |levels|, old(present))
      {
        for j := 0 to |t.distance|
          modifies masks
          invariant Rows(t, levels, masks, 0, i, present)
          invariant Rows(t, levels, masks, i + 1, |levels|, old(present))
          invariant forall y :: 0 <= y < j ==> masks[i, y] == Within(t, present, y, levels[i])
          invariant forall y :: j <= y < |t.distance| ==> masks[i, y] == Within(t, old(present), y, levels[i])
        {
          assert Within(t, present, j, levels[i]) == Within(t, old(present), j, levels[i]) - {cpu};
          masks[i, j] := masks[i, j] - {cpu};
        }
      }
    }
  }

  lemma OneMoreCpu(t: Topology, present: set<Cpu>, cpu: Cpu, j: Node, distance: int)
    requires Square(t) && cpu in t.node && j < |t.distance|
    ensures Within(t, present + {cpu}, j, distance) ==
      if t.distance[j][t.node[cpu]] <= distance then Within(t, present, j, distance) + {cpu}
      else Within(t, present, j, distance)
  {
  }

  /* With levels in increasing order each level's mask of a node contains the one before; and at the
     last level node 0 sees every CPU present. */
  lemma Nested(t: Topology, levels: seq<int>, present: set<Cpu>, i: nat, i': nat, j: Node)
    requires Square(t) && Increasing(levels) && i <= i' < |levels| && j < |t.distance|
    ensures Within(t, present, j, levels[i]) <= Within(t, present, j, levels[i'])
  {
  }

  lemma LastLevelIsAll(t: Topology, levels: seq<int>, present: set<Cpu>)
    requires Square(t) && Increasing(levels) && levels != [] && present <= t.node.Keys
    requires forall d :: d in levels <==> d in t.distance[0] && d > t.distance[0][0]
    ensures Within(t, present, 0, levels[|levels| - 1]) == present
  {
    var last := levels[|levels| - 1];
    forall c | c in present ensures t.distance[0][t.node[c]] <= last {
      var d := t.distance[0][t.node[c]];
      assert d in t.distance[0];
      if d > t.distance[0][0] {
        var i :| 0 <= i < |levels| && levels[i] == d;
      } else {
        assert levels[|levels| - 1] in levels;
      }
    }
  }
}
