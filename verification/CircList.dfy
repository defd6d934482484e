/**
 The circular list behind the circular scheduling class: a ring of nodes with mutable links. The
 ring is proved to be a sequence that starts at `head`.
 */
module CircList {
  import opened Util

  /* A scheduling entity with its list node embedded (run_circular_node), so circ_entry, which
     leads from the node to the entity around it, is the identity. */
  class Entity {
    var next: Entity?
    var prev: Entity?
    var onRq: bool

    constructor ()
      ensures !onRq
    {
      next, prev, onRq := null, null, false;
    }
  }

  ghost function IndexOf<T>(s: seq<T>, x: T): (k: nat)
    requires x in s
    ensures k < |s| && s[k] == x && x !in s[..k]
  {
    if s[0] == x then 0 else 1 + IndexOf(s[1..], x)
  }

  /* x goes in front of y; in front of the head means behind the tail. */
  ghost function InsertBefore<T>(s: seq<T>, y: T, x: T): seq<T>
    requires y in s
  {
    var k := IndexOf(s, y);
    if k == 0 then s + [x] else s[..k] + [x] + s[k..]
  }

  lemma {:induction false} WithoutAt<T>(s: seq<T>, x: T)
    requires x in s && Distinct(s)
    ensures Without(s, x) == s[..IndexOf(s, x)] + s[IndexOf(s, x) + 1..]
  {
    hide Distinct;
    var rest := s[1..];
    DistinctTail(s);
    if s[0] == x {
      WithoutMembers(rest, x);
    } else {
      WithoutAt(rest, x);
      var k := IndexOf(rest, x);
      assert s[..k + 1] == [s[0]] + rest[..k] && s[k + 2..] == rest[k + 1..];
    }
  }

  lemma DistinctTail<T>(s: seq<T>)
    requires Distinct(s) && s != []
    ensures Distinct(s[1..]) && s[0] !in s[1..]
  {
    assert forall i :: 0 <= i < |s[1..]| ==> s[1..][i] == s[i + 1];
  }

  /* The new node is directly before y in the ring, the head stays the head, and taking the new node
     out again gives the old ring. */
  lemma InsertedPlace<T>(s: seq<T>, y: T, x: T)
    requires Distinct(s) && y in s && x !in s
    ensures var t := InsertBefore(s, y, x);
      && |t| == |s| + 1 && t[0] == s[0] && Without(t, x) == s
      && exists i :: 0 <= i < |t| && t[i] == x && t[Next(|t|, i)] == y
  {
    var k, t := IndexOf(s, y), InsertBefore(s, y, x);
    var i := if k == 0 then |s| else k;
    assert t == s[..i] + [x] + s[i..];
    DistinctInsert(s, i, x);
    WithoutAt(t, x);
    assert t[i] == x && t[Next(|t|, i)] == y;
    DistinctAt(t, i, IndexOf(t, x));
    assert s[..i] + s[i..] == s;
  }

  lemma DistinctAt<T>(s: seq<T>, i: nat, j: nat)
    requires Distinct(s) && i < |s| && j < |s|
    ensures s[i] == s[j] <==> i == j
  {
  }

  lemma DistinctInsert<T>(s: seq<T>, p: nat, x: T)
    requires Distinct(s) && p <= |s| && x !in s
    ensures Distinct(s[..p] + [x] + s[p..])
    ensures forall e :: e in s[..p] + [x] + s[p..] ==> e in s || e == x
  {
  }

  lemma DistinctRemove<T>(s: seq<T>, k: nat)
    requires Distinct(s) && k < |s|
    ensures Distinct(s[..k] + s[k + 1..])
    ensures forall e :: e in s[..k] + s[k + 1..] ==> e in s && e != s[k]
  {
  }

  function Next(n: nat, i: nat): nat
    requires i < n
  {
    if i + 1 == n then 0 else i + 1
  }

  function Prev(n: nat, i: nat): nat
    requires i < n
  {
    if i == 0 then n - 1 else i - 1
  }

  /* The links nx and pv run around s in both directions. */
  ghost predicate Ring<T>(s: seq<T>, nx: map<T, T>, pv: map<T, T>) {
    && (forall i {:trigger nx[s[i]]} {:trigger s[i] in nx} :: 0 <= i < |s| ==>
          s[i] in nx && nx[s[i]] == s[Next(|s|, i)])
    && (forall i {:trigger pv[s[i]]} {:trigger s[i] in pv} :: 0 <= i < |s| ==>
          s[i] in pv && pv[s[i]] == s[Prev(|s|, i)])
  }

  lemma RingInsert<T>(s: seq<T>, nx: map<T, T>, pv: map<T, T>, p: nat, x: T)
    requires Ring(s, nx, pv) && Distinct(s) && 0 < p <= |s| && x !in s
    ensures var k := if p == |s| then 0 else p;
      Ring(s[..p] + [x] + s[p..], nx[x := s[k]][s[p - 1] := x], pv[x := s[p - 1]][s[k] := x])
  {
    hide Distinct;
    var k, n := if p == |s| then 0 else p, |s|;
    var t, nx', pv' := s[..p] + [x] + s[p..], nx[x := s[k]][s[p - 1] := x], pv[x := s[p - 1]][s[k] := x];
    forall i | 0 <= i <= n
      ensures t[i] in nx' && nx'[t[i]] == t[Next(n + 1, i)] && t[i] in pv' && pv'[t[i]] == t[Prev(n + 1, i)]
    {
      if i != p {
        var j := if i < p then i else i - 1;
        assert t[i] == s[j];
        DistinctAt(s, j, p - 1);
        DistinctAt(s, j, k);
        assert s[j] in nx && s[j] in pv;
      }
    }
  }

  lemma RingRemove<T>(s: seq<T>, nx: map<T, T>, pv: map<T, T>, k: nat)
    requires Ring(s, nx, pv) && Distinct(s) && k < |s| && |s| > 1
    ensures var a, b := s[Prev(|s|, k)], s[Next(|s|, k)];
      Ring(s[..k] + s[k + 1..], nx[a := b], pv[b := a])
  {
    hide Distinct;
    var n := |s|;
    var a, b := Prev(n, k), Next(n, k);
    var t, nx', pv' := s[..k] + s[k + 1..], nx[s[a] := s[b]], pv[s[b] := s[a]];
    forall i | 0 <= i < n - 1
      ensures t[i] in nx' && nx'[t[i]] == t[Next(n - 1, i)] && t[i] in pv' && pv'[t[i]] == t[Prev(n - 1, i)]
    {
      var j := if i < k then i else i + 1;
      assert t[i] == s[j];
      DistinctAt(s, j, a);
      DistinctAt(s, j, b);
      assert s[j] in nx && s[j] in pv;
    }
  }

  lemma RingFrame<T>(s: seq<T>, nx: map<T, T>, pv: map<T, T>, nx': map<T, T>, pv': map<T, T>)
    requires Ring(s, nx, pv)
    requires forall e :: e in s ==> e in nx && e in nx' && nx'[e] == nx[e]
    requires forall e :: e in s ==> e in pv && e in pv' && pv'[e] == pv[e]
    ensures Ring(s, nx', pv')
  {
  }

  ghost function Nodes(e: Entity?): set<Entity> {
    if e == null then {} else {e}
  }

  class CircularList {
    var head: Entity?
    var count: int
    ghost var nodes: seq<Entity>

    ghost function Nexts(): map<Entity?, Entity?>
      reads this`nodes, nodes`next
    {
      map e: Entity? | e in nodes :: e.next
    }

    ghost function Prevs(): map<Entity?, Entity?>
      reads this`nodes, nodes`prev
    {
      map e: Entity? | e in nodes :: e.prev
    }

    /* next and prev are inverse to each other around exactly `count` nodes, starting at head. */
    ghost predicate Valid()
      reads this, nodes`next, nodes`prev
    {
      && count == |nodes| && Distinct(nodes)
      && head == (if nodes == [] then null else nodes[0])
      && Ring<Entity?>(nodes, Nexts(), Prevs())
    }

    constructor ()
      ensures Valid() && nodes == []
    {
      head, count, nodes := null, 0, [];
    }

    lemma LinksAt(i: nat)
      requires Valid() && i < |nodes|
      ensures nodes[i].next == nodes[Next(|nodes|, i)] && nodes[i].prev == nodes[Prev(|nodes|, i)]
    {
      assert Nexts()[nodes[i]] == nodes[i].next && Prevs()[nodes[i]] == nodes[i].prev;
    }

    /* circularlist_insert. */
    method Insert(afterNode: Entity?, newNode: Entity?)
      requires Valid() && (newNode != null ==> newNode !in nodes)
      requires newNode != null && count > 0 ==> afterNode != null && afterNode in nodes
      modifies this, nodes`next, nodes`prev, Nodes(newNode)`next, Nodes(newNode)`prev
      ensures Valid()
      ensures nodes == if newNode == null then old(nodes)
                       else if old(nodes) == [] then [newNode]
                       else InsertBefore(old(nodes), afterNode, newNode)
    {
      if newNode != null {
        if count > 0 {
          Link(afterNode, newNode);
        } else {
          head := newNode;
          head.next := head;
          head.prev := head;
          nodes, count := [newNode], count + 1;
        }
      }
    }

    /* The branch of circularlist_insert for a list that is not empty. */
    method Link(afterNode: Entity, newNode: Entity)
      requires Valid() && newNode !in nodes && afterNode in nodes
      modifies this, nodes`next, nodes`prev, newNode`next, newNode`prev
      ensures Valid() && nodes == InsertBefore(old(nodes), afterNode, newNode)
    {
      hide Distinct, Ring, InsertBefore, IndexOf;
      ghost var s, nx, pv := nodes, Nexts(), Prevs();
      ghost var k := IndexOf(s, afterNode);
      ghost var p, t := LinkFacts(k, newNode);
      ghost var nx' := nx[newNode := s[k]][s[p - 1] := newNode];
      ghost var pv' := pv[newNode := s[p - 1]][s[k] := newNode];
      newNode.next := afterNode;
      newNode.prev := afterNode.prev;
      newNode.prev.next := newNode;
      afterNode.prev := newNode;
      nodes, count := t, count + 1;
      forall e | e in t ensures e in nx' && nx'[e] == e.next && e in pv' && pv'[e] == e.prev {
        assert e in s || e == newNode;
      }
      RingFrame<Entity?>(t, nx', pv', Nexts(), Prevs());
    }

    lemma LinkFacts(k: nat, x: Entity) returns (p: nat, t: seq<Entity>)
      requires Valid() && k < |nodes| && k == IndexOf(nodes, nodes[k]) && x !in nodes
      ensures p == (if k == 0 then |nodes| else k) && nodes[k].prev == nodes[p - 1]
      ensures t == InsertBefore(nodes, nodes[k], x) && Distinct(t) && t[0] == nodes[0] && |t| == |nodes| + 1
      ensures forall e :: e in t ==> e in nodes || e == x
      ensures Ring<Entity?>(t, Nexts()[x := nodes[k]][nodes[p - 1] := x], Prevs()[x := nodes[p - 1]][nodes[k] := x])
    {
      p := if k == 0 then |nodes| else k;
      t := nodes[..p] + [x] + nodes[p..];
      LinksAt(k);
      RingInsert<Entity?>(nodes, Nexts(), Prevs(), p, x);
      DistinctInsert(nodes, p, x);
      assert t == InsertBefore(nodes, nodes[k], x);
    }

    /* circularlist_remove. The search runs around the ring until it meets the node, so a caller
       must not ask for a node that is not there; an empty list is left alone. */
    method Remove(node: Entity)
      requires Valid() && (head != null ==> node in nodes)
      modifies this, nodes`next, nodes`prev
      ensures Valid() && nodes == Without(old(nodes), node)
    {
      hide Ring, Distinct;
      var link := head;
      if link == null { return; }
      WithoutAt(nodes, node);
      ghost var k := IndexOf(nodes, node);
      ghost var i := 0;
      var numSeenHead := 0;
      while link != node
        modifies {}
        invariant 0 <= i <= k && link == nodes[i]
        decreases k - i
      {
        if link == head { numSeenHead := numSeenHead + 1; }
        LinksAt(i);
        link := link.next;
        i := i + 1;
      }
      DistinctAt(nodes, i, k);
      Unlink(link, k);
    }

    /* The second half of circularlist_remove, once the node is found. */
    method Unlink(link: Entity, ghost k: nat)
      requires Valid() && k < |nodes| && link == nodes[k]
      modifies this, nodes`next, nodes`prev
      ensures Valid() && nodes == old(nodes)[..k] + old(nodes)[k + 1..]
    {
      if count > 1 {
        UnlinkMany(link, k);
      } else {
        head := null;
        nodes, count := [], count - 1;
      }
    }

    method UnlinkMany(link: Entity, ghost k: nat)
      requires Valid() && k < |nodes| && link == nodes[k] && count > 1
      modifies this, nodes`next, nodes`prev
      ensures Valid() && nodes == old(nodes)[..k] + old(nodes)[k + 1..]
    {
      hide Distinct, Ring;
      ghost var s, n, nx, pv := nodes, |nodes|, Nexts(), Prevs();
      ghost var t := UnlinkFacts(k);
      ghost var nx' := nx[s[Prev(n, k)] := s[Next(n, k)]];
      ghost var pv' := pv[s[Next(n, k)] := s[Prev(n, k)]];
      link.prev.next := link.next;
      link.next.prev := link.prev;
      if link == head { head := link.next; }
      nodes, count := t, count - 1;
      forall e | e in t ensures e in nx' && nx'[e] == e.next && e in pv' && pv'[e] == e.prev {
        assert e in s;
      }
      RingFrame<Entity?>(t, nx', pv', Nexts(), Prevs());
    }

    lemma UnlinkFacts(k: nat) returns (t: seq<Entity>)
      requires Valid() && k < |nodes| && |nodes| > 1
      ensures var n := |nodes|;
        && nodes[k].next == nodes[Next(n, k)] && nodes[k].prev == nodes[Prev(n, k)]
        && nodes[Next(n, k)] != nodes[k] && nodes[Prev(n, k)] != nodes[k] && (nodes[k] == nodes[0] <==> k == 0)
        && t == nodes[..k] + nodes[k + 1..] && Distinct(t) && (forall e :: e in t ==> e in nodes)
        && Ring<Entity?>(t, Nexts()[nodes[Prev(n, k)] := nodes[Next(n, k)]],
                         Prevs()[nodes[Next(n, k)] := nodes[Prev(n, k)]])
    {
      var n := |nodes|;
      t := nodes[..k] + nodes[k + 1..];
      LinksAt(k);
      DistinctRemove(nodes, k);
      DistinctAt(nodes, k, 0);
      DistinctAt(nodes, k, Prev(n, k));
      DistinctAt(nodes, k, Next(n, k));
      RingRemove<Entity?>(nodes, Nexts(), Prevs(), k);
    }

    /* circularlist_traverse_debug, returning what it passes. */
    method Traverse() returns (seen: seq<Entity>)
      requires Valid()
      ensures seen == nodes
    {
      seen := [];
      var link := head;
      if link == null { return; }
      while true
        invariant |seen| < |nodes| && seen == nodes[..|seen|] && link == nodes[|seen|]
        decreases |nodes| - |seen|
      {
        LinksAt(|seen|);
        DistinctAt(nodes, Next(|nodes|, |seen|), 0);
        seen := seen + [link];
        link := link.next;
        if link == head { break; }
      }
    }
  }
}
