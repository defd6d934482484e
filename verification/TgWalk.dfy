/**
 The walk over the task group tree, written in the source with gotos over two moving pointers. It
 is proved to make exactly the calls of the recursive walk, in the same order, and to end.
 */
module TgWalk {
  import opened Util

  type Tg = nat

  /* The group tree: parents, lists of children, and the distance from the root. */
  datatype Hierarchy = Hierarchy(parent: map<Tg, Option<Tg>>, children: map<Tg, seq<Tg>>, level: map<Tg, nat>)

  ghost predicate WellFormed(h: Hierarchy) {
    && h.children.Keys == h.parent.Keys && h.level.Keys == h.parent.Keys
    && (forall g {:trigger h.children[g]} :: g in h.parent ==> Distinct(h.children[g]))
    && (forall g, c {:trigger c in h.children[g]} :: g in h.parent ==>
          (c in h.children[g] <==> c in h.parent && h.parent[c] == Some(g)))
    && (forall c {:trigger h.parent[c]} :: c in h.parent && h.parent[c].Some? ==>
          h.parent[c].value in h.level && h.level[c] == h.level[h.parent[c].value] + 1)
  }

  /* The groups further from the root than g: what a walk below g can still meet. */
  ghost function Deeper(h: Hierarchy, g: Tg): set<Tg>
    requires g in h.level
  {
    set x | x in h.level && h.level[x] > h.level[g]
  }

  lemma ChildDeeper(h: Hierarchy, g: Tg, i: nat)
    requires WellFormed(h) && g in h.parent && i < |h.children[g]|
    ensures var c := h.children[g][i];
      c in h.parent && h.parent[c] == Some(g) && h.level[c] == h.level[g] + 1 && Deeper(h, c) < Deeper(h, g)
  {
    var c := h.children[g][i];
    assert c in h.children[g];
    assert c in Deeper(h, g) && c !in Deeper(h, c);
  }

  // ----- the recursive definition

  datatype Visit = Down(g: Tg) | Up(g: Tg)

  /* A visitor sees its group and everything visited before, so it may carry any state along. */
  type Visitor = (seq<Visit>, Tg) -> int

  ghost function Walk(h: Hierarchy, g: Tg, down: Visitor, up: Visitor, past: seq<Visit>): (seq<Visit>, int)
    requires WellFormed(h) && g in h.parent
    decreases Deeper(h, g), |h.children[g]| + 1
  {
    if down(past, g) != 0 then (past + [Down(g)], down(past, g))
    else WalkChildren(h, g, 0, down, up, past + [Down(g)])
  }

  /* The children of g from the i-th on, and then g itself for the last time. */
  ghost function WalkChildren(h: Hierarchy, g: Tg, i: nat,
                              down: Visitor, up: Visitor, past: seq<Visit>): (seq<Visit>, int)
    requires WellFormed(h) && g in h.parent && i <= |h.children[g]|
    decreases Deeper(h, g), |h.children[g]| - i
  {
    if i == |h.children[g]| then (past + [Up(g)], up(past, g))
    else
      ChildDeeper(h, g, i);
      var (now, ret) := Walk(h, h.children[g][i], down, up, past);
      if ret != 0 then (now, ret) else WalkChildren(h, g, i + 1, down, up, now)
  }

  // ----- what a walk visits

  ghost predicate Below(h: Hierarchy, from: Tg, g: Tg)
    requires WellFormed(h) && g in h.parent
    decreases h.level[g]
  {
    g == from || (h.parent[g].Some? && Below(h, from, h.parent[g].value))
  }

  /* The visits of an undisturbed walk. */
  ghost function Visits(h: Hierarchy, g: Tg): seq<Visit>
    requires WellFormed(h) && g in h.parent
    decreases Deeper(h, g), |h.children[g]| + 1
  {
    [Down(g)] + VisitsFrom(h, g, 0)
  }

  ghost function VisitsFrom(h: Hierarchy, g: Tg, i: nat): seq<Visit>
    requires WellFormed(h) && g in h.parent && i <= |h.children[g]|
    decreases Deeper(h, g), |h.children[g]| - i
  {
    if i == |h.children[g]| then [Up(g)]
    else ChildDeeper(h, g, i); Visits(h, h.children[g][i]) + VisitsFrom(h, g, i + 1)
  }

  /* A walk follows the undisturbed order; if no visitor objects it makes all of it. */
  lemma {:induction false} WalkVisits(h: Hierarchy, g: Tg, down: Visitor, up: Visitor, past: seq<Visit>)
    requires WellFormed(h) && g in h.parent
    ensures Walk(h, g, down, up, past).0 <= past + Visits(h, g)
    ensures Walk(h, g, down, up, past).1 == 0 ==> Walk(h, g, down, up, past).0 == past + Visits(h, g)
    decreases Deeper(h, g), |h.children[g]| + 1
  {
    WalkChildrenVisits(h, g, 0, down, up, past + [Down(g)]);
    assert past + [Down(g)] + VisitsFrom(h, g, 0) == past + Visits(h, g);
    assert past + [Down(g)] <= past + Visits(h, g);
  }

  lemma {:induction false} WalkChildrenVisits(h: Hierarchy, g: Tg, i: nat, down: Visitor, up: Visitor, past: seq<Visit>)
    requires WellFormed(h) && g in h.parent && i <= |h.children[g]|
    ensures var r := WalkChildren(h, g, i, down, up, past);
      r.0 <= past + VisitsFrom(h, g, i) && (r.1 == 0 ==> r.0 == past + VisitsFrom(h, g, i))
    decreases Deeper(h, g), |h.children[g]| - i
  {
    if i < |h.children[g]| {
      ChildDeeper(h, g, i);
      var c := h.children[g][i];
      WalkVisits(h, c, down, up, past);
      var (now, ret) := Walk(h, c, down, up, past);
      assert past + Visits(h, c) + VisitsFrom(h, g, i + 1) == past + VisitsFrom(h, g, i);
      if ret == 0 { WalkChildrenVisits(h, g, i + 1, down, up, now); }
    }
  }

  /* The groups in the subtrees of g's children from the i-th on. */
  ghost predicate UnderChildren(h: Hierarchy, g: Tg, i: nat, x: Tg)
    requires WellFormed(h) && g in h.parent && x in h.parent
  {
    exists j :: i <= j < |h.children[g]| && h.children[g][j] in h.parent && Below(h, h.children[g][j], x)
  }

  /* Every group of the subtree is entered exactly once and left exactly once, no other is. */
  lemma {:induction false} VisitsOnce(h: Hierarchy, g: Tg)
    requires WellFormed(h) && g in h.parent
    ensures Distinct(Visits(h, g))
    ensures forall x :: x in h.parent ==> (Down(x) in Visits(h, g) <==> Below(h, g, x))
    ensures forall x :: x in h.parent ==> (Up(x) in Visits(h, g) <==> Below(h, g, x))
    ensures forall v :: v in Visits(h, g) ==> v.g in h.parent
    decreases Deeper(h, g), |h.children[g]| + 1
  {
    VisitsFromOnce(h, g, 0);
    forall x | x in h.parent ensures Below(h, g, x) <==> x == g || UnderChildren(h, g, 0, x) {
      BelowSplit(h, g, x);
    }
    forall j | 0 <= j < |h.children[g]| ensures h.children[g][j] in h.parent && !Below(h, h.children[g][j], g) {
      ChildDeeper(h, g, j);
      BelowLevel(h, h.children[g][j], g);
    }
    DistinctConcat([Down(g)], VisitsFrom(h, g, 0));
  }

  lemma {:induction false} VisitsFromOnce(h: Hierarchy, g: Tg, i: nat)
    requires WellFormed(h) && g in h.parent && i <= |h.children[g]|
    ensures Distinct(VisitsFrom(h, g, i))
    ensures forall x :: x in h.parent ==> (Down(x) in VisitsFrom(h, g, i) <==> UnderChildren(h, g, i, x))
    ensures forall x :: x in h.parent ==> (Up(x) in VisitsFrom(h, g, i) <==> x == g || UnderChildren(h, g, i, x))
    ensures forall v :: v in VisitsFrom(h, g, i) ==> v.g in h.parent
    decreases Deeper(h, g), |h.children[g]| - i
  {
    if i < |h.children[g]| {
      ChildDeeper(h, g, i);
      var c := h.children[g][i];
      VisitsOnce(h, c);
      VisitsFromOnce(h, g, i + 1);
      BelowLevel(h, c, g);
      forall x | x in h.parent ensures !(Below(h, c, x) && UnderChildren(h, g, i + 1, x)) {
        if UnderChildren(h, g, i + 1, x) {
          var j :| i < j < |h.children[g]| && h.children[g][j] in h.parent && Below(h, h.children[g][j], x);
          ChildDeeper(h, g, j);
          if Below(h, c, x) { BelowUnique(h, c, h.children[g][j], x); }
        }
      }
      forall x | x in h.parent
        ensures UnderChildren(h, g, i, x) <==> Below(h, c, x) || UnderChildren(h, g, i + 1, x)
      {
        UnderSplit(h, g, i, x);
      }
      DistinctConcat(Visits(h, c), VisitsFrom(h, g, i + 1));
    }
  }

  lemma UnderSplit(h: Hierarchy, g: Tg, i: nat, x: Tg)
    requires WellFormed(h) && g in h.parent && x in h.parent && i < |h.children[g]| && h.children[g][i] in h.parent
    ensures UnderChildren(h, g, i, x) <==> Below(h, h.children[g][i], x) || UnderChildren(h, g, i + 1, x)
  {
  }

  lemma DistinctConcat<T>(a: seq<T>, b: seq<T>)
    requires Distinct(a) && Distinct(b) && forall x :: x in a ==> x !in b
    ensures Distinct(a + b)
  {
    forall i, j | 0 <= i < j < |a + b| ensures (a + b)[i] != (a + b)[j] {
      if i < |a| <= j { assert a[i] in a && b[j - |a|] in b; }
    }
  }

  lemma {:induction false} BelowSplit(h: Hierarchy, g: Tg, x: Tg)
    requires WellFormed(h) && g in h.parent && x in h.parent
    ensures Below(h, g, x) <==> x == g || UnderChildren(h, g, 0, x)
    decreases h.level[x]
  {
    if h.parent[x].Some? {
      var p := h.parent[x].value;
      BelowSplit(h, g, p);
      if p == g {
        assert x in h.children[g];
        var j :| 0 <= j < |h.children[g]| && h.children[g][j] == x;
        assert Below(h, h.children[g][j], x);
      } else if UnderChildren(h, g, 0, p) {
        var j :| 0 <= j < |h.children[g]| && h.children[g][j] in h.parent && Below(h, h.children[g][j], p);
        assert Below(h, h.children[g][j], x);
      }
      if UnderChildren(h, g, 0, x) {
        var j :| 0 <= j < |h.children[g]| && h.children[g][j] in h.parent && Below(h, h.children[g][j], x);
        ChildDeeper(h, g, j);
        if x != h.children[g][j] { assert Below(h, h.children[g][j], p); }
      }
    } else if UnderChildren(h, g, 0, x) {
      var j :| 0 <= j < |h.children[g]| && h.children[g][j] in h.parent && Below(h, h.children[g][j], x);
      ChildDeeper(h, g, j);
    }
  }

  lemma {:induction false} BelowLevel(h: Hierarchy, from: Tg, x: Tg)
    requires WellFormed(h) && x in h.parent && from in h.parent
    ensures Below(h, from, x) ==> h.level[from] <= h.level[x] && (h.level[from] == h.level[x] ==> from == x)
    decreases h.level[x]
  {
    if h.parent[x].Some? { BelowLevel(h, from, h.parent[x].value); }
  }

  lemma {:induction false} BelowUnique(h: Hierarchy, a: Tg, b: Tg, x: Tg)
    requires WellFormed(h) && x in h.parent && a in h.parent && b in h.parent && h.level[a] == h.level[b]
    requires Below(h, a, x) && Below(h, b, x)
    ensures a == b
    decreases h.level[x]
  {
    BelowLevel(h, a, x);
    BelowLevel(h, b, x);
    if x != a && x != b { BelowUnique(h, a, b, h.parent[x].value); }
  }

  // ----- the order

  ghost predicate Before(s: seq<Visit>, x: Visit, y: Visit) {
    exists i, j :: 0 <= i < j < |s| && s[i] == x && s[j] == y
  }

  /* p is entered before its i-th child, which is left before p is, and before the children behind it
     in the list are entered. */
  ghost predicate InTurn(h: Hierarchy, s: seq<Visit>, p: Tg, i: nat)
    requires p in h.children && i < |h.children[p]|
  {
    var c := h.children[p][i];
    && Before(s, Down(p), Down(c)) && Before(s, Down(c), Up(c)) && Before(s, Up(c), Up(p))
    && forall j :: i < j < |h.children[p]| ==> Before(s, Up(c), Down(h.children[p][j]))
  }

  lemma FirstThenSecond(a: seq<Visit>, b: seq<Visit>, x: Visit, y: Visit)
    requires x in a && y in b
    ensures Before(a + b, x, y)
  {
    var i :| 0 <= i < |a| && a[i] == x;
    var j :| 0 <= j < |b| && b[j] == y;
    assert (a + b)[i] == x && (a + b)[|a| + j] == y;
  }

  lemma BeforeWithin(a: seq<Visit>, b: seq<Visit>, x: Visit, y: Visit)
    ensures Before(a, x, y) || Before(b, x, y) ==> Before(a + b, x, y)
  {
    if Before(a, x, y) {
      var i, j :| 0 <= i < j < |a| && a[i] == x && a[j] == y;
      assert (a + b)[i] == x && (a + b)[j] == y;
    }
    if Before(b, x, y) {
      var i, j :| 0 <= i < j < |b| && b[i] == x && b[j] == y;
      assert (a + b)[|a| + i] == x && (a + b)[|a| + j] == y;
    }
  }

  lemma InTurnWithin(h: Hierarchy, a: seq<Visit>, b: seq<Visit>, p: Tg, i: nat)
    requires p in h.children && i < |h.children[p]|
    ensures InTurn(h, a, p, i) || InTurn(h, b, p, i) ==> InTurn(h, a + b, p, i)
  {
    hide Before;
    forall x, y ensures Before(a, x, y) || Before(b, x, y) ==> Before(a + b, x, y) { BeforeWithin(a, b, x, y); }
  }

  /* What is still to come from g's k-th child on. */
  lemma ToCome(h: Hierarchy, g: Tg, k: nat)
    requires WellFormed(h) && g in h.parent && k <= |h.children[g]|
    ensures Up(g) in VisitsFrom(h, g, k)
    ensures forall j :: k <= j < |h.children[g]| ==> Down(h.children[g][j]) in VisitsFrom(h, g, k)
  {
    VisitsFromOnce(h, g, k);
    forall j | k <= j < |h.children[g]| ensures Down(h.children[g][j]) in VisitsFrom(h, g, k) {
      ChildDeeper(h, g, j);
      assert Below(h, h.children[g][j], h.children[g][j]);
    }
  }

  lemma EnterThenLeave(h: Hierarchy, g: Tg)
    requires WellFormed(h) && g in h.parent
    ensures Down(g) in Visits(h, g) && Up(g) in Visits(h, g) && Before(Visits(h, g), Down(g), Up(g))
  {
    ToCome(h, g, 0);
    FirstThenSecond([Down(g)], VisitsFrom(h, g, 0), Down(g), Up(g));
  }

  lemma {:induction false} ChildInTurn(h: Hierarchy, g: Tg, k: nat, i: nat)
    requires WellFormed(h) && g in h.parent && k <= i < |h.children[g]|
    ensures var c, s := h.children[g][i], VisitsFrom(h, g, k);
      && Before(s, Down(c), Up(c)) && Before(s, Up(c), Up(g))
      && forall j :: i < j < |h.children[g]| ==> Before(s, Up(c), Down(h.children[g][j]))
    decreases i - k
  {
    hide Before;
    ChildDeeper(h, g, k);
    var c, d := h.children[g][i], h.children[g][k];
    var first, rest := Visits(h, d), VisitsFrom(h, g, k + 1);
    assert VisitsFrom(h, g, k) == first + rest;
    if k == i {
      EnterThenLeave(h, c);
      ToCome(h, g, k + 1);
      BeforeWithin(first, rest, Down(c), Up(c));
      FirstThenSecond(first, rest, Up(c), Up(g));
      forall j | i < j < |h.children[g]| ensures Before(first + rest, Up(c), Down(h.children[g][j])) {
        FirstThenSecond(first, rest, Up(c), Down(h.children[g][j]));
      }
    } else {
      ChildInTurn(h, g, k + 1, i);
      forall x, y ensures Before(rest, x, y) ==> Before(first + rest, x, y) { BeforeWithin(first, rest, x, y); }
    }
  }

  /* The walk is depth first, children in the order of their list. With VisitsOnce this leaves one
     order only. */
  lemma {:induction false} VisitsInTurn(h: Hierarchy, g: Tg, p: Tg, i: nat)
    requires WellFormed(h) && g in h.parent && p in h.parent && Below(h, g, p) && i < |h.children[p]|
    ensures InTurn(h, Visits(h, g), p, i)
    decreases Deeper(h, g), |h.children[g]| + 1
  {
    hide InTurn, Before;
    if p == g {
      ChildOfTop(h, g, i);
    } else {
      BelowSplit(h, g, p);
      VisitsFromInTurn(h, g, 0, p, i);
      InTurnWithin(h, [Down(g)], VisitsFrom(h, g, 0), p, i);
    }
  }

  lemma ChildOfTop(h: Hierarchy, g: Tg, i: nat)
    requires WellFormed(h) && g in h.parent && i < |h.children[g]|
    ensures InTurn(h, Visits(h, g), g, i)
  {
    hide Before;
    var first, rest, c := [Down(g)], VisitsFrom(h, g, 0), h.children[g][i];
    assert Visits(h, g) == first + rest;
    ToCome(h, g, 0);
    FirstThenSecond(first, rest, Down(g), Down(c));
    ChildInTurn(h, g, 0, i);
    forall x, y ensures Before(rest, x, y) ==> Before(first + rest, x, y) { BeforeWithin(first, rest, x, y); }
  }

  lemma {:induction false} VisitsFromInTurn(h: Hierarchy, g: Tg, k: nat, p: Tg, i: nat)
    requires WellFormed(h) && g in h.parent && p in h.parent && k <= |h.children[g]| && i < |h.children[p]|
    requires UnderChildren(h, g, k, p)
    ensures InTurn(h, VisitsFrom(h, g, k), p, i)
    decreases Deeper(h, g), |h.children[g]| - k
  {
    hide InTurn, Before;
    ChildDeeper(h, g, k);
    var c := h.children[g][k];
    UnderSplit(h, g, k, p);
    if Below(h, c, p) {
      VisitsInTurn(h, c, p, i);
    } else {
      VisitsFromInTurn(h, g, k + 1, p, i);
    }
    InTurnWithin(h, Visits(h, c), VisitsFrom(h, g, k + 1), p, i);
  }

  /* What a visitor says when it has seen all visits up to the k-th. */
  ghost function Says(down: Visitor, up: Visitor, s: seq<Visit>, k: nat): int
    requires k < |s|
  {
    if s[k].Down? then down(s[..k], s[k].g) else up(s[..k], s[k].g)
  }

  /* The visits from the n-th on, of which only the last one may have been objected to. */
  ghost predicate Stops(down: Visitor, up: Visitor, n: nat, s: seq<Visit>, ret: int) {
    && n < |s| && ret == Says(down, up, s, |s| - 1)
    && forall k :: n <= k < |s| - 1 ==> Says(down, up, s, k) == 0
  }

  lemma StopsOnce(down: Visitor, up: Visitor, past: seq<Visit>, v: Visit)
    ensures Stops(down, up, |past|, past + [v], if v.Down? then down(past, v.g) else up(past, v.g))
  {
    assert (past + [v])[..|past|] == past;
  }

  lemma StopsLater(down: Visitor, up: Visitor, n: nat, s: seq<Visit>, t: seq<Visit>, ret: int)
    requires Stops(down, up, n, s, 0) && s <= t && Stops(down, up, |s|, t, ret)
    ensures Stops(down, up, n, t, ret)
  {
    forall k | n <= k < |s| ensures Says(down, up, t, k) == Says(down, up, s, k) { assert t[..k] == s[..k]; }
  }

  /* A walk stops at the first objection, and returns it. */
  lemma {:induction false} WalkStops(h: Hierarchy, g: Tg, down: Visitor, up: Visitor, past: seq<Visit>)
    requires WellFormed(h) && g in h.parent
    ensures var r := Walk(h, g, down, up, past); past <= r.0 && Stops(down, up, |past|, r.0, r.1)
    decreases Deeper(h, g), |h.children[g]| + 1
  {
    hide Stops, WellFormed;
    StopsOnce(down, up, past, Down(g));
    if down(past, g) == 0 {
      var now := past + [Down(g)];
      WalkChildrenStop(h, g, 0, down, up, now);
      var r := WalkChildren(h, g, 0, down, up, now);
      StopsLater(down, up, |past|, now, r.0, r.1);
    }
  }

  lemma {:induction false} WalkChildrenStop(h: Hierarchy, g: Tg, i: nat, down: Visitor, up: Visitor, past: seq<Visit>)
    requires WellFormed(h) && g in h.parent && i <= |h.children[g]|
    ensures var r := WalkChildren(h, g, i, down, up, past); past <= r.0 && Stops(down, up, |past|, r.0, r.1)
    decreases Deeper(h, g), |h.children[g]| - i
  {
    hide Stops;
    if i == |h.children[g]| {
      StopsOnce(down, up, past, Up(g));
    } else {
      ChildDeeper(h, g, i);
      WalkStops(h, h.children[g][i], down, up, past);
      var (now, ret) := Walk(h, h.children[g][i], down, up, past);
      if ret == 0 {
        WalkChildrenStop(h, g, i + 1, down, up, now);
        var r := WalkChildren(h, g, i + 1, down, up, now);
        StopsLater(down, up, |past|, now, r.0, r.1);
      }
    }
  }

  // ----- the walk with gotos

  ghost function IndexIn(s: seq<Tg>, x: Tg): (k: nat)
    requires x in s
    ensures k < |s| && s[k] == x
  {
    if s[0] == x then 0 else 1 + IndexIn(s[1..], x)
  }

  lemma {:induction false} IndexUnique(s: seq<Tg>, k: nat)
    requires Distinct(s) && k < |s|
    ensures IndexIn(s, s[k]) == k
  {
  }

  /* What remains of a walk from `from` once the subtree of g is done without objection. */
  ghost function Rest(h: Hierarchy, from: Tg, g: Tg, down: Visitor, up: Visitor, past: seq<Visit>): (seq<Visit>, int)
    requires WellFormed(h) && g in h.parent && Below(h, from, g)
    decreases h.level[g], 0
  {
    if g == from then (past, 0)
    else
      var p := h.parent[g].value;
      assert g in h.children[p];
      Then(h, from, p, down, up, WalkChildren(h, p, IndexIn(h.children[p], g) + 1, down, up, past))
  }

  /* Go on above g after a part of the walk that ended g's subtree, unless a visitor objected. */
  ghost function Then(h: Hierarchy, from: Tg, g: Tg,
                      down: Visitor, up: Visitor, r: (seq<Visit>, int)): (seq<Visit>, int)
    requires WellFormed(h) && g in h.parent && Below(h, from, g)
    decreases h.level[g], 1
  {
    if r.1 != 0 then r else Rest(h, from, g, down, up, r.0)
  }

  /* Visits still to be made: below g, from g's i-th child on, and above g. */
  ghost function WorkBelow(h: Hierarchy, g: Tg): nat
    requires WellFormed(h) && g in h.parent
    decreases Deeper(h, g), |h.children[g]| + 1
  {
    1 + WorkFrom(h, g, 0)
  }

  ghost function WorkFrom(h: Hierarchy, g: Tg, i: nat): nat
    requires WellFormed(h) && g in h.parent && i <= |h.children[g]|
    decreases Deeper(h, g), |h.children[g]| - i
  {
    if i == |h.children[g]| then 1
    else ChildDeeper(h, g, i); 1 + WorkBelow(h, h.children[g][i]) + WorkFrom(h, g, i + 1)
  }

  ghost function WorkAbove(h: Hierarchy, from: Tg, g: Tg): nat
    requires WellFormed(h) && g in h.parent && Below(h, from, g)
    decreases h.level[g]
  {
    if g == from then 0
    else
      var p := h.parent[g].value;
      assert g in h.children[p];
      WorkFrom(h, p, IndexIn(h.children[p], g) + 1) + WorkAbove(h, from, p)
  }

  datatype Label = EnterGroup | NextChild

  /* list_for_each_entry's next child: the first one, or the one behind `child` in the list. */
  function FirstChild(h: Hierarchy, g: Tg): Option<Tg>
    requires g in h.children
  {
    if h.children[g] == [] then None else Some(h.children[g][0])
  }

  function NextSibling(siblings: seq<Tg>, child: Tg): (next: Option<Tg>)
    requires child in siblings
    ensures var k := IndexIn(siblings, child) + 1; next == if k == |siblings| then None else Some(siblings[k])
  {
    if siblings[0] == child then if |siblings| == 1 then None else Some(siblings[1])
    else NextSibling(siblings[1..], child)
  }

  /* walk_tg_tree_from: down: calls the visitor and enters the list of children, up: goes on with
     the sibling of the group just left. */
  method WalkTgTreeFrom(h: Hierarchy, from: Tg, down: Visitor, up: Visitor) returns (visits: seq<Visit>, ret: int)
    requires WellFormed(h) && from in h.parent
    ensures (visits, ret) == Walk(h, from, down, up, [])
  {
    var parent := from;
    var child: Option<Tg> := None;
    var at := EnterGroup;
    visits := [];
    ghost var i: nat := 0;
    while true
      invariant parent in h.parent && Below(h, from, parent) && i <= |h.children[parent]|
      invariant at == EnterGroup ==>
        Walk(h, from, down, up, []) == Then(h, from, parent, down, up, Walk(h, parent, down, up, visits))
      invariant at == NextChild ==>
        Walk(h, from, down, up, []) == Then(h, from, parent, down, up, WalkChildren(h, parent, i, down, up, visits))
      invariant at == NextChild ==> child == if i == |h.children[parent]| then None else Some(h.children[parent][i])
      decreases (if at == EnterGroup then WorkBelow(h, parent) else WorkFrom(h, parent, i)) + WorkAbove(h, from, parent)
    {
      if at == EnterGroup {
        ret := down(visits, parent);
        visits := visits + [Down(parent)];
        if ret != 0 { return; }
        child := FirstChild(h, parent);
        i := 0;
        at := NextChild;
      } else if child.Some? {
        ChildDeeper(h, parent, i);
        IndexUnique(h.children[parent], i);
        parent := child.value;
        i := 0;
        at := EnterGroup;
      } else {
        ret := up(visits, parent);
        visits := visits + [Up(parent)];
        if ret != 0 || parent == from { return; }
        ghost var g := parent;
        child := Some(parent);
        assert h.parent[parent].Some?;  // the root is never left this way: it is not below from
        parent := h.parent[parent].value;
        assert g in h.children[parent];
        i := IndexIn(h.children[parent], g) + 1;
        child := NextSibling(h.children[parent], child.value);
      }
    }
  }
}
