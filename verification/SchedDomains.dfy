/**
 Repartitioning the scheduling domains: domains that stay are left alone, and yet every CPU ends up
 with the domain it would have if all were torn down and built anew.
 */
module SchedDomains {
  import opened Util

  type Cpu = nat
  type Mask = set<Cpu>

  /* What a CPU is attached to: the domain's span, its attributes (relax_domain_level), and the
     topology it was built for. A CPU in no domain is attached to none. */
  datatype Domain = Domain(span: Mask, attr: int, topology: int)

  const SD_ATTR_INIT: int := -1

  type Attached = map<Cpu, Domain>

  /* NULL attributes stand for the default. */
  function AttrAt(attrs: Option<seq<int>>, i: nat): int
    requires attrs.Some? ==> i < |attrs.value|
  {
    if attrs.Some? then attrs.value[i] else SD_ATTR_INIT
  }

  predicate Covers(attrs: Option<seq<int>>, n: nat) {
    attrs.Some? ==> n <= |attrs.value|
  }

  function Build(mask: Mask, attr: int, topology: int): Attached {
    map c | c in mask :: Domain(mask, attr, topology)
  }

  /* All domains of the list built, with nothing attached before. */
  ghost function Rebuilt(doms: seq<Mask>, attrs: Option<seq<int>>, topology: int): Attached
    requires Covers(attrs, |doms|)
  {
    if doms == [] then map[]
    else
      var n := |doms| - 1;
      Rebuilt(doms[..n], attrs, topology) + Build(doms[n], AttrAt(attrs, n), topology)
  }

  ghost predicate Disjoint(doms: seq<Mask>) {
    forall i, j :: 0 <= i < j < |doms| ==> doms[i] !! doms[j]
  }

  /* The first n domains of the list are attached as they should be... */
  ghost predicate Has(a: Attached, doms: seq<Mask>, attrs: Option<seq<int>>, topology: int, n: nat)
    requires n <= |doms| && Covers(attrs, |doms|)
  {
    forall i, c :: 0 <= i < n && c in doms[i] ==> c in a && a[c] == Domain(doms[i], AttrAt(attrs, i), topology)
  }

  /* ... and no other CPU is attached to anything. */
  ghost predicate Only(a: Attached, doms: seq<Mask>) {
    forall c :: c in a ==> exists i :: 0 <= i < |doms| && c in doms[i]
  }

  /* Every CPU of a listed domain is attached to it, with the default attributes if none are given,
     and no other CPU is attached to anything. */
  ghost predicate AttachedTo(a: Attached, doms: seq<Mask>, attrs: Option<seq<int>>, topology: int) {
    && (attrs.Some? ==> |doms| <= |attrs.value|)
    && (forall i, c :: 0 <= i < |doms| && c in doms[i] ==> (
          && c in a && a[c] == Domain(doms[i], if attrs.Some? then attrs.value[i] else SD_ATTR_INIT, topology)))
    && (forall c :: c in a ==> exists i :: 0 <= i < |doms| && c in doms[i])
  }

  lemma WhatIsAttached(a: Attached, doms: seq<Mask>, attrs: Option<seq<int>>, topology: int)
    requires Covers(attrs, |doms|) && Has(a, doms, attrs, topology, |doms|) && Only(a, doms)
    ensures AttachedTo(a, doms, attrs, topology)
  {
  }

  lemma {:induction false} RebuiltIs(doms: seq<Mask>, attrs: Option<seq<int>>, topology: int)
    requires Covers(attrs, |doms|) && Disjoint(doms)
    ensures Has(Rebuilt(doms, attrs, topology), doms, attrs, topology, |doms|)
    ensures Only(Rebuilt(doms, attrs, topology), doms)
  {
    if doms != [] {
      var n := |doms| - 1;
      var front := doms[..n];
      RebuiltIs(front, attrs, topology);
      var r := Rebuilt(front, attrs, topology);
      forall i, c | 0 <= i < |doms| && c in doms[i]
        ensures c in Rebuilt(doms, attrs, topology)
        ensures Rebuilt(doms, attrs, topology)[c] == Domain(doms[i], AttrAt(attrs, i), topology)
      {
        if i < n {
          assert front[i] == doms[i] && c !in doms[n];
          assert c in r && r[c] == Domain(front[i], AttrAt(attrs, i), topology);
        }
      }
      forall c | c in Rebuilt(doms, attrs, topology) ensures exists i :: 0 <= i < |doms| && c in doms[i] {
        if c in r {
          var i :| 0 <= i < |front| && c in front[i];
          assert c in doms[i];
        }
      }
    }
  }

  /* What has exactly the listed domains is what a rebuild makes. */
  lemma RebuiltUnique(a: Attached, doms: seq<Mask>, attrs: Option<seq<int>>, topology: int)
    requires Covers(attrs, |doms|) && Disjoint(doms) && Has(a, doms, attrs, topology, |doms|) && Only(a, doms)
    ensures a == Rebuilt(doms, attrs, topology)
  {
    hide Rebuilt, Disjoint;
    RebuiltIs(doms, attrs, topology);
    SameDomains(a, Rebuilt(doms, attrs, topology), doms, attrs, topology);
  }

  lemma SameDomains(a: Attached, b: Attached, doms: seq<Mask>, attrs: Option<seq<int>>, topology: int)
    requires Covers(attrs, |doms|)
    requires Has(a, doms, attrs, topology, |doms|) && Only(a, doms)
    requires Has(b, doms, attrs, topology, |doms|) && Only(b, doms)
    ensures a == b
  {
  }

  // ----- matching domains

  /* The i-th domain of one list is, with its attributes, among the first n of the other. */
  ghost predicate Match(mask: Mask, attr: int, doms: seq<Mask>, attrs: Option<seq<int>>, n: nat)
    requires n <= |doms| && Covers(attrs, n)
  {
    exists j :: 0 <= j < n && doms[j] == mask && AttrAt(attrs, j) == attr
  }

  /* The i-th domain of a list and the j-th one of another are the same: the mask, and the attributes
     with the default for those that are not given. */
  ghost predicate Same(cur: seq<Mask>, attrs: Option<seq<int>>, i: int,
                       doms: seq<Mask>, newAttrs: Option<seq<int>>, j: int)
    requires 0 <= i < |cur| && Covers(attrs, |cur|) && 0 <= j < |doms| && Covers(newAttrs, |doms|)
  {
    && cur[i] == doms[j]
    && (if attrs.Some? then attrs.value[i] else SD_ATTR_INIT) ==
       (if newAttrs.Some? then newAttrs.value[j] else SD_ATTR_INIT)
  }

  /* Exactly the domains that are not in the new list are destroyed, and exactly those that were not
     in the current one are built. */
  ghost predicate OnlyDifferent(destroyed: set<nat>, built: set<nat>, cur: seq<Mask>, attrs: Option<seq<int>>,
                                doms: seq<Mask>, newAttrs: Option<seq<int>>)
    requires Covers(attrs, |cur|) && Covers(newAttrs, |doms|)
  {
    && (forall i: nat :: i in destroyed <==>
          i < |cur| && forall j :: 0 <= j < |doms| ==> !Same(cur, attrs, i, doms, newAttrs, j))
    && (forall j: nat :: j in built <==>
          j < |doms| && forall i :: 0 <= i < |cur| ==> !Same(cur, attrs, i, doms, newAttrs, j))
  }

  /* The current domains up to the i-th are gone unless they have a match. */
  ghost predicate Destroyed(a: Attached, was: Attached, cur: seq<Mask>, attrs: Option<seq<int>>, i: nat,
                            doms: seq<Mask>, newAttrs: Option<seq<int>>, n: nat)
    requires Covers(attrs, |cur|) && n <= |doms| && Covers(newAttrs, n)
  {
    && (forall c :: c in a ==> c in was && a[c] == was[c])
    && (forall k, c :: 0 <= k < |cur| && c in cur[k] && c in was ==>
          (c in a <==> k >= i || Match(cur[k], AttrAt(attrs, k), doms, newAttrs, n)))
  }

  lemma DestroyStep(a: Attached, was: Attached, cur: seq<Mask>, attrs: Option<seq<int>>, i: nat,
                    doms: seq<Mask>, newAttrs: Option<seq<int>>, n: nat)
    requires Covers(attrs, |cur|) && n <= |doms| && Covers(newAttrs, n) && Disjoint(cur) && i < |cur|
    requires Destroyed(a, was, cur, attrs, i, doms, newAttrs, n)
    ensures Destroyed(if Match(cur[i], AttrAt(attrs, i), doms, newAttrs, n) then a else a - cur[i],
                      was, cur, attrs, i + 1, doms, newAttrs, n)
  {
  }

  /* What is left once all current domains have been looked at: the new domains that need not be
     built are there, and nothing else is. */
  ghost predicate Left(a: Attached, doms: seq<Mask>, newAttrs: Option<seq<int>>, topology: int, i: nat,
                       cur: seq<Mask>, attrs: Option<seq<int>>, n: nat)
    requires Covers(newAttrs, |doms|) && n <= |cur| && Covers(attrs, n)
  {
    && (forall k, c ::
          0 <= k < |doms| && c in doms[k] && (k < i || Match(doms[k], AttrAt(newAttrs, k), cur, attrs, n)) ==>
          (c in a && a[c] == Domain(doms[k], AttrAt(newAttrs, k), topology)))
    && Only(a, doms)
  }

  lemma DestroyedLeaves(a: Attached, was: Attached, cur: seq<Mask>, attrs: Option<seq<int>>,
                        doms: seq<Mask>, newAttrs: Option<seq<int>>, topology: int)
    requires Covers(attrs, |cur|) && Covers(newAttrs, |doms|)
    requires Has(was, cur, attrs, topology, |cur|) && Only(was, cur)
    requires Destroyed(a, was, cur, attrs, |cur|, doms, newAttrs, |doms|)
    ensures Left(a, doms, newAttrs, topology, 0, cur, attrs, |cur|)
  {
  }

  /* With no list to compare with, everything has been destroyed. */
  lemma NothingLeft(a: Attached, was: Attached, cur: seq<Mask>, attrs: Option<seq<int>>, listed: seq<Mask>,
                    doms: seq<Mask>, newAttrs: Option<seq<int>>, topology: int)
    requires Covers(attrs, |cur|) && Covers(newAttrs, |doms|) && Only(was, cur)
    requires Destroyed(a, was, cur, attrs, |cur|, listed, newAttrs, 0)
    ensures Left(a, doms, newAttrs, topology, 0, cur, attrs, 0)
  {
  }

  lemma BuildStep(a: Attached, doms: seq<Mask>, newAttrs: Option<seq<int>>, topology: int, i: nat,
                  cur: seq<Mask>, attrs: Option<seq<int>>, n: nat)
    requires Covers(newAttrs, |doms|) && n <= |cur| && Covers(attrs, n) && Disjoint(doms) && i < |doms|
    requires Left(a, doms, newAttrs, topology, i, cur, attrs, n)
    ensures Left(if Match(doms[i], AttrAt(newAttrs, i), cur, attrs, n) then a
                 else a + Build(doms[i], AttrAt(newAttrs, i), topology),
                 doms, newAttrs, topology, i + 1, cur, attrs, n)
  {
  }

  class SchedDomains {
    var attached: Attached
    var topology: int                // what the architecture last reported
    var owned: seq<Mask>             // doms_cur, unless it is &fallback_doms
    var curIsFallback: bool
    var fallback: Mask               // fallback_doms
    var ndomsCur: nat
    var dattrCur: Option<seq<int>>

    /* The current list, doms_cur[0 .. ndoms_cur). */
    function Cur(): seq<Mask> reads this {
      if !curIsFallback then owned else if ndomsCur == 0 then [] else [fallback]
    }

    ghost predicate Valid() reads this {
      && |Cur()| == ndomsCur && Covers(dattrCur, ndomsCur) && Disjoint(Cur())
      && attached == Rebuilt(Cur(), dattrCur, topology)
    }

    /* init_sched_domains. */
    constructor (cpus: Mask, isolated: Mask)
      ensures Valid() && Cur() == [cpus - isolated] && dattrCur == None
    {
      topology, owned, curIsFallback, fallback, ndomsCur, dattrCur := 0, [cpus - isolated], false, {}, 1, None;
      attached := Build(cpus - isolated, SD_ATTR_INIT, 0);
      new;
      assert Cur()[0] == cpus - isolated;
      RebuiltUnique(attached, Cur(), None, 0);
    }

    /* dattrs_equal. */
    static predicate DattrsEqual(cur: Option<seq<int>>, i: nat, newAttrs: Option<seq<int>>, j: nat)
      requires (cur.Some? ==> i < |cur.value|) && (newAttrs.Some? ==> j < |newAttrs.value|)
    {
      if newAttrs == None && cur == None then true
      else
        var was := if cur.Some? then cur.value[i] else SD_ATTR_INIT;
        was == if newAttrs.Some? then newAttrs.value[j] else SD_ATTR_INIT
    }

    /* The search for a domain with this mask and these attributes; none is found if n is 0. */
    static method Matches(mask: Mask, attrs: Option<seq<int>>, i: nat,
                          doms: seq<Mask>, others: Option<seq<int>>, n: nat)
      returns (found: bool)
      requires (attrs.Some? ==> i < |attrs.value|) && n <= |doms| && Covers(others, n)
      ensures found <==> Match(mask, AttrAt(attrs, i), doms, others, n)
    {
      for j := 0 to n
        invariant forall k :: 0 <= k < j ==> !(doms[k] == mask && AttrAt(others, k) == AttrAt(attrs, i))
      {
        if mask == doms[j] && DattrsEqual(attrs, i, others, j) { return true; }
      }
      return false;
    }

    /* partition_sched_domains; newTopology is what arch_update_cpu_topology reports. Without a list
       there is one domain, of every active CPU that is not isolated. destroyed and built: which of
       the current domains are destroyed and which of the new ones are built. */
    method PartitionSchedDomains(ndomsNew: nat, domsNew: Option<seq<Mask>>, dattrNew: Option<seq<int>>,
                                 newTopology: Option<int>, active: Mask, isolated: Mask)
      returns (destroyed: set<nat>, built: set<nat>)
      requires Valid() && Covers(dattrNew, ndomsNew)
      requires domsNew.Some? ==> |domsNew.value| == ndomsNew && Disjoint(domsNew.value)
      requires domsNew.None? ==> ndomsNew <= 1
      modifies this
      ensures Valid() && dattrCur == dattrNew && ndomsCur == ndomsNew
      ensures topology == if newTopology.Some? then newTopology.value else old(topology)
      ensures attached == Rebuilt(Cur(), dattrNew, topology)
      ensures domsNew.Some? ==> Cur() == domsNew.value
      ensures domsNew.None? && ndomsNew == 1 ==> Cur() == [active - isolated]
      ensures AttachedTo(attached, Cur(), dattrNew, topology)
      ensures domsNew.None? || newTopology.Some? ==>
        (forall i :: i in destroyed <==> 0 <= i < old(ndomsCur)) && (forall i :: i in built <==> 0 <= i < ndomsNew)
      ensures domsNew.Some? && newTopology.None? ==>
        OnlyDifferent(destroyed, built, old(Cur()), old(dattrCur), Cur(), dattrNew)
    {
      AtMostOne(active - isolated);
      hide Disjoint, AttachedTo, OnlyDifferent, Has, Only, Rebuilt, Destroyed, Left, Match;
      if newTopology.Some? { topology := newTopology.value; }
      ghost var cur, was := Cur(), attached;
      RebuiltIs(cur, dattrCur, old(topology));
      var listed := if domsNew.Some? then domsNew.value else [];
      Unmatched(listed, dattrNew);
      Unmatched(cur, dattrCur);
      destroyed := DestroyDeleted(listed, dattrNew, if newTopology.None? then |listed| else 0);
      var n := if domsNew.Some? && newTopology.None? then ndomsCur else 0;
      var curDoms, doms := Cur(), listed;
      if domsNew.None? {
        fallback := active - isolated;  // this may be doms_cur[0] itself: it is not looked at again
        doms := if ndomsNew == 0 then [] else [fallback];
      }
      if domsNew.Some? && newTopology.None? {
        DestroyedLeaves(attached, was, cur, dattrCur, doms, dattrNew, topology);
      } else {
        NothingLeft(attached, was, cur, dattrCur, listed, doms, dattrNew, topology);
      }
      built := BuildNew(doms, dattrNew, curDoms, n);
      AllBuilt(attached, doms, dattrNew, topology, cur, dattrCur, n);
      RebuiltUnique(attached, doms, dattrNew, topology);
      WhatIsAttached(attached, doms, dattrNew, topology);
      if domsNew.Some? && newTopology.None? { MatchIsSame(destroyed, built, cur, dattrCur, doms, dattrNew); }
      curIsFallback := domsNew.None?;
      if domsNew.Some? { owned := doms; }
      dattrCur := dattrNew;
      ndomsCur := ndomsNew;
    }

    /* Its first loop: the current domains are compared with the first n of the new list. */
    method DestroyDeleted(doms: seq<Mask>, dattrNew: Option<seq<int>>, n: nat) returns (destroyed: set<nat>)
      requires |Cur()| == ndomsCur && Covers(dattrCur, ndomsCur) && Disjoint(Cur())
      requires n <= |doms| && Covers(dattrNew, n)
      modifies `attached
      ensures Destroyed(attached, old(attached), Cur(), dattrCur, ndomsCur, doms, dattrNew, n)
      ensures forall k: nat :: k in destroyed <==>
        k < ndomsCur && !Match(Cur()[k], AttrAt(dattrCur, k), doms, dattrNew, n)
    {
      hide Destroyed, Match;
      destroyed := {};
      NotYetDestroyed(attached, Cur(), dattrCur, doms, dattrNew, n);
      for i := 0 to ndomsCur
        modifies `attached
        invariant Destroyed(attached, old(attached), Cur(), dattrCur, i, doms, dattrNew, n)
        invariant forall k: nat :: k in destroyed <==>
          k < i && !Match(Cur()[k], AttrAt(dattrCur, k), doms, dattrNew, n)
      {
        DestroyStep(attached, old(attached), Cur(), dattrCur, i, doms, dattrNew, n);
        var found := Matches(Cur()[i], dattrCur, i, doms, dattrNew, n);
        if !found {
          destroyed := destroyed + {i};
          attached := attached - Cur()[i];
        }
      }
    }

    /* Its second loop: the new domains are compared with the first n current ones. */
    method BuildNew(doms: seq<Mask>, dattrNew: Option<seq<int>>, cur: seq<Mask>, n: nat) returns (built: set<nat>)
      requires Covers(dattrNew, |doms|) && n <= |cur| && Covers(dattrCur, n) && Disjoint(doms)
      requires Left(attached, doms, dattrNew, topology, 0, cur, dattrCur, n)
      modifies `attached
      ensures Left(attached, doms, dattrNew, topology, |doms|, cur, dattrCur, n)
      ensures forall k: nat :: k in built <==> k < |doms| && !Match(doms[k], AttrAt(dattrNew, k), cur, dattrCur, n)
    {
      hide Left, Match;
      built := {};
      for i := 0 to |doms|
        modifies `attached
        invariant Left(attached, doms, dattrNew, topology, i, cur, dattrCur, n)
        invariant forall k: nat :: k in built <==> k < i && !Match(doms[k], AttrAt(dattrNew, k), cur, dattrCur, n)
      {
        BuildStep(attached, doms, dattrNew, topology, i, cur, dattrCur, n);
        var found := Matches(doms[i], dattrNew, i, cur, dattrCur, n);
        if !found {
          built := built + {i};
          attached := attached + Build(doms[i], AttrAt(dattrNew, i), topology);
        }
      }
    }
  }

  lemma AtMostOne(mask: Mask)
    ensures Disjoint([]) && Disjoint([mask])
  {
  }

  lemma Unmatched(doms: seq<Mask>, attrs: Option<seq<int>>)
    ensures forall mask, attr :: !Match(mask, attr, doms, attrs, 0)
  {
  }

  lemma MatchIsSame(destroyed: set<nat>, built: set<nat>, cur: seq<Mask>, attrs: Option<seq<int>>,
                    doms: seq<Mask>, newAttrs: Option<seq<int>>)
    requires Covers(attrs, |cur|) && Covers(newAttrs, |doms|)
    requires forall i: nat :: i in destroyed <==>
      i < |cur| && !Match(cur[i], AttrAt(attrs, i), doms, newAttrs, |doms|)
    requires forall j: nat :: j in built <==>
      j < |doms| && !Match(doms[j], AttrAt(newAttrs, j), cur, attrs, |cur|)
    ensures OnlyDifferent(destroyed, built, cur, attrs, doms, newAttrs)
  {
    hide Match, Same, AttrAt;
    forall i: nat | i < |cur|
      ensures Match(cur[i], AttrAt(attrs, i), doms, newAttrs, |doms|) <==>
        !forall j :: 0 <= j < |doms| ==> !Same(cur, attrs, i, doms, newAttrs, j)
    {
      MatchOne(cur, attrs, i, doms, newAttrs);
    }
    forall j: nat | j < |doms|
      ensures Match(doms[j], AttrAt(newAttrs, j), cur, attrs, |cur|) <==>
        !forall i :: 0 <= i < |cur| ==> !Same(cur, attrs, i, doms, newAttrs, j)
    {
      MatchOther(cur, attrs, doms, newAttrs, j);
    }
  }

  lemma MatchOne(cur: seq<Mask>, attrs: Option<seq<int>>, i: nat, doms: seq<Mask>, newAttrs: Option<seq<int>>)
    requires i < |cur| && Covers(attrs, |cur|) && Covers(newAttrs, |doms|)
    ensures Match(cur[i], AttrAt(attrs, i), doms, newAttrs, |doms|) <==>
      !forall j :: 0 <= j < |doms| ==> !Same(cur, attrs, i, doms, newAttrs, j)
  {
    if j :| 0 <= j < |doms| && doms[j] == cur[i] && AttrAt(newAttrs, j) == AttrAt(attrs, i) {
      assert Same(cur, attrs, i, doms, newAttrs, j);
    }
    if j :| 0 <= j < |doms| && Same(cur, attrs, i, doms, newAttrs, j) {
      assert doms[j] == cur[i] && AttrAt(newAttrs, j) == AttrAt(attrs, i);
    }
  }

  lemma MatchOther(cur: seq<Mask>, attrs: Option<seq<int>>, doms: seq<Mask>, newAttrs: Option<seq<int>>, j: nat)
    requires j < |doms| && Covers(attrs, |cur|) && Covers(newAttrs, |doms|)
    ensures Match(doms[j], AttrAt(newAttrs, j), cur, attrs, |cur|) <==>
      !forall i :: 0 <= i < |cur| ==> !Same(cur, attrs, i, doms, newAttrs, j)
  {
    if i :| 0 <= i < |cur| && cur[i] == doms[j] && AttrAt(attrs, i) == AttrAt(newAttrs, j) {
      assert Same(cur, attrs, i, doms, newAttrs, j);
    }
    if i :| 0 <= i < |cur| && Same(cur, attrs, i, doms, newAttrs, j) {
      assert cur[i] == doms[j] && AttrAt(attrs, i) == AttrAt(newAttrs, j);
    }
  }

  lemma NotYetDestroyed(was: Attached, cur: seq<Mask>, attrs: Option<seq<int>>,
                        doms: seq<Mask>, newAttrs: Option<seq<int>>, n: nat)
    requires Covers(attrs, |cur|) && n <= |doms| && Covers(newAttrs, n)
    ensures Destroyed(was, was, cur, attrs, 0, doms, newAttrs, n)
  {
  }

  lemma AllBuilt(a: Attached, doms: seq<Mask>, newAttrs: Option<seq<int>>, topology: int,
                 cur: seq<Mask>, attrs: Option<seq<int>>, n: nat)
    requires Covers(newAttrs, |doms|) && n <= |cur| && Covers(attrs, n)
    requires Left(a, doms, newAttrs, topology, |doms|, cur, attrs, n)
    ensures Has(a, doms, newAttrs, topology, |doms|) && Only(a, doms)
  {
  }
}
