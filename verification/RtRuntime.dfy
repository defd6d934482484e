/**
 Real-time bandwidth on several CPUs without RT groups: CPUs lend each other runtime, and a CPU
 that goes offline takes back what it lent. Conservation of the total is what keeps BUG_ON(want)
 from firing.
 */
module RtRuntime {
  import opened Util
  import opened CpuRatio

  predicate Enabled(r: int) { r != RUNTIME_INF }

  // ----- the money

  ghost function Total(runtime: seq<int>): int {
    if runtime == [] then 0
    else Total(runtime[..|runtime| - 1]) + if Enabled(runtime[|runtime| - 1]) then runtime[|runtime| - 1] else 0
  }

  ghost function Count(runtime: seq<int>): nat {
    if runtime == [] then 0
    else Count(runtime[..|runtime| - 1]) + if Enabled(runtime[|runtime| - 1]) then 1 else 0
  }

  lemma {:induction false} TotalUpdate(runtime: seq<int>, i: nat, x: int)
    requires i < |runtime|
    ensures Total(runtime[i := x]) == Total(runtime)
      - (if Enabled(runtime[i]) then runtime[i] else 0) + (if Enabled(x) then x else 0)
    ensures Count(runtime[i := x]) == Count(runtime)
      - (if Enabled(runtime[i]) then 1 else 0) + (if Enabled(x) then 1 else 0)
  {
    var n := |runtime| - 1;
    if i == n {
      assert runtime[i := x][..n] == runtime[..n];
    } else {
      TotalUpdate(runtime[..n], i, x);
      assert runtime[i := x][..n] == runtime[..n][i := x];
    }
  }

  ghost predicate NonNegative(runtime: seq<int>) {
    forall i :: 0 <= i < |runtime| ==> 0 <= runtime[i]
  }

  lemma {:induction false} TotalBounds(runtime: seq<int>, i: nat)
    requires NonNegative(runtime) && i < |runtime|
    ensures Total(runtime) >= 0
    ensures Enabled(runtime[i]) ==> runtime[i] <= Total(runtime) && Count(runtime) >= 1
    ensures Count(runtime) == 0 ==> Total(runtime) == 0
    ensures Count(runtime) <= |runtime|
  {
    var n := |runtime| - 1;
    if i < n {
      TotalBounds(runtime[..n], i);
    } else if n > 0 {
      TotalBounds(runtime[..n], 0);
    }
  }

  /* Every enabled queue's runtime is somewhere among the enabled queues, and nothing is lost.
     share is the group's runtime per CPU. The bounds keep the source's 64-bit arithmetic exact. */
  ghost predicate Conserved(runtime: seq<int>, share: int) {
    && |runtime| > 0 && NonNegative(runtime) && 0 <= share
    && |runtime| * share < TWO_TO_THE_63
    && Total(runtime) == Count(runtime) * share
  }

  lemma RuntimeBounded(runtime: seq<int>, share: int, i: nat)
    requires Conserved(runtime, share) && i < |runtime| && Enabled(runtime[i])
    ensures 0 <= runtime[i] <= |runtime| * share < TWO_TO_THE_63
  {
    TotalBounds(runtime, i);
    var k, n := Count(runtime), |runtime|;
    assert k * share <= n * share by { MulMonotone(k, n, share); }
  }

  // ----- the CPUs of one root domain

  /* What for_each_cpu over the span meets: a CPU outside it neither lends nor pays, as if it were
     disabled. */
  ghost function InSpan(runtime: seq<int>, span: set<nat>): (r: seq<int>)
    ensures |r| == |runtime|
    ensures forall i :: 0 <= i < |runtime| ==> r[i] == if i in span then runtime[i] else RUNTIME_INF
  {
    seq(|runtime|, i requires 0 <= i < |runtime| => if i in span then runtime[i] else RUNTIME_INF)
  }

  /* The CPUs 0 to n - 1. */
  function Cpus(n: nat): (s: set<nat>)
    ensures |s| == n && forall i :: i in s <==> 0 <= i < n
  {
    if n == 0 then {} else Cpus(n - 1) + {n - 1}
  }

  lemma InSpanUpdate(runtime: seq<int>, span: set<nat>, c: nat, x: int)
    requires c < |runtime|
    ensures c in span ==> InSpan(runtime[c := x], span) == InSpan(runtime, span)[c := x]
    ensures InSpan(runtime, span + {c}) == InSpan(runtime, span)[c := runtime[c]]
    ensures InSpan(runtime, span - {c}) == InSpan(runtime, span)[c := RUNTIME_INF]
  {
  }

  lemma {:induction false} CountSpan(runtime: seq<int>, span: set<nat>)
    requires forall i <- span :: i < |runtime| && Enabled(runtime[i])
    ensures Count(InSpan(runtime, span)) == |span|
  {
    if runtime == [] {
      assert forall i <- span :: i < 0;
    } else {
      var n := |runtime| - 1;
      CountSpan(runtime[..n], span - {n});
      assert InSpan(runtime, span)[..n] == InSpan(runtime[..n], span - {n});
    }
  }

  /* Queues that all hold the same. */
  ghost predicate Alike(runtime: seq<int>, x: int) {
    forall i :: 0 <= i < |runtime| ==> runtime[i] == x || runtime[i] == RUNTIME_INF
  }

  lemma {:induction false} AlikeTotal(runtime: seq<int>, x: int)
    requires Alike(runtime, x)
    ensures Total(runtime) == Count(runtime) * x
    ensures x == RUNTIME_INF ==> Count(runtime) == 0
  {
    if runtime != [] {
      var n := |runtime| - 1;
      AlikeTotal(runtime[..n], x);
      MulStep(Count(runtime[..n]), x);
    }
  }

  // ----- borrowing

  /* What CPU c takes from CPU i: 1/weight of its spare time, but no more than up to the period.
     weight is the number of CPUs of the root domain. */
  function Loan(runtime: seq<int>, time: seq<int>, c: nat, period: int, weight: nat, i: nat): int
    requires c < |runtime| && i < |runtime| == |time| && weight > 0
  {
    var share := (runtime[i] - time[i]) / weight;
    if runtime[c] + share > period then period - runtime[c] else share
  }

  predicate Lends(runtime: seq<int>, time: seq<int>, c: nat, i: nat)
    requires i < |runtime| == |time|
  {
    i != c && Enabled(runtime[i]) && runtime[i] > time[i]
  }

  /* The rest of do_balance_runtime's loop from CPU i on. */
  function Borrow(runtime: seq<int>, time: seq<int>, c: nat, period: int, weight: nat, i: nat): (after: seq<int>)
    requires c < |runtime| == |time| && i <= |runtime| && weight > 0
    ensures |after| == |runtime|
    decreases |runtime| - i
  {
    if i == |runtime| then runtime
    else if !Lends(runtime, time, c, i) then Borrow(runtime, time, c, period, weight, i + 1)
    else
      var diff := Loan(runtime, time, c, period, weight, i);
      var next := runtime[i := runtime[i] - diff][c := runtime[c] + diff];
      if next[c] == period then next else Borrow(next, time, c, period, weight, i + 1)
  }

  lemma LoanBounds(runtime: seq<int>, time: seq<int>, c: nat, period: int, weight: nat, i: nat)
    requires weight > 0 && c < |runtime| == |time| && i < |runtime| && Lends(runtime, time, c, i) && NonNegative(time)
    requires 0 <= runtime[c] && 0 <= period
    ensures var spare, diff := runtime[i] - time[i], Loan(runtime, time, c, period, weight, i);
      && diff * weight <= spare && diff <= spare && (runtime[c] <= period ==> 0 <= diff)
      && -runtime[c] <= diff && runtime[c] + diff <= period
  {
    var spare, n := runtime[i] - time[i], weight;
    var share, diff := spare / n, Loan(runtime, time, c, period, weight, i);
    DivBounds(spare, n);
    if diff < share { MulMonotoneInt(diff, share, n); }
  }

  /* A loan is as much as the two rules allow: at most 1/weight of the spare time, not past the
     period. */
  lemma LoanIsMost(runtime: seq<int>, time: seq<int>, c: nat, period: int, weight: nat, i: nat, x: int)
    requires weight > 0 && c < |runtime| == |time| && i < |runtime| && Lends(runtime, time, c, i)
    requires x * weight <= runtime[i] - time[i] && runtime[c] + x <= period
    ensures x <= Loan(runtime, time, c, period, weight, i)
  {
    DivMost(x, runtime[i] - time[i], weight);
  }

  /* A loan moves money and makes none: the sum and the enabled queues stay as they are. */
  lemma LoanConserves(runtime: seq<int>, share: int, c: nat, i: nat, diff: int)
    requires Conserved(runtime, share) && c < |runtime| && i < |runtime| && i != c
    requires Enabled(runtime[c]) && Enabled(runtime[i]) && -runtime[c] <= diff <= runtime[i]
    ensures var next := runtime[i := runtime[i] - diff][c := runtime[c] + diff];
      Conserved(next, share) && forall k :: 0 <= k < |runtime| ==> (Enabled(next[k]) <==> Enabled(runtime[k]))
  {
    hide Total, Count;
    PairBounded(runtime, share, i, c);
    TotalUpdate(runtime, i, runtime[i] - diff);
    TotalUpdate(runtime[i := runtime[i] - diff], c, runtime[c] + diff);
  }

  lemma PairBounded(runtime: seq<int>, share: int, i: nat, c: nat)
    requires Conserved(runtime, share) && c < |runtime| && i < |runtime| && i != c
    requires Enabled(runtime[c]) && Enabled(runtime[i])
    ensures runtime[i] + runtime[c] <= |runtime| * share < TWO_TO_THE_63
  {
    var without := runtime[i := 0];
    TotalUpdate(runtime, i, 0);
    TotalBounds(without, c);
    TotalBounds(runtime, i);
    MulMonotone(Count(runtime), |runtime|, share);
  }

  /* Borrowing conserves the total; a lender keeps the time it has used; the borrower ends at or
     below the period and, if it started there, does not lose. */
  lemma {:induction false} BorrowConserves(runtime: seq<int>, time: seq<int>, c: nat, period: int, share: int,
                                           weight: nat, i: nat)
    requires weight > 0 && Conserved(runtime, share) && c < |runtime| == |time| && i <= |runtime| && NonNegative(time)
    requires Enabled(runtime[c]) && 0 <= period
    ensures var after := Borrow(runtime, time, c, period, weight, i);
      && Conserved(after, share)
      && (forall k :: 0 <= k < |runtime| ==> (Enabled(after[k]) <==> Enabled(runtime[k])))
      && (runtime[c] <= period ==> runtime[c] <= after[c] <= period)
      && (forall k :: 0 <= k < |runtime| && k != c ==> after[k] == runtime[k] || after[k] >= time[k])
      && (forall k :: 0 <= k < i && k != c ==> after[k] == runtime[k])
    decreases |runtime| - i
  {
    if i < |runtime| {
      if Lends(runtime, time, c, i) {
        var diff := Loan(runtime, time, c, period, weight, i);
        LoanBounds(runtime, time, c, period, weight, i);
        LoanConserves(runtime, share, c, i, diff);
        hide Conserved, Loan;
        var next := runtime[i := runtime[i] - diff][c := runtime[c] + diff];
        if next[c] != period { BorrowConserves(next, time, c, period, share, weight, i + 1); }
      } else {
        BorrowConserves(runtime, time, c, period, share, weight, i + 1);
      }
    }
  }

  /* What CPU k can give: 1/weight of what it has not used, nothing if it is c, has no limit, or has
     used all of it. */
  ghost function Part(before: seq<int>, time: seq<int>, c: nat, weight: nat, k: nat): int
    requires k < |before| == |time| && weight > 0
  {
    if k != c && before[k] != RUNTIME_INF && time[k] < before[k] then (before[k] - time[k]) / weight else 0
  }

  /* What c has after the first m CPUs gave their parts. */
  ghost function Gained(before: seq<int>, time: seq<int>, c: nat, weight: nat, m: nat): int
    requires c < |before| && m <= |before| == |time| && weight > 0
  {
    if m == 0 then before[c]
    else Gained(before, time, c, weight, m - 1) + Part(before, time, c, weight, m - 1)
  }

  /* The first m CPUs gave their whole parts and c was short of the period after each of them; from
     CPU `from` on nothing has changed. */
  ghost predicate Asked(before: seq<int>, now: seq<int>, time: seq<int>, c: nat, period: int, weight: nat, m: nat,
                        from: nat)
  {
    && c < |before| == |now| == |time| && m <= |before| && weight > 0
    && (forall k :: 0 <= k < m && k != c ==> now[k] == before[k] - Part(before, time, c, weight, k))
    && (forall k :: from <= k < |before| && k != c ==> now[k] == before[k])
    && (forall k :: 0 <= k < m && Lends(before, time, c, k) ==> Gained(before, time, c, weight, k + 1) < period)
  }

  /* A whole round: every CPU was asked, and c is left short of the period or nobody lent; or the
     parts of the CPUs before m and some of m's part made up the period, and the rest was left alone. */
  ghost predicate Round(before: seq<int>, after: seq<int>, time: seq<int>, c: nat, period: int, weight: nat, m: nat) {
    && Asked(before, after, time, c, period, weight, m, m + 1)
    && if m == |before| then after[c] == Gained(before, time, c, weight, m)
       else
         && Lends(before, time, c, m) && after[c] == period <= Gained(before, time, c, weight, m + 1)
         && before[m] - after[m] == period - Gained(before, time, c, weight, m)
  }

  /* A borrowing round goes on until the period is reached or every CPU was asked. */
  lemma {:induction false} BorrowIsRound(before: seq<int>, runtime: seq<int>, time: seq<int>, c: nat, period: int,
                                         weight: nat, i: nat)
    requires c < |before| == |runtime| == |time| && i <= |before| && weight > 0
    requires Asked(before, runtime, time, c, period, weight, i, i) && runtime[c] == Gained(before, time, c, weight, i)
    ensures exists m :: Round(before, Borrow(runtime, time, c, period, weight, i), time, c, period, weight, m)
    decreases |runtime| - i
  {
    hide Asked, Gained, Round, Loan;
    if i == |runtime| {
      assert Borrow(runtime, time, c, period, weight, i) == runtime;
      AllAsked(before, runtime, time, c, period, weight);
    } else if !Lends(runtime, time, c, i) {
      assert Borrow(runtime, time, c, period, weight, i) == Borrow(runtime, time, c, period, weight, i + 1);
      NoPart(before, runtime, time, c, period, weight, i);
      BorrowIsRound(before, runtime, time, c, period, weight, i + 1);
    } else {
      var diff := Loan(runtime, time, c, period, weight, i);
      var next := runtime[i := runtime[i] - diff][c := runtime[c] + diff];
      if next[c] == period {
        assert Borrow(runtime, time, c, period, weight, i) == next;
        LastPart(before, runtime, time, c, period, weight, i);
      } else {
        assert Borrow(runtime, time, c, period, weight, i) == Borrow(next, time, c, period, weight, i + 1);
        WholePart(before, runtime, time, c, period, weight, i);
        BorrowIsRound(before, next, time, c, period, weight, i + 1);
      }
    }
  }

  lemma AllAsked(before: seq<int>, now: seq<int>, time: seq<int>, c: nat, period: int, weight: nat)
    requires Asked(before, now, time, c, period, weight, |before|, |before|)
    requires now[c] == Gained(before, time, c, weight, |before|)
    ensures Round(before, now, time, c, period, weight, |before|)
  {
  }

  lemma NoPart(before: seq<int>, now: seq<int>, time: seq<int>, c: nat, period: int, weight: nat, i: nat)
    requires Asked(before, now, time, c, period, weight, i, i) && i < |before| && !Lends(now, time, c, i)
    ensures Asked(before, now, time, c, period, weight, i + 1, i + 1)
    ensures Gained(before, time, c, weight, i + 1) == Gained(before, time, c, weight, i)
  {
  }

  /* A loan below the period is the lender's whole part. */
  lemma WholePart(before: seq<int>, now: seq<int>, time: seq<int>, c: nat, period: int, weight: nat, i: nat)
    requires Asked(before, now, time, c, period, weight, i, i) && i < |before| && Lends(now, time, c, i)
    requires now[c] == Gained(before, time, c, weight, i)
    requires now[c] + Loan(now, time, c, period, weight, i) != period
    ensures var diff := Loan(now, time, c, period, weight, i);
      var next := now[i := now[i] - diff][c := now[c] + diff];
      && Asked(before, next, time, c, period, weight, i + 1, i + 1)
      && next[c] == Gained(before, time, c, weight, i + 1)
  {
    var diff := Loan(now, time, c, period, weight, i);
    assert diff == Part(before, time, c, weight, i);
    assert Gained(before, time, c, weight, i + 1) == now[c] + diff < period;
    hide Gained, Part, Loan;
  }

  lemma LastPart(before: seq<int>, now: seq<int>, time: seq<int>, c: nat, period: int, weight: nat, i: nat)
    requires Asked(before, now, time, c, period, weight, i, i) && i < |before| && Lends(now, time, c, i)
    requires now[c] == Gained(before, time, c, weight, i)
    requires now[c] + Loan(now, time, c, period, weight, i) == period
    ensures var diff := Loan(now, time, c, period, weight, i);
      Round(before, now[i := now[i] - diff][c := now[c] + diff], time, c, period, weight, i)
  {
    var diff := Loan(now, time, c, period, weight, i);
    assert Gained(before, time, c, weight, i + 1) == now[c] + Part(before, time, c, weight, i) >= period;
    hide Gained, Part, Loan;
  }

  lemma WholeRound(before: seq<int>, time: seq<int>, c: nat, period: int, weight: nat)
    requires c < |before| == |time| && weight > 0
    ensures exists m :: Round(before, Borrow(before, time, c, period, weight, 0), time, c, period, weight, m)
  {
    BorrowIsRound(before, before, time, c, period, weight, 0);
  }

  // ----- taking back

  /* The rest of __disable_runtime's reclaim loop from CPU i on; want is what c still misses. */
  function Reclaim(runtime: seq<int>, c: nat, want: int, i: nat): (r: (seq<int>, int))
    requires i <= |runtime|
    ensures |r.0| == |runtime| && (c < |runtime| ==> r.0[c] == runtime[c])
    decreases |runtime| - i
  {
    if i == |runtime| then (runtime, want)
    else if i == c || !Enabled(runtime[i]) then Reclaim(runtime, c, want, i + 1)
    else
      var diff := if want > 0 then Min(runtime[i], want) else want;
      var next := runtime[i := runtime[i] - diff];
      if want - diff == 0 then (next, 0) else Reclaim(next, c, want - diff, i + 1)
  }

  /* What the enabled CPUs from i on, other than c, hold together. */
  ghost function Others(runtime: seq<int>, c: nat, i: nat): int
    requires i <= |runtime|
    decreases |runtime| - i
  {
    if i == |runtime| then 0
    else Others(runtime, c, i + 1) + if i != c && Enabled(runtime[i]) then runtime[i] else 0
  }

  ghost predicate HasOther(runtime: seq<int>, c: nat, i: nat) {
    exists k :: i <= k < |runtime| && k != c && Enabled(runtime[k])
  }

  /* The reclaim loop ends satisfied exactly when the others can pay, or can take back a debt. */
  lemma {:induction false} ReclaimSatisfied(runtime: seq<int>, c: nat, want: int, i: nat)
    requires NonNegative(runtime) && i <= |runtime|
    ensures Reclaim(runtime, c, want, i).1 == 0 <==>
      if want > 0 then want <= Others(runtime, c, i) else want == 0 || HasOther(runtime, c, i)
    decreases |runtime| - i
  {
    if i < |runtime| {
      OthersNonNegative(runtime, c, i + 1);
      if i == c || !Enabled(runtime[i]) {
        ReclaimSatisfied(runtime, c, want, i + 1);
      } else {
        var diff := if want > 0 then Min(runtime[i], want) else want;
        var next := runtime[i := runtime[i] - diff];
        if want - diff != 0 {
          ReclaimSatisfied(next, c, want - diff, i + 1);
          OthersFrame(runtime, next, c, i + 1);
        }
      }
    }
  }

  lemma {:induction false} OthersNonNegative(runtime: seq<int>, c: nat, i: nat)
    requires NonNegative(runtime) && i <= |runtime|
    ensures Others(runtime, c, i) >= 0
    decreases |runtime| - i
  {
    if i < |runtime| { OthersNonNegative(runtime, c, i + 1); }
  }

  lemma {:induction false} OthersFrame(a: seq<int>, b: seq<int>, c: nat, i: nat)
    requires |a| == |b| && i <= |a| && forall k :: i <= k < |a| ==> a[k] == b[k]
    ensures Others(a, c, i) == Others(b, c, i)
    decreases |a| - i
  {
    if i < |a| { OthersFrame(a, b, c, i + 1); }
  }

  /* What the loop takes off want it takes off the others, and no queue goes below zero. */
  lemma {:induction false} ReclaimMoves(runtime: seq<int>, c: nat, want: int, i: nat)
    requires NonNegative(runtime) && i <= |runtime| && c < |runtime|
    requires forall k :: 0 <= k < |runtime| && k != c && Enabled(runtime[k]) ==>
      runtime[k] < TWO_TO_THE_63 && runtime[k] - want < TWO_TO_THE_63
    ensures var r := Reclaim(runtime, c, want, i);
      && NonNegative(r.0) && Total(r.0) == Total(runtime) - (want - r.1) && Count(r.0) == Count(runtime)
      && (forall k :: 0 <= k < |runtime| ==> (Enabled(r.0[k]) <==> Enabled(runtime[k])))
    decreases |runtime| - i
  {
    hide Total, Count;
    if i < |runtime| {
      if i == c || !Enabled(runtime[i]) {
        ReclaimMoves(runtime, c, want, i + 1);
      } else {
        var diff := if want > 0 then Min(runtime[i], want) else want;
        var next := runtime[i := runtime[i] - diff];
        TotalUpdate(runtime, i, runtime[i] - diff);
        if want - diff != 0 { ReclaimMoves(next, c, want - diff, i + 1); }
      }
    }
  }

  /* The queues pay in turn: one that pays is empty afterwards unless it is the last to pay. What is
     too much goes to the first one. */
  lemma {:induction false} ReclaimInTurn(runtime: seq<int>, c: nat, want: int, i: nat)
    requires NonNegative(runtime) && i <= |runtime| && want != 0
    ensures var after := Reclaim(runtime, c, want, i).0;
      && (forall k :: 0 <= k < |runtime| && (k < i || k == c || !Enabled(runtime[k])) ==> after[k] == runtime[k])
      && (want > 0 ==> forall k :: 0 <= k < |runtime| ==> 0 <= after[k] <= runtime[k])
      && (want > 0 ==> forall j, k ::
           i <= j < k < |runtime| && j != c && Enabled(runtime[j]) && after[k] != runtime[k] ==> after[j] == 0)
      && (want < 0 ==> forall k :: i <= k < |runtime| && k != c && Enabled(runtime[k]) ==>
           after[k] == runtime[k] - if exists j :: i <= j < k && j != c && Enabled(runtime[j]) then 0 else want)
    decreases |runtime| - i
  {
    if i < |runtime| {
      if i == c || !Enabled(runtime[i]) {
        ReclaimInTurn(runtime, c, want, i + 1);
      } else if want > 0 && runtime[i] < want {
        ReclaimInTurn(runtime[i := 0], c, want - runtime[i], i + 1);
      }
    }
  }

  lemma {:induction false} OthersTotal(runtime: seq<int>, c: nat, i: nat)
    requires c < |runtime| && i <= |runtime|
    ensures Total(runtime[c := RUNTIME_INF][..i]) + Others(runtime, c, i) == Total(runtime[c := RUNTIME_INF])
    decreases |runtime| - i
  {
    var x := runtime[c := RUNTIME_INF];
    if i < |runtime| {
      OthersTotal(runtime, c, i + 1);
      assert x[..i + 1][..i] == x[..i];
    } else {
      assert x[..i] == x;
    }
  }

  lemma {:induction false} CountWitness(runtime: seq<int>, c: nat)
    requires c < |runtime| && Count(runtime[c := RUNTIME_INF]) > 0
    ensures HasOther(runtime, c, 0)
  {
    var x := runtime[c := RUNTIME_INF];
    SomeEnabled(x);
    var k :| 0 <= k < |x| && Enabled(x[k]);
    assert k != c && Enabled(runtime[k]);
  }

  lemma {:induction false} SomeEnabled(runtime: seq<int>)
    requires Count(runtime) > 0
    ensures exists k :: 0 <= k < |runtime| && Enabled(runtime[k])
  {
    var n := |runtime| - 1;
    if !Enabled(runtime[n]) {
      SomeEnabled(runtime[..n]);
      var k :| 0 <= k < n && Enabled(runtime[..n][k]);
      assert Enabled(runtime[k]);
    }
  }

  // ----- the three steps, and runs of them

  /* __disable_runtime up to its BUG_ON: the queues after CPU c took back what it lent, and want. */
  function TakenBack(runtime: seq<int>, share: int, c: nat): (r: (seq<int>, int))
    requires c < |runtime|
    ensures |r.0| == |runtime|
  {
    if !Enabled(runtime[c]) || runtime[c] == share then (runtime, 0)
    else Reclaim(runtime, c, S64(U64(share - runtime[c])), 0)
  }

  predicate TripsBug(runtime: seq<int>, share: int, c: nat)
    requires c < |runtime|
  {
    TakenBack(runtime, share, c).1 != 0
  }

  /* __disable_runtime. */
  function Disable(runtime: seq<int>, share: int, c: nat): (after: seq<int>)
    requires c < |runtime|
    ensures |after| == |runtime|
  {
    TakenBack(runtime, share, c).0[c := RUNTIME_INF]
  }

  /* BUG_ON(want) never fires while the money is conserved. */
  lemma ReclaimEnds(runtime: seq<int>, share: int, c: nat)
    requires Conserved(runtime, share) && c < |runtime|
    ensures !TripsBug(runtime, share, c)
  {
    if Enabled(runtime[c]) {
      var want, x := share - runtime[c], runtime[c := RUNTIME_INF];
      WantExact(runtime, share, c);
      hide S64, U64;
      TotalUpdate(runtime, c, RUNTIME_INF);
      OthersTotal(runtime, c, 0);
      assert x[..0] == [];
      MulStep(Count(x), share);
      MulMonotone(0, Count(x), share);
      if want < 0 && Count(x) > 0 { CountWitness(runtime, c); }
      TotalBounds(x, c);
      ReclaimSatisfied(runtime, c, want, 0);
    }
  }

  lemma WantExact(runtime: seq<int>, share: int, c: nat)
    requires Conserved(runtime, share) && c < |runtime| && Enabled(runtime[c])
    ensures S64(U64(share - runtime[c])) == share - runtime[c]
    ensures 0 <= runtime[c] < TWO_TO_THE_63 && share < TWO_TO_THE_63
  {
    hide Total, Count;
    RuntimeBounded(runtime, share, c);
    ShareEnabled(|runtime|, share);
    WrapExact(share - runtime[c]);
  }

  /* What remains is the share of the CPUs that remain. */
  lemma DisableConserves(runtime: seq<int>, share: int, c: nat)
    requires Conserved(runtime, share) && c < |runtime|
    ensures Conserved(Disable(runtime, share, c), share)
    ensures Count(Disable(runtime, share, c)) == Count(runtime) - if Enabled(runtime[c]) then 1 else 0
  {
    hide Reclaim, Total, Count, S64, U64;
    TotalUpdate(runtime, c, RUNTIME_INF);
    if Enabled(runtime[c]) {
      MulStep(Count(runtime) - 1, share);
      if runtime[c] != share {
        var want := share - runtime[c];
        var r := Reclaim(runtime, c, want, 0);
        WantExact(runtime, share, c);
        ReclaimEnds(runtime, share, c);
        WithinReach(runtime, share, c);
        ReclaimMoves(runtime, c, want, 0);
        TotalUpdate(r.0, c, RUNTIME_INF);
      }
    }
  }

  lemma WithinReach(runtime: seq<int>, share: int, c: nat)
    requires Conserved(runtime, share) && c < |runtime| && Enabled(runtime[c])
    ensures forall k :: 0 <= k < |runtime| && k != c && Enabled(runtime[k]) ==>
      runtime[k] < TWO_TO_THE_63 && runtime[k] - (share - runtime[c]) < TWO_TO_THE_63
  {
    forall k | 0 <= k < |runtime| && k != c && Enabled(runtime[k])
      ensures runtime[k] < TWO_TO_THE_63 && runtime[k] - (share - runtime[c]) < TWO_TO_THE_63
    {
      PairBounded(runtime, share, k, c);
    }
  }

  /* __enable_runtime. */
  function Enable(runtime: seq<int>, share: int, c: nat): seq<int>
    requires c < |runtime|
  {
    runtime[c := share]
  }

  /* Enabling conserves the total exactly when the CPU was disabled or held its own share. */
  lemma EnableConserves(runtime: seq<int>, share: int, c: nat)
    requires Conserved(runtime, share) && c < |runtime|
    ensures Conserved(Enable(runtime, share, c), share) <==> !Enabled(runtime[c]) || runtime[c] == share
  {
    TotalUpdate(runtime, c, share);
    TotalBounds(runtime, c);
    ShareEnabled(|runtime|, share);
    MulStep(Count(runtime), share);
    hide Total, Count;
  }

  lemma ShareEnabled(n: nat, share: int)
    requires n >= 1 && 0 <= share && n * share < TWO_TO_THE_63
    ensures share < TWO_TO_THE_63
  {
  }

  /* What the enabled queues hold together is their number times the share; without a share none is
     enabled. */
  ghost predicate Funded(runtime: seq<int>, share: int) {
    && |runtime| > 0
    && if share == RUNTIME_INF then forall i :: 0 <= i < |runtime| ==> runtime[i] == RUNTIME_INF
       else Conserved(runtime, share)
  }

  lemma FundedEnabled(runtime: seq<int>, share: int, c: nat)
    requires Funded(runtime, share) && c < |runtime| && Enabled(runtime[c])
    ensures Conserved(runtime, share)
  {
  }

  lemma ConservedFunds(runtime: seq<int>, share: int)
    requires Conserved(runtime, share)
    ensures Funded(runtime, share)
  {
    ShareEnabled(|runtime|, share);
  }

  lemma DisableFunds(runtime: seq<int>, share: int, c: nat)
    requires Funded(runtime, share) && c < |runtime|
    ensures Funded(Disable(runtime, share, c), share)
  {
    hide Reclaim;
    if share != RUNTIME_INF { DisableConserves(runtime, share, c); }
  }

  lemma EnableFunds(runtime: seq<int>, share: int, c: nat)
    requires Funded(runtime, share) && c < |runtime|
    ensures Funded(Enable(runtime, share, c), share) <==> !Enabled(runtime[c]) || runtime[c] == share
  {
    if share != RUNTIME_INF { EnableConserves(runtime, share, c); }
  }

  /* What the writer of the sysctls may ask for. */
  predicate Writable(share: nat, period: int) {
    0 < period && (share == RUNTIME_INF || share <= period)
  }

  /* A step of the system: time passes on some CPU, a CPU of a root domain of any weight balances,
     goes offline or leaves the domain, comes online or joins it, or the sysctls are written, which
     enables the queues of all CPUs of the domain, offline or not. */
  datatype Step =
    | Account(time: seq<int>)
    | Balance(c: nat, weight: nat)
    | Offline(c: nat)
    | Online(c: nat)
    | Write(on: set<nat>, share: nat, period: int)

  datatype State = State(runtime: seq<int>, time: seq<int>, share: int, period: int)

  ghost predicate Legal(s: State, st: Step) {
    match st
    case Account(time) => |time| == |s.runtime| && NonNegative(time)
    case Balance(c, weight) => c < |s.runtime| && Enabled(s.runtime[c]) && weight > 0
    case Offline(c) => c < |s.runtime|
    case Online(c) => c < |s.runtime| && (!Enabled(s.runtime[c]) || s.runtime[c] == s.share)
    case Write(_, share, period) =>
      Writable(share, period) && (share == RUNTIME_INF || |s.runtime| * share < TWO_TO_THE_63)
  }

  ghost function Apply(s: State, st: Step): State
    requires Legal(s, st) && |s.time| == |s.runtime|
  {
    match st
    case Account(time) => s.(time := time)
    case Balance(c, weight) => s.(runtime := Borrow(s.runtime, s.time, c, s.period, weight, 0))
    case Offline(c) => s.(runtime := Disable(s.runtime, s.share, c))
    case Online(c) => s.(runtime := Enable(s.runtime, s.share, c), time := s.time[c := 0])
    case Write(on, share, period) => State(Written(|s.runtime|, on, share), s.time, share, period)
  }

  ghost function Written(n: nat, on: set<nat>, share: nat): (after: seq<int>)
    ensures |after| == n && Alike(after, share)
  {
    InSpan(seq(n, _ => share), on)
  }

  /* The states a run can end in. */
  ghost predicate Reaches(s: State, steps: seq<Step>, t: State)
    decreases |steps|
  {
    |s.time| == |s.runtime| &&
    if steps == [] then t == s
    else Legal(s, steps[0]) && Reaches(Apply(s, steps[0]), steps[1..], t)
  }

  lemma AlikeConserved(runtime: seq<int>, x: int)
    requires |runtime| > 0 && Alike(runtime, x) && 0 <= x && |runtime| * x < TWO_TO_THE_63
    ensures Conserved(runtime, x)
  {
    AlikeTotal(runtime, x);
  }

  lemma StepConserves(s: State, st: Step)
    requires Funded(s.runtime, s.share) && NonNegative(s.time) && 0 <= s.period && |s.time| == |s.runtime|
    requires Legal(s, st)
    ensures var t := Apply(s, st);
      Funded(t.runtime, t.share) && NonNegative(t.time) && 0 <= t.period && |t.time| == |t.runtime|
  {
    hide Conserved, Borrow, Reclaim, Alike, Written;
    match st {
      case Account(time) =>
      case Balance(c, weight) => BorrowConserves(s.runtime, s.time, c, s.period, s.share, weight, 0);
      case Offline(c) => DisableFunds(s.runtime, s.share, c);
      case Online(c) => EnableFunds(s.runtime, s.share, c);
      case Write(on, share, period) => WriteFunds(|s.runtime|, on, share);
    }
  }

  lemma WriteFunds(n: nat, on: set<nat>, share: nat)
    requires n > 0 && (share == RUNTIME_INF || n * share < TWO_TO_THE_63)
    ensures Funded(Written(n, on, share), share)
  {
    if share != RUNTIME_INF { AlikeConserved(Written(n, on, share), share); }
  }

  /* Over any run, with any writes accepted in it, the enabled queues hold exactly their number times
     the share, so a CPU that goes offline always finds what it lent. */
  lemma {:induction false} RunConserves(s: State, steps: seq<Step>, t: State)
    requires Funded(s.runtime, s.share) && NonNegative(s.time) && 0 <= s.period && Reaches(s, steps, t)
    ensures Funded(t.runtime, t.share)
    ensures forall c :: 0 <= c < |t.runtime| ==> !TripsBug(t.runtime, t.share, c)
    decreases |steps|
  {
    hide TripsBug, TakenBack, Conserved, Legal, Apply;
    if steps == [] {
      forall c | 0 <= c < |t.runtime|
        ensures !TripsBug(t.runtime, t.share, c)
      {
        NeverTrips(t.runtime, t.share, c);
      }
    } else {
      StepConserves(s, steps[0]);
      RunConserves(Apply(s, steps[0]), steps[1..], t);
    }
  }

  lemma NeverTrips(runtime: seq<int>, share: int, c: nat)
    requires Funded(runtime, share) && c < |runtime|
    ensures !TripsBug(runtime, share, c)
  {
    if share != RUNTIME_INF { ReclaimEnds(runtime, share, c); }
  }

  // ----- when the BUG_ON fires

  lemma WantOf(share: int, x: int)
    requires 0 <= x < TWO_TO_THE_63 && (share == RUNTIME_INF || 0 <= share < TWO_TO_THE_63)
    ensures S64(U64(share - x)) == if share == RUNTIME_INF then -1 - x else share - x
  {
  }

  lemma OthersOf(runtime: seq<int>, c: nat)
    requires c < |runtime| && NonNegative(runtime) && Enabled(runtime[c])
    ensures Others(runtime, c, 0) == Total(runtime) - runtime[c] && Count(runtime) >= 1
    ensures HasOther(runtime, c, 0) <==> Count(runtime) > 1
  {
    var rest := runtime[c := RUNTIME_INF];
    TotalUpdate(runtime, c, RUNTIME_INF);
    OthersTotal(runtime, c, 0);
    assert rest[..0] == [];
    if Count(rest) > 0 { CountWitness(runtime, c); }
    if HasOther(runtime, c, 0) {
      var k :| 0 <= k < |runtime| && k != c && Enabled(runtime[k]);
      TotalBounds(rest, k);
    }
  }

  /* Whatever the queues hold, the BUG_ON fires on CPU c exactly if the queue holds something else
     than its share, and all queues together hold less than this one share, or nobody else is there
     to take what it has too much. An unlimited share reads as a debt of one more than c holds. */
  lemma TripsExactly(runtime: seq<int>, share: int, c: nat)
    requires c < |runtime| && NonNegative(runtime) && (Enabled(runtime[c]) ==> runtime[c] < TWO_TO_THE_63)
    requires share == RUNTIME_INF || 0 <= share < TWO_TO_THE_63
    ensures TripsBug(runtime, share, c) <==>
      && Enabled(runtime[c]) && runtime[c] != share
      && (if share != RUNTIME_INF && runtime[c] < share then Total(runtime) < share else Count(runtime) == 1)
  {
    hide S64, U64, Reclaim, Others, HasOther, Count, Total;
    if Enabled(runtime[c]) && runtime[c] != share {
      WantOf(share, runtime[c]);
      OthersOf(runtime, c);
      ReclaimSatisfied(runtime, c, S64(U64(share - runtime[c])), 0);
    }
  }

  // ----- a refused write of the sysctls

  /* When all enabled queues hold newShare while the share is something else. */
  lemma RefusedWriteTripsBug(runtime: seq<int>, newShare: int, share: int, c: nat)
    requires c < |runtime| && Alike(runtime, newShare) && runtime[c] == newShare
    requires newShare == RUNTIME_INF || 0 <= newShare < TWO_TO_THE_63
    requires share == RUNTIME_INF || 0 <= share < TWO_TO_THE_63
    ensures TripsBug(runtime, share, c) <==>
      && newShare != RUNTIME_INF && newShare != share
      && (Count(runtime) == 1 || (share != RUNTIME_INF && Count(runtime) * newShare < share))
  {
    hide TripsBug, Count, Total;
    TripsExactly(runtime, share, c);
    if newShare != RUNTIME_INF {
      OthersOf(runtime, c);
      AlikeTotal(runtime, newShare);
      MulMonotone(1, Count(runtime), newShare);
    }
  }

  ghost predicate Quiet(st: Step) {
    st.Account? || st.Balance?
  }

  /* Borrowing after a refused write moves the money about but does not mend it: the sum stays what
     the write made it. */
  lemma {:induction false} RefusedWriteStays(s: State, steps: seq<Step>, t: State, newShare: int)
    requires Conserved(s.runtime, newShare) && NonNegative(s.time) && 0 <= s.period
    requires Reaches(s, steps, t) && forall st :: st in steps ==> Quiet(st)
    ensures Conserved(t.runtime, newShare) && Count(t.runtime) == Count(s.runtime) && t.share == s.share
    decreases |steps|
  {
    hide Conserved, Borrow;
    if steps != [] {
      var u := Apply(s, steps[0]);
      assert Quiet(steps[0]);
      if steps[0].Balance? {
        BorrowConserves(s.runtime, s.time, steps[0].c, s.period, newShare, steps[0].weight, 0);
        SameCount(s.runtime, u.runtime);
      }
      RefusedWriteStays(u, steps[1..], t, newShare);
    }
  }

  lemma {:induction false} SameCount(a: seq<int>, b: seq<int>)
    requires |a| == |b| && forall k :: 0 <= k < |a| ==> (Enabled(a[k]) <==> Enabled(b[k]))
    ensures Count(a) == Count(b)
  {
    if a != [] { SameCount(a[..|a| - 1], b[..|b| - 1]); }
  }

  /* So a CPU that goes offline after any such run trips the BUG_ON exactly in these cases. */
  lemma RefusedRunTripsBug(s: State, steps: seq<Step>, t: State, newShare: int, c: nat)
    requires Conserved(s.runtime, newShare) && NonNegative(s.time) && 0 <= s.period && c < |t.runtime|
    requires Reaches(s, steps, t) && forall st :: st in steps ==> Quiet(st)
    requires s.share == RUNTIME_INF || 0 <= s.share < TWO_TO_THE_63
    ensures TripsBug(t.runtime, s.share, c) <==>
      && Enabled(t.runtime[c]) && t.runtime[c] != s.share
      && (if s.share != RUNTIME_INF && t.runtime[c] < s.share then Count(s.runtime) * newShare < s.share
          else Count(s.runtime) == 1)
  {
    hide TripsBug, Reaches;
    RefusedWriteStays(s, steps, t, newShare);
    if Enabled(t.runtime[c]) { RuntimeBounded(t.runtime, newShare, c); }
    TripsExactly(t.runtime, s.share, c);
  }

  // ----- the queues themselves

  /* The sums of the reclaim loop stay within 64 bits. */
  ghost predicate Exact(runtime: seq<int>, share: int, c: nat)
    requires c < |runtime|
  {
    && NonNegative(runtime) && (share == RUNTIME_INF || 0 <= share < TWO_TO_THE_63)
    && (Enabled(runtime[c]) ==> runtime[c] < TWO_TO_THE_63)
    && forall k :: 0 <= k < |runtime| && k != c && Enabled(runtime[c]) && Enabled(runtime[k]) ==>
      runtime[k] + runtime[c] < TWO_TO_THE_63 - (if share == RUNTIME_INF then 1 else 0)
  }

  lemma ConservedExact(runtime: seq<int>, share: int, c: nat)
    requires Conserved(runtime, share) && c < |runtime|
    ensures Exact(runtime, share, c)
  {
    ShareEnabled(|runtime|, share);
    hide Total, Count;
    if Enabled(runtime[c]) {
      RuntimeBounded(runtime, share, c);
      forall k | 0 <= k < |runtime| && k != c && Enabled(runtime[k])
        ensures runtime[k] + runtime[c] < TWO_TO_THE_63
      {
        PairBounded(runtime, share, k, c);
      }
    }
  }

  lemma FundedExact(runtime: seq<int>, share: int, c: nat)
    requires Funded(runtime, share) && c < |runtime|
    ensures Exact(runtime, share, c)
  {
    if share != RUNTIME_INF { ConservedExact(runtime, share, c); }
  }

  lemma AlikeExact(runtime: seq<int>, newShare: int, share: int, c: nat)
    requires Alike(runtime, newShare) && c < |runtime|
    requires newShare == RUNTIME_INF || (0 <= newShare && |runtime| * newShare < TWO_TO_THE_63)
    requires share == RUNTIME_INF || 0 <= share < TWO_TO_THE_63
    ensures Exact(runtime, share, c)
  {
    if newShare != RUNTIME_INF {
      MulMonotone(1, |runtime|, newShare);
      if |runtime| > 1 { MulMonotone(2, |runtime|, newShare); }
    }
  }

  /* A loan between two CPUs of the span, and the bounds that keep its sums within 64 bits. */
  lemma SpanLoan(runtime: seq<int>, time: seq<int>, span: set<nat>, share: int, c: nat, period: int, i: nat)
    requires Conserved(InSpan(runtime, span), share) && |runtime| == |time| && NonNegative(time) && 0 <= period
    requires (forall k <- span :: k < |runtime|) && c in span && i in span
    requires Enabled(runtime[c]) && Lends(runtime, time, c, i)
    ensures var seen, diff := InSpan(runtime, span), Loan(runtime, time, c, period, |span|, i);
      var next := runtime[i := runtime[i] - diff][c := runtime[c] + diff];
      && InSpan(next, span) == seen[i := runtime[i] - diff][c := runtime[c] + diff]
      && Conserved(InSpan(next, span), share) && Enabled(next[c])
      && diff == Loan(seen, time, c, period, |span|, i)
      && 0 <= runtime[c] && 0 <= runtime[i] && runtime[i] + runtime[c] < TWO_TO_THE_63
      && 0 <= runtime[i] - diff < TWO_TO_THE_63 && 0 <= runtime[c] + diff < TWO_TO_THE_63
      && 0 <= (runtime[i] - time[i]) / |span| <= runtime[i] - time[i]
  {
    hide Total, Count;
    var seen, diff := InSpan(runtime, span), Loan(runtime, time, c, period, |span|, i);
    PairBounded(seen, share, i, c);
    LoanBounds(seen, time, c, period, |span|, i);
    LoanConserves(seen, share, c, i, diff);
    InSpanUpdate(runtime, span, i, runtime[i] - diff);
    InSpanUpdate(runtime[i := runtime[i] - diff], span, c, runtime[c] + diff);
    DivBounds(runtime[i] - time[i], |span|);
  }

  /* One root domain: def_rt_bandwidth, the rt_rq fields of every CPU's queue, and rd->span. */
  class RootDomain {
    var rtRuntime: seq<int>
    var rtTime: seq<int>
    var rtThrottled: seq<bool>
    var span: set<nat>
    var share: int              // rt_b->rt_runtime
    var period: int             // rt_b->rt_period

    ghost predicate Shape()
      reads this
    {
      && |rtRuntime| == |rtTime| == |rtThrottled|
      && span != {} && (forall i <- span :: i < |rtRuntime|)
      && 0 < period < TWO_TO_THE_63
      && (forall i :: 0 <= i < |rtTime| ==> 0 <= rtTime[i] < TWO_TO_THE_63)
    }

    ghost function Seen(): seq<int>
      reads this
    {
      InSpan(rtRuntime, span)
    }

    ghost predicate Valid()
      reads this
    {
      Shape() && Funded(Seen(), share)
    }

    constructor (n: nat, share: int, period: int)
      requires 0 < n && 0 <= share <= period < TWO_TO_THE_63 && 0 < period && n * share < TWO_TO_THE_63
      ensures Valid() && this.share == share && this.period == period
      ensures rtRuntime == seq(n, _ => share) && rtTime == seq(n, _ => 0) && span == Cpus(n)
    {
      rtRuntime, rtTime, rtThrottled := seq(n, _ => share), seq(n, _ => 0), seq(n, _ => false);
      span := Cpus(n);
      this.share, this.period := share, period;
      new;
      assert 0 in span;
      ShareEnabled(n, share);
      AllHold(rtRuntime, span, share);
    }

    /* do_balance_runtime for CPU c, which is online and so enabled. */
    method DoBalanceRuntime(c: nat) returns (more: bool)
      requires Valid() && c in span && Enabled(rtRuntime[c])
      modifies this`rtRuntime
      ensures Valid() && Seen() == Borrow(old(Seen()), rtTime, c, period, |span|, 0)
      ensures SameOutside(old(rtRuntime), rtRuntime, span)
      ensures exists m :: Round(old(Seen()), Seen(), rtTime, c, period, |span|, m)
      ensures rtRuntime[c] < period ==> forall i <- span :: i != c ==>
        rtRuntime[i] == old(rtRuntime)[i] - (
          if old(rtRuntime)[i] != RUNTIME_INF && rtTime[i] < old(rtRuntime)[i]
          then (old(rtRuntime)[i] - rtTime[i]) / |span| else 0)
      ensures rtRuntime[c] < period ==> rtRuntime[c] == Gained(old(Seen()), rtTime, c, |span|, |rtRuntime|)
      ensures more <==> exists i <- span ::
        i != c && old(rtRuntime)[i] != RUNTIME_INF && rtTime[i] < old(rtRuntime)[i]
    {
      BalanceRound(rtRuntime, span, rtTime, c, period);
      more := LendAround(c);
    }

    /* Its loop. */
    method LendAround(c: nat) returns (more: bool)
      requires Valid() && c in span && Enabled(rtRuntime[c])
      modifies this`rtRuntime
      ensures Valid() && Seen() == Borrow(old(Seen()), rtTime, c, period, |span|, 0)
      ensures SameOutside(old(rtRuntime), rtRuntime, span)
      ensures more <==> exists i :: 0 <= i < |rtRuntime| && Lends(old(Seen()), rtTime, c, i)
    {
      hide Conserved, InSpan, Loan, S64, U64, Funded;
      FundedEnabled(Seen(), share, c);
      more := false;
      var i, n := 0, |rtRuntime|;
      while i < n
        invariant 0 <= i <= n == |rtRuntime| && Conserved(Seen(), share) && Enabled(rtRuntime[c])
        invariant SameOutside(old(rtRuntime), rtRuntime, span)
        invariant Borrow(Seen(), rtTime, c, period, |span|, i) == Borrow(old(Seen()), rtTime, c, period, |span|, 0)
        invariant forall k :: i <= k < n && k != c ==> rtRuntime[k] == old(rtRuntime)[k]
        invariant more <==> exists k :: 0 <= k < i && Lends(old(Seen()), rtTime, c, k)
      {
        var lent := false;
        assert Lends(Seen(), rtTime, c, i) == Lends(old(Seen()), rtTime, c, i);
        if i in span { lent := BorrowFrom(c, i); }
        assert lent == Lends(old(Seen()), rtTime, c, i);
        if lent {
          more := true;
          if rtRuntime[c] == period {
            ConservedFunds(Seen(), share);
            return;
          }
        }
        i := i + 1;
      }
      ConservedFunds(Seen(), share);
    }

    /* The body of that loop. */
    method BorrowFrom(c: nat, i: nat) returns (lent: bool)
      requires Shape() && Conserved(Seen(), share) && c in span && i in span && Enabled(rtRuntime[c])
      modifies this`rtRuntime
      ensures lent == Lends(old(Seen()), rtTime, c, i)
      ensures var seen, diff := old(Seen()), Loan(old(Seen()), rtTime, c, period, |span|, i);
        && Seen() == (if lent then seen[i := seen[i] - diff][c := seen[c] + diff] else seen)
        && rtRuntime == if lent then old(rtRuntime)[i := seen[i] - diff][c := seen[c] + diff] else old(rtRuntime)
      ensures Conserved(Seen(), share) && Enabled(rtRuntime[c])
    {
      hide Conserved, InSpan, Loan, S64, U64;
      if i == c || rtRuntime[i] == RUNTIME_INF { return false; }
      RuntimeBounded(Seen(), share, i);
      var diff := S64(U64(rtRuntime[i] - rtTime[i]));
      WrapExact(rtRuntime[i] - rtTime[i]);
      lent := diff > 0;
      if lent { TakeLoan(c, i, diff); }
    }

    /* The loan from a CPU i with something to spare. */
    method TakeLoan(c: nat, i: nat, spare: int)
      requires Shape() && Conserved(Seen(), share) && c in span && i in span
      requires Enabled(rtRuntime[c]) && Lends(rtRuntime, rtTime, c, i) && spare == rtRuntime[i] - rtTime[i]
      modifies this`rtRuntime
      ensures var seen, diff := old(Seen()), Loan(old(Seen()), rtTime, c, period, |span|, i);
        && Seen() == seen[i := seen[i] - diff][c := seen[c] + diff]
        && rtRuntime == old(rtRuntime)[i := seen[i] - diff][c := seen[c] + diff]
      ensures Conserved(Seen(), share) && Enabled(rtRuntime[c])
    {
      hide Conserved, InSpan;
      SpanLoan(rtRuntime, rtTime, span, share, c, period, i);
      var diff := spare / |span|;
      ghost var loan := Loan(rtRuntime, rtTime, c, period, |span|, i);
      WrapExact(rtRuntime[c] + diff);
      WrapExact(period - rtRuntime[c]);
      if U64(rtRuntime[c] + diff) > period { diff := S64(U64(period - rtRuntime[c])); }
      assert diff == loan;
      WrapExact(rtRuntime[i] - diff);
      WrapExact(rtRuntime[c] + diff);
      rtRuntime := rtRuntime[i := U64(rtRuntime[i] - diff)][c := U64(rtRuntime[c] + diff)];
    }

    /* __disable_runtime for CPU c: take back what it lent, then stop lending. In valid states the
       BUG_ON never fires. */
    method DisableRuntime(c: nat)
      requires Shape() && c in span
      requires Valid() || (Exact(Seen(), share, c) && !TripsBug(Seen(), share, c))
      modifies this`rtRuntime, this`rtThrottled
      ensures Shape() && (old(Valid()) ==> Valid()) && Seen() == Disable(old(Seen()), share, c)
      ensures rtThrottled == old(rtThrottled)[c := false] && SameOutside(old(rtRuntime), rtRuntime, span)
      ensures rtRuntime[c] == RUNTIME_INF
    {
      if Valid() {
        DisableFunds(Seen(), share, c);
        FundedExact(Seen(), share, c);
        NeverTrips(Seen(), share, c);
      }
      hide Reclaim, S64, U64, Funded, Exact;
      var want := TakeBack(c);
      assert want == 0;  // BUG_ON(want)
      InSpanUpdate(rtRuntime, span, c, RUNTIME_INF);
      rtRuntime := rtRuntime[c := RUNTIME_INF];
      rtThrottled := rtThrottled[c := false];
    }

    /* __disable_runtime up to BUG_ON(want), in any state that fits 64 bits. */
    method TakeBack(c: nat) returns (want: int)
      requires Shape() && c in span && Exact(Seen(), share, c)
      modifies this`rtRuntime
      ensures (Seen(), want) == TakenBack(old(Seen()), share, c)
      ensures want != 0 <==> TripsBug(old(Seen()), share, c)
      ensures rtRuntime[c] == old(rtRuntime)[c] && SameOutside(old(rtRuntime), rtRuntime, span)
    {
      if rtRuntime[c] == RUNTIME_INF || rtRuntime[c] == share { return 0; }
      WantOf(share, rtRuntime[c]);
      hide S64, U64, Reclaim;
      want := S64(U64(share - rtRuntime[c]));
      assert Seen()[c] == rtRuntime[c] && forall k <- span :: Seen()[k] == rtRuntime[k];
      want := ReclaimRuntime(c, want);
    }

    /* The greedy reclaim loop. */
    method ReclaimRuntime(c: nat, claim: int) returns (want: int)
      requires Shape() && c in span && -TWO_TO_THE_63 <= claim < TWO_TO_THE_63
      requires forall k <- span :: k != c && Enabled(rtRuntime[k]) ==>
        0 <= rtRuntime[k] < TWO_TO_THE_63 && rtRuntime[k] - claim < TWO_TO_THE_63
      modifies this`rtRuntime
      ensures (Seen(), want) == Reclaim(old(Seen()), c, claim, 0)
      ensures rtRuntime[c] == old(rtRuntime)[c] && SameOutside(old(rtRuntime), rtRuntime, span)
    {
      hide Conserved, InSpan, S64, U64;
      want := claim;
      var i, n := 0, |rtRuntime|;
      while i < n
        invariant 0 <= i <= n == |rtRuntime|
        invariant Reclaim(Seen(), c, want, i) == Reclaim(old(Seen()), c, claim, 0)
        invariant forall k :: i <= k < n ==> rtRuntime[k] == old(rtRuntime)[k]
        invariant rtRuntime[c] == old(rtRuntime)[c] && SameOutside(old(rtRuntime), rtRuntime, span)
        invariant claim <= want <= 0 || 0 <= want <= claim
      {
        if i in span && i != c && rtRuntime[i] != RUNTIME_INF {
          want := ReclaimFrom(i, want);
          if want == 0 { return; }
        }
        i := i + 1;
      }
    }

    /* The body of that loop for CPU i. */
    method ReclaimFrom(i: nat, claim: int) returns (want: int)
      requires Shape() && i in span && -TWO_TO_THE_63 <= claim < TWO_TO_THE_63
      requires 0 <= rtRuntime[i] < TWO_TO_THE_63 && rtRuntime[i] - claim < TWO_TO_THE_63
      modifies this`rtRuntime
      ensures claim - want == if claim > 0 then Min(old(rtRuntime)[i], claim) else claim
      ensures rtRuntime == old(rtRuntime)[i := old(rtRuntime)[i] - (claim - want)]
      ensures Seen() == old(Seen())[i := old(rtRuntime)[i] - (claim - want)]
    {
      hide InSpan, S64, U64;
      want := claim;
      WrapExact(rtRuntime[i]);
      WrapExact(rtRuntime[i] - want);
      if want > 0 {
        var diff := Min(S64(rtRuntime[i]), want);
        WrapExact(rtRuntime[i] - diff);
        InSpanUpdate(rtRuntime, span, i, rtRuntime[i] - diff);
        rtRuntime := rtRuntime[i := U64(rtRuntime[i] - diff)];
        want := want - diff;
      } else {
        InSpanUpdate(rtRuntime, span, i, rtRuntime[i] - want);
        rtRuntime := rtRuntime[i := U64(rtRuntime[i] - want)];
        want := want - want;
      }
    }

    /* __enable_runtime for CPU c. A CPU that was disabled leaves every queue as it should be; one
       that lent or borrowed does not. */
    method EnableRuntime(c: nat)
      requires Valid() && c in span
      modifies this`rtRuntime, this`rtTime, this`rtThrottled
      ensures Seen() == Enable(old(Seen()), share, c) && rtRuntime == old(rtRuntime)[c := share]
      ensures rtTime == old(rtTime)[c := 0] && rtThrottled == old(rtThrottled)[c := false]
      ensures Valid() <==> !Enabled(old(rtRuntime)[c]) || old(rtRuntime)[c] == share
    {
      hide Funded;
      EnableFunds(Seen(), share, c);
      InSpanUpdate(rtRuntime, span, c, share);
      rtRuntime := rtRuntime[c := share];
      rtTime := rtTime[c := 0];
      rtThrottled := rtThrottled[c := false];
    }

    /* rq_attach_root's first half: CPU c leaves the domain, after going offline if it was online.
       Another CPU stays, or the domain is freed. */
    method Detach(c: nat, online: bool)
      requires Valid() && c in span && span != {c}
      requires online || !Enabled(rtRuntime[c]) || rtRuntime[c] == share
      modifies this`rtRuntime, this`rtThrottled, this`span
      ensures Valid() && span == old(span) - {c} && Seen() == Disable(old(Seen()), share, c)
      ensures rtRuntime[c] == if online then RUNTIME_INF else old(rtRuntime)[c]
    {
      hide Reclaim, Funded, S64, U64;
      DisableFunds(Seen(), share, c);
      if online { DisableRuntime(c); }
      InSpanUpdate(rtRuntime, span, c, RUNTIME_INF);
      assert Seen()[c] == rtRuntime[c];
      assert span - {c} != {} by { assert span == span - {c} + {c}; }
      span := span - {c};
      assert Seen() == Disable(old(Seen()), share, c);
      assert Shape();
    }

    /* Its second half: CPU c joins the domain, and goes online there if it is active. */
    method Attach(c: nat, active: bool)
      requires Valid() && c !in span && c < |rtRuntime|
      requires !Enabled(rtRuntime[c]) || rtRuntime[c] == share
      modifies this`rtRuntime, this`rtTime, this`rtThrottled, this`span
      ensures Valid() && span == old(span) + {c}
      ensures Seen() == Enable(old(Seen()), if active then share else old(rtRuntime)[c], c)
    {
      hide Funded;
      EnableFunds(Seen(), share, c);
      InSpanUpdate(rtRuntime, span, c, share);
      assert Seen()[c] == RUNTIME_INF;
      assert Seen()[c := RUNTIME_INF] == Seen();
      span := span + {c};
      if active { EnableRuntime(c); }
    }

    /* A write to the sysctls, in nanoseconds. total is the deadline account, which the write checks
       only after the queues were given the new runtime. */
    method RtHandler(newShare: nat, newPeriod: int, total: nat) returns (accepted: bool)
      requires Valid() && newPeriod < TWO_TO_THE_63
      requires newShare == RUNTIME_INF || |rtRuntime| * newShare < TWO_TO_THE_63
      modifies this`rtRuntime, this`share, this`period
      ensures accepted <==>
        && 0 < newPeriod && (newShare == RUNTIME_INF || newShare <= newPeriod)
        && total <= ToRatio(newPeriod, newShare)
      ensures accepted ==> Valid() && share == newShare && period == newPeriod
      ensures !accepted ==> share == old(share) && period == old(period)
      ensures !Writable(newShare, newPeriod) ==> rtRuntime == old(rtRuntime)
      ensures Writable(newShare, newPeriod) ==> rtRuntime == seq(|old(rtRuntime)|, _ => newShare)
      ensures Writable(newShare, newPeriod) && !accepted ==>
        (Valid() <==> newShare == share || newShare == RUNTIME_INF)
      ensures Writable(newShare, newPeriod) && !accepted ==> forall c <- span ::
        && Exact(Seen(), share, c)
        && (TripsBug(Seen(), share, c) <==>
            && newShare != share && newShare != RUNTIME_INF
            && (|span| == 1 || (share != RUNTIME_INF && |span| * newShare < share)))
    {
      if newPeriod <= 0 { return false; }
      if newShare != RUNTIME_INF && newShare > newPeriod { return false; }
      var i, n := 0, |rtRuntime|;
      while i < n
        modifies this`rtRuntime
        invariant 0 <= i <= n == |rtRuntime| && forall k :: 0 <= k < i ==> rtRuntime[k] == newShare
      {
        rtRuntime := rtRuntime[i := newShare];
        i := i + 1;
      }
      if ToRatio(newPeriod, newShare) < total {
        WriteLeaves(rtRuntime, span, newShare, share);
        return false;
      }
      AllHold(rtRuntime, span, newShare);
      share, period := newShare, newPeriod;
      return true;
    }
  }

  /* The round, seen from the queues of the span. */
  lemma BalanceRound(runtime: seq<int>, span: set<nat>, time: seq<int>, c: nat, period: int)
    requires |runtime| == |time| && (forall i <- span :: i < |runtime|) && c in span
    ensures |span| > 0
    ensures forall now :: InSpan(now, span) == Borrow(InSpan(runtime, span), time, c, period, |span|, 0) ==>
      RoundSeen(runtime, now, span, time, c, period)
    ensures forall i :: 0 <= i < |runtime| ==>
      (Lends(InSpan(runtime, span), time, c, i) <==>
       i in span && i != c && runtime[i] != RUNTIME_INF && time[i] < runtime[i])
  {
    assert |span - {c}| == |span| - 1;
    var seen := InSpan(runtime, span);
    WholeRound(seen, time, c, period, |span|);
  }

  ghost predicate RoundSeen(runtime: seq<int>, now: seq<int>, span: set<nat>, time: seq<int>, c: nat, period: int)
    requires |runtime| == |time| && c in span && (forall i <- span :: i < |runtime|) && |span| > 0
  {
    && |now| == |runtime|
    && (exists m :: Round(InSpan(runtime, span), InSpan(now, span), time, c, period, |span|, m))
    && (now[c] < period ==> (
         && now[c] == Gained(InSpan(runtime, span), time, c, |span|, |runtime|)
         && forall i <- span :: i != c ==>
           now[i] == runtime[i] - (
             if runtime[i] != RUNTIME_INF && time[i] < runtime[i] then (runtime[i] - time[i]) / |span| else 0)))
  }

  /* Only the queues of the span differ. */
  ghost predicate SameOutside(a: seq<int>, b: seq<int>, span: set<nat>) {
    |a| == |b| && forall k :: 0 <= k < |a| && k !in span ==> a[k] == b[k]
  }

  /* Queues that all hold the share conserve it. */
  lemma AllHold(runtime: seq<int>, span: set<nat>, x: int)
    requires span != {} && (forall i <- span :: i < |runtime|) && forall i :: 0 <= i < |runtime| ==> runtime[i] == x
    requires x == RUNTIME_INF || (0 <= x && |runtime| * x < TWO_TO_THE_63)
    ensures x != RUNTIME_INF ==> Conserved(InSpan(runtime, span), x) && Count(InSpan(runtime, span)) == |span|
  {
    if x != RUNTIME_INF {
      var i :| i in span;
      ShareEnabled(|runtime|, x);
      AlikeTotal(InSpan(runtime, span), x);
      CountSpan(runtime, span);
    }
  }

  /* What a refused write leaves behind. */
  lemma WriteLeaves(runtime: seq<int>, span: set<nat>, newShare: int, share: int)
    requires span != {} && (forall i <- span :: i < |runtime|)
    requires forall i :: 0 <= i < |runtime| ==> runtime[i] == newShare
    requires newShare == RUNTIME_INF || (0 <= newShare && |runtime| * newShare < TWO_TO_THE_63)
    requires share == RUNTIME_INF || (0 <= share && |runtime| * share < TWO_TO_THE_63)
    ensures var seen := InSpan(runtime, span);
      && (share != RUNTIME_INF ==> (Conserved(seen, share) <==> newShare == share || newShare == RUNTIME_INF))
      && forall c <- span ::
        && Exact(seen, share, c)
        && (TripsBug(seen, share, c) <==>
            && newShare != share && newShare != RUNTIME_INF
            && (|span| == 1 || (share != RUNTIME_INF && |span| * newShare < share)))
  {
    var seen := InSpan(runtime, span);
    AllHold(runtime, span, newShare);
    AlikeTotal(seen, newShare);
    if newShare == RUNTIME_INF {
      assert Alike(seen, 0);
      AlikeTotal(seen, 0);
    }
    var i :| i in span;
    if newShare != RUNTIME_INF { ShareEnabled(|runtime|, newShare); }
    if share != RUNTIME_INF { ShareEnabled(|runtime|, share); }
    assert |span| >= 1;
    EqualShares(|span|, newShare, share);
    hide Total, Count, Reclaim, TripsBug;
    forall c <- span
      ensures Exact(seen, share, c)
      ensures TripsBug(seen, share, c) <==>
        && newShare != share && newShare != RUNTIME_INF
        && (|span| == 1 || (share != RUNTIME_INF && |span| * newShare < share))
    {
      AlikeExact(seen, newShare, share, c);
      RefusedWriteTripsBug(seen, newShare, share, c);
    }
  }

  lemma EqualShares(n: nat, a: int, b: int)
    requires n >= 1
    ensures n * a == n * b <==> a == b
  {
  }

  /* Two CPUs with the default limit, and deadline tasks that need nine tenths of one of them: a
     write of a tenth is refused, and the next CPU to go offline trips the BUG_ON. */
  method RefusedWrite() returns (want: int)
    ensures want != 0
  {
    var domain := new RootDomain(2, 950_000_000, 1_000_000_000);
    assert ToRatio(1_000_000_000, 100_000_000) < 943_718 <= 2 * ToRatio(1_000_000_000, 950_000_000);
    var accepted := domain.RtHandler(100_000_000, 1_000_000_000, 943_718);
    want := domain.TakeBack(0);
  }

  /* Two CPUs with the default limit. A write that is accepted while CPU 1 is offline enables its
     queue, so CPU 0 borrows from it; CPU 1 comes online with its whole share again. There is more
     than there should be, and the last CPU to go offline finds nobody to take it. */
  method OnlineAfterWrite() returns (want: int)
    ensures want != 0
  {
    hide Funded, Borrow, Disable, Exact, TripsBug, TakenBack, Round, Gained;
    var domain := new RootDomain(2, 950_000_000, 1_000_000_000);
    domain.DisableRuntime(1);
    var accepted := domain.RtHandler(950_000_000, 1_000_000_000, 0);
    assert domain.Seen() == [950_000_000, 950_000_000] && domain.rtTime == [0, 0];
    OneLoan();
    var more := domain.DoBalanceRuntime(0);
    assert domain.Seen()[1] == domain.rtRuntime[1] == 900_000_000;
    domain.EnableRuntime(1);
    assert domain.Seen() == [1_000_000_000, 950_000_000];
    LastOneTrips();
    domain.DisableRuntime(1);
    want := domain.TakeBack(0);
  }

  lemma OneLoan()
    ensures Borrow([950_000_000, 950_000_000], [0, 0], 0, 1_000_000_000, 2, 0) == [1_000_000_000, 900_000_000]
  {
    assert Borrow([1_000_000_000, 900_000_000], [0, 0], 0, 1_000_000_000, 2, 2) == [1_000_000_000, 900_000_000];
    assert !Lends([950_000_000, 950_000_000], [0, 0], 0, 0);
  }

  lemma LastOneTrips()
    ensures var more, last := [1_000_000_000, 950_000_000], [1_000_000_000, RUNTIME_INF];
      && Exact(more, 950_000_000, 1) && !TripsBug(more, 950_000_000, 1) && Disable(more, 950_000_000, 1) == last
      && Exact(last, 950_000_000, 0) && TripsBug(last, 950_000_000, 0)
  {
    var last := [1_000_000_000, RUNTIME_INF];
    assert last[..1] == [1_000_000_000] && [1_000_000_000][..0] == [];
    assert Count([1_000_000_000]) == 1;
    TripsExactly(last, 950_000_000, 0);
  }
}
