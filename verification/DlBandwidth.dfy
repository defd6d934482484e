/**
 The SCHED_DEADLINE bandwidth account of a root domain: what is admitted always fits the CPUs that
 are active, so that the tasks' true utilization stays bounded in spite of the rounding.
 */
module DlBandwidth {
  import opened Util
  import opened CpuRatio
  import opened RtRuntime
  import opened TgBandwidth

  type Task = nat
  type Cpu = nat

  const NO_LIMIT: int := TWO_TO_THE_64 - 1  // dl_bw.bw of -1
  const EPERM: int := 1
  const LEAST_RUNTIME: int := 1024          // 1 << DL_SCALE

  /* struct sched_attr, as far as deadline scheduling reads it. */
  datatype Attr = Attr(runtime: nat, deadline: nat, period: nat)

  predicate CheckParam(attr: Attr) {
    && attr.deadline != 0
    && attr.runtime >= LEAST_RUNTIME
    && attr.deadline < TWO_TO_THE_63 && attr.period < TWO_TO_THE_63
    && (attr.period == 0 || attr.period >= attr.deadline)
    && attr.deadline >= attr.runtime
  }

  function PeriodOr(attr: Attr): nat {
    if attr.period != 0 then attr.period else attr.deadline
  }

  /* __dl_overflow. */
  predicate Overflows(bw: int, total: int, cpus: nat, oldBw: int, newBw: int) {
    bw != NO_LIMIT && U64(bw * cpus) < U64(total - oldBw + newBw)
  }

  /* dl_overflow: the new total, or nothing if the change is refused. */
  function Overflow(bw: int, total: int, cpus: nat, wasDl: bool, oldBw: int, toDl: bool, newBw: int): Option<int> {
    if newBw == oldBw then Some(total)
    else if toDl && !wasDl && !Overflows(bw, total, cpus, 0, newBw) then Some(U64(total + newBw))
    else if toDl && wasDl && !Overflows(bw, total, cpus, oldBw, newBw) then Some(U64(U64(total - oldBw) + newBw))
    else if !toDl && wasDl then Some(U64(total - oldBw))
    else None
  }

  /* What an accepted change leaves in the account is right, unless the task comes in with a
     bandwidth left over from an earlier stay: the shortcut then takes the task for counted. The
     account is kept by __dl_clear_params being called when a task leaves. */
  lemma StaleShortcut(bw: int, others: nat, cpus: nat, wasDl: bool, oldBw: nat, toDl: bool, newBw: nat)
    requires others + oldBw + newBw < TWO_TO_THE_64 && (toDl || newBw == 0)
    ensures var total := others + if wasDl then oldBw else 0;
      var r := Overflow(bw, total, cpus, wasDl, oldBw, toDl, newBw);
      r.Some? ==>
        (r.value == others + (if toDl then newBw else 0) <==> !(!wasDl && toDl && oldBw == newBw && newBw != 0))
  {
  }

  // ----- the account

  /* The tasks of the deadline policy with their parameters, and dl_bw of every task. */
  datatype Ledger = Ledger(bw: int, total: int, runtime: map<Task, nat>, period: map<Task, nat>, dlBw: map<Task, nat>)

  /* dl_bw of the deadline tasks. */
  ghost function Promised(a: Ledger): map<Task, int> {
    map p | p in a.runtime && p in a.dlBw :: a.dlBw[p]
  }

  ghost predicate Parameters(a: Ledger) {
    && a.period.Keys == a.runtime.Keys && a.runtime.Keys <= a.dlBw.Keys && |a.runtime| < MANY - 1
    && (forall p {:trigger a.period[p]} :: p in a.runtime ==>
          0 < a.period[p] && a.runtime[p] <= a.period[p] && a.dlBw[p] == ToRatio(a.period[p], a.runtime[p]))
    && (forall p {:trigger a.dlBw[p]} :: p in a.dlBw && p !in a.runtime ==> a.dlBw[p] == 0)
  }

  /* total_bw is what the tasks have been promised, and fits the active CPUs. */
  ghost predicate Fits(a: Ledger, cpus: nat) {
    && a.total == SumMap(Promised(a))
    && 0 <= a.bw && (a.bw == NO_LIMIT || (a.bw <= UNIT && a.total <= a.bw * cpus))
  }

  lemma TotalSmall(a: Ledger)
    requires Parameters(a)
    ensures 0 <= SumMap(Promised(a)) <= TWO_TO_THE_64 - 2 * UNIT
  {
    forall p | p in Promised(a) ensures 0 <= Promised(a)[p] <= UNIT { RatioBound(a.period[p], a.runtime[p]); }
    assert Promised(a).Keys == a.runtime.Keys;
    SumMapBounded(Promised(a), UNIT);
    assert |Promised(a)| == |a.runtime|;
    MulMonotoneInt(|a.runtime|, MANY - 2, UNIT);
  }

  const CPUS: int := 0x1_0000_0000  // more than there are

  ghost function Besides(a: Ledger, p: Task): int {
    SumMap(Promised(a) - {p})
  }

  /* A task p with this bandwidth fits the CPUs together with all others. */
  ghost predicate Room(a: Ledger, cpus: nat, p: Task, newBw: int) {
    a.bw == NO_LIMIT || Besides(a, p) + newBw <= a.bw * cpus
  }

  lemma OthersAndOne(a: Ledger, p: Task)
    requires Parameters(a)
    ensures SumMap(Promised(a)) == Besides(a, p) + if p in a.runtime then a.dlBw[p] else 0
    ensures 0 <= Besides(a, p)
  {
    hide SumMap, ToRatio;
    if p in a.runtime {
      SumMapRemove(Promised(a), p);
    } else {
      assert Promised(a) - {p} == Promised(a);
    }
    forall q | q in Promised(a) - {p} ensures 0 <= (Promised(a) - {p})[q] <= UNIT {
      RatioBound(a.period[q], a.runtime[q]);
    }
    SumMapBounded(Promised(a) - {p}, UNIT);
  }

  /* In a sound account the code's test is whether the other tasks and this one fit together. */
  lemma OverflowMeans(a: Ledger, cpus: nat, p: Task, toDl: bool, newBw: nat)
    requires Parameters(a) && Fits(a, cpus) && cpus < CPUS && p in a.dlBw
    requires (toDl || p in a.runtime) && newBw <= UNIT && (toDl || newBw == 0)
    ensures Overflow(a.bw, a.total, cpus, p in a.runtime, a.dlBw[p], toDl, newBw) ==
      if toDl && !Room(a, cpus, p, newBw) then None else Some(Besides(a, p) + newBw)
  {
    hide SumMap, ToRatio, Parameters, U64, S64;
    TotalSmall(a);
    OthersAndOne(a, p);
    Outside(a, p);
    WrapExact(Besides(a, p));
    WrapExact(Besides(a, p) + newBw);
    if a.bw != NO_LIMIT {
      MulMonotoneInt(a.bw, UNIT, cpus);
      WrapExact(a.bw * cpus);
    }
  }

  lemma Outside(a: Ledger, p: Task)
    requires Parameters(a) && p in a.dlBw
    ensures p !in a.runtime ==> a.dlBw[p] == 0
    ensures a.dlBw[p] <= UNIT
  {
    if p in a.runtime { RatioBound(a.period[p], a.runtime[p]); }
  }

  /* The account after p has become a deadline task with the given parameters, or stopped being one. */
  ghost function Changed(a: Ledger, p: Task, toDl: bool, attr: Attr): Ledger {
    if toDl then
      var newBw := ToRatio(PeriodOr(attr), attr.runtime);
      Ledger(a.bw, Besides(a, p) + newBw,
             a.runtime[p := attr.runtime], a.period[p := PeriodOr(attr)], a.dlBw[p := newBw])
    else
      Ledger(a.bw, Besides(a, p), a.runtime - {p}, a.period - {p}, a.dlBw[p := 0])
  }

  /* p is counted with these parameters, all others as before. */
  ghost predicate Counts(a: Ledger, b: Ledger, p: Task, runtime: nat, period: nat, newBw: nat) {
    && b.runtime == a.runtime[p := runtime] && b.period == a.period[p := period] && b.dlBw == a.dlBw[p := newBw]
    && b.bw == a.bw && b.total == Besides(a, p) + newBw
  }

  /* p is not counted any more, all others as before. */
  ghost predicate Forgets(a: Ledger, b: Ledger, p: Task) {
    && b.runtime == a.runtime - {p} && b.period == a.period - {p} && b.dlBw == a.dlBw[p := 0]
    && b.bw == a.bw && b.total == Besides(a, p)
  }

  lemma AttrCases(a: Ledger, cpus: nat, p: Task, attr: Attr)
    ensures CheckParam(attr) <==>
      && LEAST_RUNTIME <= attr.runtime <= attr.deadline && 0 < attr.deadline < TWO_TO_THE_63
      && (attr.period == 0 || attr.deadline <= attr.period < TWO_TO_THE_63)
    ensures attr.period != 0 ==> RatioCase(a, cpus, p, attr, attr.period)
    ensures attr.period == 0 ==> RatioCase(a, cpus, p, attr, attr.deadline)
    ensures Forgets(a, Changed(a, p, false, attr), p)
  {
    hide ToRatio, SumMap;
  }

  ghost predicate RatioCase(a: Ledger, cpus: nat, p: Task, attr: Attr, period: nat) {
    var newBw := ToRatio(period, attr.runtime);
    && newBw == ToRatio(PeriodOr(attr), attr.runtime)
    && (Room(a, cpus, p, newBw) <==> a.bw == NO_LIMIT || Besides(a, p) + newBw <= a.bw * cpus)
    && Counts(a, Changed(a, p, true, attr), p, attr.runtime, period, newBw)
  }

  lemma EnterKeepsParameters(a: Ledger, p: Task, total: int, runtime: nat, period: nat)
    requires Parameters(a) && p in a.dlBw && |a.runtime| + 1 < MANY - 1 && 0 < period && runtime <= period
    ensures Parameters(Ledger(a.bw, total, a.runtime[p := runtime], a.period[p := period],
                              a.dlBw[p := ToRatio(period, runtime)]))
  {
  }

  lemma LeaveKeepsParameters(a: Ledger, p: Task, total: int)
    requires Parameters(a) && p in a.dlBw
    ensures Parameters(Ledger(a.bw, total, a.runtime - {p}, a.period - {p}, a.dlBw[p := 0]))
  {
  }

  lemma OthersStay(a: Ledger, p: Task, toDl: bool, attr: Attr)
    requires p in a.dlBw
    ensures Promised(Changed(a, p, toDl, attr)) - {p} == Promised(a) - {p}
  {
  }

  lemma ChangeKeeps(a: Ledger, cpus: nat, p: Task, toDl: bool, attr: Attr)
    requires Parameters(a) && Fits(a, cpus) && p in a.dlBw && |a.runtime| + 1 < MANY - 1
    requires toDl ==> CheckParam(attr)
    requires toDl ==> Room(a, cpus, p, ToRatio(PeriodOr(attr), attr.runtime))
    ensures Parameters(Changed(a, p, toDl, attr)) && Fits(Changed(a, p, toDl, attr), cpus)
  {
    hide SumMap, ToRatio, Parameters, Promised;
    var b := Changed(a, p, toDl, attr);
    if toDl {
      EnterKeepsParameters(a, p, b.total, attr.runtime, PeriodOr(attr));
    } else {
      LeaveKeepsParameters(a, p, b.total);
    }
    OthersStay(a, p, toDl, attr);
    OthersAndOne(a, p);
    Outside(a, p);
    OthersAndOne(b, p);
  }

  // ----- true utilization

  predicate Wraps(attr: Attr) {
    attr.runtime % MANY == 0
  }

  /* A task whose runtime is a multiple of 2^44 ns counts for nothing, whatever its deadline and
     period: it always fits in RootDomain.SetScheduler, although it may fill a CPU all by itself. */
  lemma WrappedTaskCountsNothing(attr: Attr)
    requires CheckParam(attr) && Wraps(attr)
    ensures ToRatio(PeriodOr(attr), attr.runtime) == 0
  {
    WrappedIsZero(PeriodOr(attr), attr.runtime);
  }

  ghost function Utilization(a: Ledger): map<Task, real>
    requires Parameters(a)
  {
    map p | p in a.runtime :: TimeShare(a.period[p], a.runtime[p])
  }

  /* The grant is rounded down, too. */
  lemma GrantBelow(l: Limit, cpus: nat, total: nat)
    requires total <= ToRatio(l.period, l.runtime) * cpus
    ensures total as real <= TimeShare(l.period, l.runtime) * cpus as real * UNIT as real
  {
    hide ToRatio, TimeShare;
    RatioBelow(l.period, l.runtime);
    var ratio, share := ToRatio(l.period, l.runtime), TimeShare(l.period, l.runtime);
    TimesMonotone(ratio as real, share * UNIT as real, cpus as real);
    assert (ratio * cpus) as real == ratio as real * cpus as real;
    assert share * UNIT as real * cpus as real == share * cpus as real * UNIT as real;
  }

  lemma TimesMonotone(a: real, b: real, n: real)
    requires a <= b && 0.0 <= n
    ensures a * n <= b * n
  {
  }

  /* What the tasks need together stays below what the active CPUs grant, up to 2^-20 a task. */
  lemma UtilizationBounded(a: Ledger, cpus: nat, l: Limit)
    requires Parameters(a) && Fits(a, cpus) && a.runtime != map[]
    requires forall p :: p in a.runtime ==> a.runtime[p] < MANY
    requires a.bw == ToRatio(l.period, l.runtime) && Sane(l)
    ensures SumReals(Utilization(a)) <
      TimeShare(l.period, l.runtime) * cpus as real + |a.runtime| as real / UNIT as real
  {
    hide SumMap, SumReals, ToRatio, TimeShare;
    var u, b, grant := Utilization(a), Promised(a), TimeShare(l.period, l.runtime) * cpus as real;
    forall p | p in u ensures u[p] * UNIT as real < (b[p] + 1) as real { ShareBelow(a.period[p], a.runtime[p]); }
    assert u.Keys == a.runtime.Keys && b.Keys == a.runtime.Keys;
    SizeOf(u);
    SizeOf(a.runtime);
    SharesBelow(u, b);
    RatioBound(l.period, l.runtime);
    TotalSmall(a);
    GrantBelow(l, cpus, a.total);
    Divide(SumReals(u), grant, |a.runtime| as real, UNIT as real);
  }

  ghost predicate FillAndWrap(a: Ledger) {
    a.period.Keys == a.runtime.Keys && forall p :: p in a.runtime ==> a.runtime[p] == a.period[p] == MANY
  }

  /* Tasks that fill one CPU each and count for nothing overrun every such bound. */
  lemma WrappedTasksOverrun(a: Ledger, cpus: nat, l: Limit)
    requires Parameters(a) && FillAndWrap(a) && Sane(l)
    ensures SumMap(Promised(a)) == 0 && SumReals(Utilization(a)) == |a.runtime| as real
    ensures |a.runtime| >= 1 && |a.runtime| >= 2 * cpus ==>
      SumReals(Utilization(a)) > TimeShare(l.period, l.runtime) * cpus as real + |a.runtime| as real / UNIT as real
  {
    hide Parameters, SumMap, SumReals, Promised, Utilization, TimeShare;
    NothingPromised(a);
    AllNeeded(a);
    ShareBound(l.period, l.runtime);
    TimesMonotone(TimeShare(l.period, l.runtime), 1.0, cpus as real);
    Overruns(|a.runtime|, cpus, TimeShare(l.period, l.runtime) * cpus as real);
  }

  lemma NothingPromised(a: Ledger)
    requires Parameters(a) && FillAndWrap(a)
    ensures SumMap(Promised(a)) == 0
  {
    hide ToRatio, SumMap;
    var b := Promised(a);
    WrappedIsZero(MANY, MANY);
    forall p | p in b ensures 0 <= b[p] <= 0 { assert b[p] == ToRatio(MANY, MANY); }
    SumMapBounded(b, 0);
  }

  lemma AllNeeded(a: Ledger)
    requires Parameters(a) && FillAndWrap(a)
    ensures SumReals(Utilization(a)) == |a.runtime| as real
  {
    hide Parameters, SumReals;
    var u := Utilization(a);
    forall p | p in u ensures u[p] == 1.0 { assert u[p] == TimeShare(MANY, MANY); }
    assert u.Keys == a.runtime.Keys;
    SizeOf(u);
    SizeOf(a.runtime);
    EachOne(u);
  }

  lemma Overruns(n: nat, cpus: nat, grant: real)
    requires grant <= cpus as real
    ensures n >= 1 && n >= 2 * cpus ==> n as real > grant + n as real / UNIT as real
  {
  }

  // ----- the global limit

  function WithLimit(a: Ledger, period: nat, runtime: nat): Ledger {
    a.(bw := if runtime == RUNTIME_INF then NO_LIMIT else ToRatio(period, runtime))
  }

  /* Under a new limit the tasks fit exactly if the limit is off or the account is within it. */
  lemma FitsNewLimit(a: Ledger, cpus: nat, period: nat, runtime: nat)
    requires Parameters(a) && Fits(a, cpus) && Sane(Limit(period, runtime))
    ensures Parameters(WithLimit(a, period, runtime))
    ensures Fits(WithLimit(a, period, runtime), cpus) <==>
      runtime == RUNTIME_INF || a.total <= ToRatio(period, runtime) * cpus
    ensures cpus == 1 && (runtime != RUNTIME_INF || a.bw != NO_LIMIT) ==>
      (Fits(WithLimit(a, period, runtime), cpus) <==> a.total <= ToRatio(period, runtime))
    ensures ToRatio(period, runtime) <= UNIT && (runtime == RUNTIME_INF ==> ToRatio(period, runtime) == UNIT)
    ensures cpus >= 1 && a.total <= ToRatio(period, runtime) ==> a.total <= ToRatio(period, runtime) * cpus
  {
    hide Parameters, Promised, SumMap;
    SamePromise(a, period, runtime);
    RatioBound(period, runtime);
    if cpus >= 1 { MulMonotoneInt(1, cpus, ToRatio(period, runtime)); }
  }

  lemma SamePromise(a: Ledger, period: nat, runtime: nat)
    requires Parameters(a)
    ensures Parameters(WithLimit(a, period, runtime)) && Promised(WithLimit(a, period, runtime)) == Promised(a)
  {
    hide ToRatio;
  }

  // ----- the root domain

  class RootDomain {
    var a: Ledger
    var active: set<Cpu>  // cpu_active_mask within the span
    var limit: Limit      // sysctl_sched_rt_period and sysctl_sched_rt_runtime

    ghost predicate Valid() reads this {
      && Parameters(a) && Fits(a, |active|) && |active| < CPUS && Sane(limit)
      && a.bw == if limit.runtime == RUNTIME_INF then NO_LIMIT else ToRatio(limit.period, limit.runtime)
    }

    constructor (cpus: set<Cpu>, period: nat, runtime: nat)
      requires |cpus| < CPUS && (runtime <= period || runtime == RUNTIME_INF)
      ensures Valid() && active == cpus && limit == Limit(period, runtime)
      ensures a.dlBw == map[] && a.runtime == map[] && a.total == 0
    {
      active, limit := cpus, Limit(period, runtime);
      a := Ledger(if runtime == RUNTIME_INF then NO_LIMIT else ToRatio(period, runtime), 0, map[], map[], map[]);
      new;
      RatioBound(period, runtime);
      SumMapEmpty<Task>();
      assert Promised(a) == map[];
    }

    /* __sched_fork. */
    method NewTask(p: Task)
      requires Valid() && p !in a.dlBw
      modifies this`a
      ensures Valid() && a == old(a).(dlBw := old(a.dlBw)[p := 0])
    {
      a := a.(dlBw := a.dlBw[p := 0]);
      assert Promised(a) == Promised(old(a));
    }

    method DlOverflow(p: Task, toDl: bool, attr: Attr) returns (err: int)
      requires p in a.dlBw
      modifies this`a
      ensures var r := Overflow(old(a.bw), old(a.total), |active|, p in old(a.runtime), old(a.dlBw)[p], toDl,
                                if !toDl then 0
                                else if attr.period != 0 then ToRatio(attr.period, attr.runtime)
                                else ToRatio(attr.deadline, attr.runtime));
        && err == (if r.Some? then 0 else -1)
        && a == old(a).(total := if r.Some? then r.value else old(a.total))
    {
      var period := if attr.period != 0 then attr.period else attr.deadline;
      var newBw := if toDl then ToRatio(period, attr.runtime) else 0;
      var hasDl := p in a.runtime;
      if newBw == a.dlBw[p] { return 0; }
      err := -1;
      var cpus := |active|;
      if toDl && !hasDl && !Overflows(a.bw, a.total, cpus, 0, newBw) {
        a := a.(total := U64(a.total + newBw));
        err := 0;
      } else if toDl && hasDl && !Overflows(a.bw, a.total, cpus, a.dlBw[p], newBw) {
        a := a.(total := U64(a.total - a.dlBw[p]));
        a := a.(total := U64(a.total + newBw));
        err := 0;
      } else if !toDl && hasDl {
        a := a.(total := U64(a.total - a.dlBw[p]));
        err := 0;
      }
    }

    /* A user, unlike the kernel, gets no deadline task while there is no bandwidth at all, nor for a
       task whose affinity does not cover the span. */
    predicate Denied(user: bool, covers: bool)
      reads this
    {
      user && limit.runtime != RUNTIME_INF && (!covers || a.bw == 0)
    }

    /* __sched_setscheduler, as far as the account goes: a change of p is accepted exactly if what p
       asks for fits together with what all others were promised. covers says whether p's affinity
       covers the span. The deadline class's switched_from calls __dl_clear_params. */
    method SetScheduler(p: Task, toDl: bool, attr: Attr, user: bool, covers: bool) returns (err: int)
      requires Valid() && p in a.dlBw && |a.runtime| + 1 < MANY - 1
      modifies this`a
      ensures Valid()
      ensures err in {0, -EINVAL, -EPERM, -EBUSY}
      ensures err != -EINVAL <==> (toDl ==>
        && LEAST_RUNTIME <= attr.runtime <= attr.deadline && 0 < attr.deadline < TWO_TO_THE_63
        && (attr.period == 0 || attr.deadline <= attr.period < TWO_TO_THE_63))
      ensures err == -EPERM <==>
        toDl && CheckParam(attr) && user && limit.runtime != RUNTIME_INF && (!covers || old(a.bw) == 0)
      ensures err == 0 <==> (toDl ==>
        && CheckParam(attr) && !old(Denied(user, covers))
        && Room(old(a), |active|, p, ToRatio(PeriodOr(attr), attr.runtime)))
      ensures toDl && err in {0, -EBUSY} && attr.period != 0 ==>
        (err == 0 <==> a.bw == NO_LIMIT || Besides(old(a), p) + ToRatio(attr.period, attr.runtime) <= a.bw * |active|)
      ensures toDl && err in {0, -EBUSY} && attr.period == 0 ==>
        (err == 0 <==> a.bw == NO_LIMIT || Besides(old(a), p) + ToRatio(attr.deadline, attr.runtime) <= a.bw * |active|)
      ensures toDl && err == 0 && attr.period != 0 ==>
        Counts(old(a), a, p, attr.runtime, attr.period, ToRatio(attr.period, attr.runtime))
      ensures toDl && err == 0 && attr.period == 0 ==>
        Counts(old(a), a, p, attr.runtime, attr.deadline, ToRatio(attr.deadline, attr.runtime))
      ensures !toDl ==> Forgets(old(a), a, p)
      ensures a == if err == 0 then Changed(old(a), p, toDl, attr) else old(a)
      ensures toDl && CheckParam(attr) && Wraps(attr) && !old(Denied(user, covers)) ==>
        err == 0 && a.total == Besides(old(a), p)
    {
      hide Parameters, Fits, SumMap, Besides, ToRatio, Overflow, CheckParam, Wraps, Room, Counts, Forgets;
      AttrCases(a, |active|, p, attr);
      if toDl && !CheckParam(attr) { return -EINVAL; }
      if user && limit.runtime != RUNTIME_INF && toDl {
        if !covers || a.bw == 0 { return -EPERM; }
      }
      if toDl && Wraps(attr) { WrappedFits(a, |active|, p, attr); }
      ghost var newBw := if toDl then ToRatio(PeriodOr(attr), attr.runtime) else 0;
      if toDl { RatioOf(attr); }
      if toDl || p in a.runtime {
        OverflowMeans(a, |active|, p, toDl, newBw);
        var e := DlOverflow(p, toDl, attr);
        if e != 0 { return -EBUSY; }
      } else {
        NoDeadline(a, |active|, p, attr);
      }
      ChangeKeeps(old(a), |active|, p, toDl, attr);
      if toDl {  // __setparam_dl
        var period := if attr.period != 0 then attr.period else attr.deadline;
        a := Ledger(a.bw, a.total, a.runtime[p := attr.runtime], a.period[p := period],
                    a.dlBw[p := ToRatio(period, attr.runtime)]);
      } else {
        a := Ledger(a.bw, a.total, a.runtime - {p}, a.period - {p}, a.dlBw[p := 0]);
      }
      return 0;
    }

    /* sched_cpu_inactive for a removal that is not a suspend, and sched_cpu_active's answer to its
       failure. */
    method CpuDown(cpu: Cpu) returns (ok: bool)
      requires Valid() && cpu in active
      modifies this`active
      ensures Valid()
      ensures ok <==> a.bw == NO_LIMIT || a.total <= a.bw * (|old(active)| - 1)
      ensures active == if ok then old(active) - {cpu} else old(active)
    {
      hide Parameters, Fits, Overflows, SumMap, ToRatio;
      OneLessCpu(active, cpu);
      active := active - {cpu};
      DownMeans(a, |active|);
      if Overflows(a.bw, a.total, |active|, 0, 0) {
        active := active + {cpu};
        assert active == old(active);
        return false;
      }
      return true;
    }

    method CpuUp(cpu: Cpu)
      requires Valid() && |active| + 1 < CPUS
      modifies this`active
      ensures Valid() && active == old(active) + {cpu}
    {
      hide Parameters, SumMap, ToRatio;
      OneMoreCpu(active, cpu);
      active := active + {cpu};
      if a.bw != NO_LIMIT { MulMonotoneInt(|old(active)|, |active|, a.bw); }
    }

    /* sched_rt_handler without RT groups, as far as the account goes. sched_dl_global_constraints
       compares the whole account with one CPU's share of the new limit. So its answer is whether
       the tasks fit the active CPUs, except when they fit them and are more than that one share;
       with one CPU, only when more than the CPU was promised while there was no limit. */
    method SetLimit(period: nat, runtime: nat) returns (err: int)
      requires Valid() && active != {}
      modifies this`a, this`limit
      ensures Valid()
      ensures err == 0 ==> limit == Limit(period, runtime)
      ensures err == 0 ==> a == old(a).(bw := if runtime == RUNTIME_INF then NO_LIMIT else ToRatio(period, runtime))
      ensures err != 0 ==> limit == old(limit) && a == old(a) && err in {-EINVAL, -EBUSY}
      ensures err == -EINVAL <==> period == 0 || (runtime != RUNTIME_INF && runtime > period)
      ensures err == -EBUSY <==>
        period != 0 && (runtime == RUNTIME_INF || runtime <= period) && ToRatio(period, runtime) < old(a.total)
      ensures err != -EINVAL ==>
        ((err == 0 <==> Fits(WithLimit(old(a), period, runtime), |active|)) <==>
          !(ToRatio(period, runtime) < old(a.total) &&
            (runtime == RUNTIME_INF || old(a.total) <= ToRatio(period, runtime) * |active|)))
      ensures err != -EINVAL && |active| == 1 && (runtime != RUNTIME_INF || old(limit).runtime != RUNTIME_INF) ==>
        (err == 0 <==> Fits(WithLimit(old(a), period, runtime), |active|))
      ensures old(a.total) > UNIT ==> err != 0
    {
      hide Parameters, SumMap, ToRatio, Promised;
      SomeCpu(active);
      var was := limit;
      limit := Limit(period, runtime);
      if period == 0 || (runtime != RUNTIME_INF && runtime > period) {
        limit := was;
        return -EINVAL;
      }
      FitsNewLimit(a, |active|, period, runtime);
      RatioBound(was.period, was.runtime);
      var newBw := ToRatio(period, runtime);
      if newBw < a.total {
        limit := was;
        return -EBUSY;
      }
      a := a.(bw := if runtime != RUNTIME_INF then newBw else NO_LIMIT);
      return 0;
    }
  }

  /* Two CPUs under the default limit and two tasks of three quarters of a CPU each: both a limit of
     nine tenths, under which they still fit, and no limit at all are refused. */
  method LimitRefused(user: bool) returns (a: Ledger, lower: int, off: int)
    ensures Parameters(a) && |a.runtime| == 2 && Fits(a, 2)
    ensures Fits(WithLimit(a, 1_000_000_000, 900_000_000), 2) && Fits(WithLimit(a, 1_000_000_000, RUNTIME_INF), 2)
    ensures lower == -EBUSY && off == -EBUSY
  {
    hide Parameters, Fits, SumMap, Besides, ToRatio;
    var domain := new RootDomain({0, 1}, 1_000_000_000, 950_000_000);
    Ratios();
    domain.NewTask(1);
    domain.NewTask(2);
    EnterHeavy(domain, 1, user);
    EnterHeavy(domain, 2, user);
    a := domain.a;
    FitsNewLimit(a, 2, 1_000_000_000, 900_000_000);
    FitsNewLimit(a, 2, 1_000_000_000, RUNTIME_INF);
    lower := domain.SetLimit(1_000_000_000, 900_000_000);
    off := domain.SetLimit(1_000_000_000, RUNTIME_INF);
  }

  lemma Ratios()
    ensures ToRatio(1_000_000_000, 950_000_000) == 996_147
    ensures ToRatio(1_000_000_000, 900_000_000) == 943_718
    ensures ToRatio(1_000_000_000, 750_000_000) == 786_432
  {
  }

  /* A task of three quarters of a CPU enters while it fits. */
  method EnterHeavy(domain: RootDomain, p: Task, user: bool)
    requires domain.Valid() && p in domain.a.dlBw && p !in domain.a.runtime && |domain.a.runtime| < MANY - 2
    requires domain.a.bw == 996_147 && |domain.active| == 2 && domain.a.total + 786_432 <= 2 * 996_147
    modifies domain`a
    ensures domain.Valid() && domain.a.total == old(domain.a.total) + 786_432 && domain.a.bw == old(domain.a.bw)
    ensures |domain.a.runtime| == |old(domain.a.runtime)| + 1
    ensures domain.a.runtime.Keys == old(domain.a.runtime.Keys) + {p}
    ensures domain.a.dlBw.Keys == old(domain.a.dlBw.Keys)
  {
    hide Parameters, Fits, SumMap, Besides, ToRatio;
    Ratios();
    NewcomerAdds(domain.a, 2, p);
    var _ := domain.SetScheduler(p, true, Attr(750_000_000, 1_000_000_000, 0), user, true);
  }

  lemma NewcomerAdds(a: Ledger, cpus: nat, p: Task)
    requires Parameters(a) && Fits(a, cpus) && p !in a.runtime
    ensures Besides(a, p) == a.total
  {
    hide SumMap, ToRatio;
    OthersAndOne(a, p);
  }

  lemma NoTasks(a: Ledger, cpus: nat)
    requires Parameters(a) && Fits(a, cpus) && a.runtime == map[]
    ensures a.period == map[] && a.total == 0
  {
    SumMapEmpty<Task>();
    assert Promised(a) == map[];
  }

  /* Any number of tasks that each fill a CPU are let into an empty domain; into one whose limit is
     zero only by the kernel. */
  method WrappedTasksEnter(domain: RootDomain, n: nat, user: bool)
    requires domain.Valid() && (user ==> domain.a.bw != 0) && n < MANY - 2
    requires domain.a.dlBw == map[] && domain.a.runtime == map[]
    modifies domain`a
    ensures domain.Valid() && |domain.a.runtime| == n && domain.a.total == 0
    ensures SumReals(Utilization(domain.a)) == n as real
  {
    hide Parameters, Fits, SumMap, Besides, ToRatio;
    NoTasks(domain.a, |domain.active|);
    var i := 0;
    while i < n
      modifies domain`a
      invariant 0 <= i <= n && domain.Valid() && |domain.a.runtime| == i
      invariant domain.a.bw == old(domain.a.bw) && forall p :: p in domain.a.dlBw ==> p < i
      invariant domain.a.period.Keys == domain.a.runtime.Keys == domain.a.dlBw.Keys && domain.a.total == 0
      invariant forall p :: p in domain.a.runtime ==> domain.a.runtime[p] == domain.a.period[p] == MANY
    {
      domain.NewTask(i);
      NewcomerAdds(domain.a, |domain.active|, i);
      var err := domain.SetScheduler(i, true, Attr(MANY, MANY, 0), user, true);
      i := i + 1;
    }
    WrappedTasksOverrun(domain.a, 0, Limit(1, 1));
  }

  lemma OneMoreCpu(active: set<Cpu>, cpu: Cpu)
    ensures |active| <= |active + {cpu}| <= |active| + 1
  {
    if cpu in active { assert active + {cpu} == active; }
  }

  lemma OneLessCpu(active: set<Cpu>, cpu: Cpu)
    requires cpu in active
    ensures |active - {cpu}| + 1 == |active|
  {
  }

  lemma SomeCpu(active: set<Cpu>)
    requires active != {}
    ensures |active| >= 1
  {
  }

  lemma WrappedFits(a: Ledger, cpus: nat, p: Task, attr: Attr)
    requires Parameters(a) && Fits(a, cpus) && CheckParam(attr) && Wraps(attr)
    ensures ToRatio(PeriodOr(attr), attr.runtime) == 0 && Room(a, cpus, p, 0)
  {
    hide SumMap, ToRatio;
    WrappedTaskCountsNothing(attr);
    OthersAndOne(a, p);
  }

  lemma RatioOf(attr: Attr)
    requires CheckParam(attr)
    ensures ToRatio(PeriodOr(attr), attr.runtime) <= UNIT
  {
    RatioBound(PeriodOr(attr), attr.runtime);
  }

  lemma NoDeadline(a: Ledger, cpus: nat, p: Task, attr: Attr)
    requires Parameters(a) && Fits(a, cpus) && p !in a.runtime && p in a.dlBw
    ensures Changed(a, p, false, attr) == a
  {
    hide SumMap, ToRatio;
    OthersAndOne(a, p);
    var b := Changed(a, p, false, attr);
    assert b.runtime == a.runtime && b.period == a.period && b.dlBw == a.dlBw;
  }

  lemma DownMeans(a: Ledger, n: nat)
    requires Parameters(a) && Fits(a, n + 1) && n < CPUS
    ensures !Overflows(a.bw, a.total, n, 0, 0) <==> Fits(a, n)
    ensures Fits(a, n) <==> a.bw == NO_LIMIT || a.total <= a.bw * n
  {
    hide U64, S64, Parameters, Promised, SumMap;
    TotalSmall(a);
    WrapExact(a.total);
    if a.bw != NO_LIMIT {
      MulMonotoneInt(a.bw, UNIT, n);
      WrapExact(a.bw * n);
    }
  }
}
