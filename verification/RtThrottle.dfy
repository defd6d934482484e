/**
 RT throttling on one CPU without groups and without sharing: what RT tasks can consume over any
 number of periods, and when a throttled queue is released.
 */
module RtThrottle {
  import opened Util
  import opened CpuRatio

  /* The top rt_rq: rt_time, rt_throttled, rt_queued, rt_nr_running; and whether the bandwidth timer
     is active. */
  datatype Queue = Queue(time: int, throttled: bool, queued: bool, tasks: nat, timer: bool)

  /* The group's runtime is assigned and less than its period. */
  predicate Limited(period: int, runtime: int) {
    0 < runtime < period < TWO_TO_THE_63
  }

  // ----- the operations

  /* update_curr_rt while an RT task runs, with delta nanoseconds since the last time, and
     sched_rt_runtime_exceeded. */
  function Accounted(q: Queue, period: int, runtime: int, delta: int): Queue {
    if runtime == RUNTIME_INF then q else Checked(q.(time := U64(q.time + delta)), period, runtime)
  }

  function Checked(q: Queue, period: int, runtime: int): Queue {
    if q.throttled || runtime >= period || q.time <= runtime then q
    else if runtime == 0 then q.(time := 0)
    else q.(throttled := true, queued := false)
  }

  /* What a check does to a queue whose accumulated time has become `time`: past a runtime that is
     assigned and limited it is throttled, and without a runtime the time is forgotten. */
  ghost predicate Charged(q: Queue, r: Queue, time: int, period: int, runtime: int) {
    && (r.throttled <==> q.throttled || (0 < runtime < period && time > runtime))
    && r.time == (if runtime == 0 && !q.throttled then 0 else time)
    && r.queued == (q.queued && (q.throttled || !r.throttled))
    && r.tasks == q.tasks && r.timer == q.timer
  }

  /* do_sched_rt_period_timer. The timer goes on while there is time to replenish or a task, but not
     without a limit. */
  function Expired(q: Queue, runtime: int, overrun: int): Queue {
    if q.time != 0 then
      var time := q.time - Min(q.time, U64(overrun * runtime));
      var throttled := q.throttled && time >= runtime;
      Queue(time, throttled, q.queued || (q.throttled && !throttled && q.tasks > 0), q.tasks,
            (time != 0 || q.tasks > 0) && (throttled || runtime != RUNTIME_INF))
    else
      q.(queued := q.queued || (q.tasks > 0 && !q.throttled),
         timer := q.tasks > 0 && (q.throttled || runtime != RUNTIME_INF))
  }

  /* enqueue_task_rt; start_rt_bandwidth starts no timer without a limit. */
  function Enqueued(q: Queue, runtime: int): Queue {
    q.(tasks := q.tasks + 1, queued := !q.throttled, timer := q.timer || runtime != RUNTIME_INF)
  }

  function Dequeued(q: Queue): Queue
    requires q.tasks > 0
  {
    q.(tasks := q.tasks - 1, queued := !q.throttled && q.tasks > 1)
  }

  class RtRq {
    var q: Queue
    var nrRunning: nat  // rq->nr_running
    const period: int
    const runtime: int

    ghost predicate Valid() reads this {
      && 0 < period < TWO_TO_THE_63 && 0 <= runtime < TWO_TO_THE_64 && 0 <= q.time < TWO_TO_THE_64
      && (q.queued <==> !q.throttled && q.tasks > 0)
      && (q.queued ==> nrRunning >= q.tasks)
      && (runtime == RUNTIME_INF ==> !q.throttled)
    }

    /* The runnable tasks of the other classes. */
    ghost function Others(): int reads this {
      nrRunning - if q.queued then q.tasks else 0
    }

    constructor (period: int, runtime: int)
      requires 0 < period < TWO_TO_THE_63 && 0 <= runtime < TWO_TO_THE_64
      ensures Valid() && q == Queue(0, false, false, 0, false) && nrRunning == 0
      ensures this.period == period && this.runtime == runtime
    {
      this.period, this.runtime := period, runtime;
      q, nrRunning := Queue(0, false, false, 0, false), 0;
    }

    method DequeueTop()
      requires q.queued ==> nrRunning >= q.tasks
      modifies this
      ensures q == old(q).(queued := false) && nrRunning == old(Others())
    {
      if !q.queued { return; }
      nrRunning := nrRunning - q.tasks;
      q := q.(queued := false);
    }

    method EnqueueTop()
      modifies this
      ensures q == old(q).(queued := old(q.queued) || (!old(q.throttled) && old(q.tasks) > 0))
      ensures nrRunning == old(nrRunning) + if q.queued && !old(q.queued) then q.tasks else 0
    {
      if q.queued { return; }
      if q.throttled || q.tasks == 0 { return; }
      nrRunning := nrRunning + q.tasks;
      q := q.(queued := true);
    }

    method UpdateCurrRt(delta: int) returns (resched: bool)
      requires Valid() && 0 < delta < TWO_TO_THE_63
      modifies this
      ensures Valid() && q == Accounted(old(q), period, runtime, delta) && Others() == old(Others())
      ensures runtime == RUNTIME_INF ==> q == old(q)
      ensures runtime != RUNTIME_INF ==> Charged(old(q), q, U64(old(q).time + delta), period, runtime)
      ensures resched ==> q.throttled
      ensures runtime != RUNTIME_INF && q.throttled ==> resched
    {
      if runtime == RUNTIME_INF { return false; }
      q := q.(time := U64(q.time + delta));
      resched := RuntimeExceeded();
    }

    method RuntimeExceeded() returns (resched: bool)
      requires Valid()
      modifies this
      ensures Valid() && Others() == old(Others())
      ensures q == Checked(old(q), period, runtime) && Charged(old(q), q, old(q).time, period, runtime)
      ensures resched <==> q.throttled
    {
      if q.throttled { return true; }
      if runtime >= period { return false; }
      if q.time > runtime {
        if runtime != 0 {
          q := q.(throttled := true);
        } else {
          q := q.(time := 0);
        }
        if q.throttled {
          DequeueTop();
          return true;
        }
      }
      return false;
    }

    /* The timer goes on unless it finds nothing to do or there is no limit. */
    method PeriodTimer(overrun: int) returns (idle: bool)
      requires Valid() && 0 < overrun
      modifies this
      ensures Valid() && q == Expired(old(q), runtime, overrun) && Others() == old(Others())
      ensures q.time == old(q).time - Min(old(q).time, U64(overrun * runtime)) && q.tasks == old(q).tasks
      ensures q.throttled <==> old(q).throttled && (old(q).time == 0 || q.time >= runtime)
      ensures q.timer <==> (q.time != 0 || q.tasks > 0) && (q.throttled || runtime != RUNTIME_INF)
      ensures (idle <==> !q.timer) && (runtime == RUNTIME_INF ==> idle)
    {
      idle := true;
      var enqueue, throttled := false, false;
      if q.time != 0 {
        q := q.(time := q.time - Min(q.time, U64(overrun * runtime)));
        if q.throttled && q.time < runtime {
          q := q.(throttled := false);
          enqueue := true;
        }
        if q.time != 0 || q.tasks != 0 { idle := false; }
      } else if q.tasks != 0 {
        idle := false;
        if !q.throttled { enqueue := true; }
      }
      throttled := q.throttled;
      if enqueue && q.tasks != 0 { EnqueueTop(); }
      if !throttled && runtime == RUNTIME_INF { idle := true; }
      q := q.(timer := !idle);
    }

    method EnqueueTask()
      requires Valid()
      modifies this
      ensures Valid() && q == Enqueued(old(q), runtime) && Others() == old(Others())
      ensures q.tasks == old(q).tasks + 1 && q.time == old(q).time && q.throttled == old(q).throttled
      ensures q.timer <==> old(q).timer || runtime != RUNTIME_INF
    {
      DequeueTop();
      q := q.(tasks := q.tasks + 1);
      if runtime != RUNTIME_INF { q := q.(timer := true); }
      EnqueueTop();
    }

    method DequeueTask()
      requires Valid() && q.tasks > 0
      modifies this
      ensures Valid() && q == Dequeued(old(q)) && Others() == old(Others())
      ensures q.tasks == old(q).tasks - 1 && q == old(q).(tasks := q.tasks, queued := q.queued)
    {
      DequeueTop();
      q := q.(tasks := q.tasks - 1);
      EnqueueTop();
    }
  }

  // ----- whole runs

  datatype Event = Account(delta: int) | Expire(overrun: int) | Enter | Leave | Switch(toRt: bool)

  /* What has happened: whether an RT task runs; over: the time accounted since the queue crossed its
     limit, beyond the limit; exec: all RT time; expired: all period expirations. */
  datatype History = History(q: Queue, running: bool, over: int, exec: int, expired: int)

  /* The next event, if it can happen; a task may only keep the CPU for d once over the limit. */
  ghost function Next(h: History, ev: Event, period: int, runtime: int, d: int): Option<History> {
    match ev
    case Account(delta) =>
      var q := Accounted(h.q, period, runtime, delta);
      var over := if h.q.throttled then h.over + delta else if q.throttled then h.q.time + delta - runtime else 0;
      if h.running && 0 < delta < TWO_TO_THE_63 && over <= d then
        Some(History(q, true, over, h.exec + delta, h.expired))
      else None
    case Expire(overrun) =>
      var q := Expired(h.q, runtime, overrun);
      if h.q.timer && 0 < overrun then
        Some(History(q, h.running, if q.throttled then h.over else 0, h.exec, h.expired + overrun))
      else None
    case Enter => Some(h.(q := Enqueued(h.q, runtime)))
    case Leave => if h.q.tasks > 0 then Some(h.(q := Dequeued(h.q))) else None
    case Switch(toRt) => if toRt ==> h.q.queued then Some(h.(running := toRt)) else None
  }

  ghost function Run(events: seq<Event>, period: int, runtime: int, d: int): Option<History> {
    if events == [] then Some(History(Queue(0, false, false, 0, false), false, 0, 0, 0))
    else
      var h := Run(events[..|events| - 1], period, runtime, d);
      if h == None then None else Next(h.value, events[|events| - 1], period, runtime, d)
  }

  ghost predicate Inv(h: History, runtime: int, d: int) {
    && 0 <= h.q.time && 0 <= h.over <= d && 0 <= h.expired
    && h.q.time <= runtime + h.over
    && (!h.q.throttled ==> h.over == 0)
    && (h.q.throttled ==> runtime <= h.q.time)
    && (h.q.queued <==> !h.q.throttled && h.q.tasks > 0)
    && (h.q.tasks > 0 ==> h.q.timer)
    && h.exec <= h.expired * runtime + h.q.time
  }

  lemma NextKeeps(h: History, ev: Event, period: int, runtime: int, d: int)
    requires Limited(period, runtime) && runtime + d < TWO_TO_THE_64 && Inv(h, runtime, d)
    requires Next(h, ev, period, runtime, d).Some?
    ensures Inv(Next(h, ev, period, runtime, d).value, runtime, d)
  {
    if ev.Expire? {
      Repaid(h.expired, ev.overrun, runtime);
    }
  }

  /* What an expiration takes off is at most the runtime of the periods that expired. */
  lemma Repaid(n: int, overrun: int, runtime: int)
    requires 0 < overrun && 0 < runtime
    ensures 0 <= U64(overrun * runtime) <= overrun * runtime
    ensures (n + overrun) * runtime == n * runtime + overrun * runtime
  {
  }

  lemma Positive(a: int, b: int)
    requires 0 < a && 0 < b
    ensures 0 < a * b
  {
  }

  /* Over any run with n period expirations RT tasks get no more than (n + 1) times the runtime,
     plus the time they may keep the CPU after crossing the limit once. */
  lemma {:induction false} ExecutionBounded(events: seq<Event>, period: int, runtime: int, d: nat)
    requires Limited(period, runtime) && runtime + d < TWO_TO_THE_64
    ensures var h := Run(events, period, runtime, d);
      h.Some? ==> Inv(h.value, runtime, d) && h.value.exec <= (h.value.expired + 1) * runtime + d
  {
    if events != [] {
      var h := Run(events[..|events| - 1], period, runtime, d);
      ExecutionBounded(events[..|events| - 1], period, runtime, d);
      if h.Some? && Next(h.value, events[|events| - 1], period, runtime, d).Some? {
        NextKeeps(h.value, events[|events| - 1], period, runtime, d);
        Repaid(Next(h.value, events[|events| - 1], period, runtime, d).value.expired, 1, runtime);
      }
    }
  }

  // ----- release

  /* k single expirations in a row. */
  function Expirations(q: Queue, runtime: int, k: nat): Queue {
    if k == 0 then q else Expired(Expirations(q, runtime, k - 1), runtime, 1)
  }

  /* What is left of the accumulated time after k periods. */
  lemma Remaining(time: int, runtime: int, k: nat)
    requires 0 < runtime <= time && k <= time / runtime
    ensures 0 <= time - k * runtime && (k < time / runtime <==> time - k * runtime >= runtime)
    ensures k > 0 ==> time - (k - 1) * runtime == time - k * runtime + runtime
    ensures k == 0 ==> time - k * runtime == time && k < time / runtime
  {
    var m := time / runtime;
    assert m * runtime <= time < m * runtime + runtime;
    MulMonotoneInt(k, m, runtime);
    assert (k + 1) * runtime == k * runtime + runtime;
    if k < m { MulMonotoneInt(k + 1, m, runtime); }
  }

  lemma ExpiredOnce(q: Queue, runtime: int)
    requires 0 < runtime < TWO_TO_THE_64 && q.throttled && !q.queued && runtime <= q.time
    ensures Expired(q, runtime, 1) ==
      Queue(q.time - runtime, q.time - runtime >= runtime, q.time - runtime < runtime && q.tasks > 0, q.tasks,
            (q.time != runtime || q.tasks > 0) && (q.time - runtime >= runtime || runtime != RUNTIME_INF))
  {
  }

  /* A throttled queue that nobody runs on is released by exactly the time / runtime-th expiration,
     and the timer keeps going until then. */
  lemma {:induction false} ReleasedExactlyThen(q: Queue, runtime: int, k: nat)
    requires 0 < runtime < TWO_TO_THE_64 && q.throttled && !q.queued && runtime <= q.time
    requires k <= q.time / runtime
    ensures var r := Expirations(q, runtime, k);
      && r.time == q.time - k * runtime && r.tasks == q.tasks
      && (r.throttled <==> k < q.time / runtime)
      && (r.queued <==> k == q.time / runtime && q.tasks > 0)
      && (0 < k < q.time / runtime ==> r.timer)
  {
    hide Expired;
    Remaining(q.time, runtime, k);
    if k > 0 {
      ReleasedExactlyThen(q, runtime, k - 1);
      ExpiredOnce(Expirations(q, runtime, k - 1), runtime);
    }
  }

  lemma OneMoreExpiration(q: Queue, runtime: int, m: int)
    requires 0 < runtime && 0 < m && (m + 1) * runtime < TWO_TO_THE_64
    requires 0 <= q.time && (q.throttled ==> runtime <= q.time) && (q.queued <==> !q.throttled && q.tasks > 0)
    ensures Expired(Expired(q, runtime, m), runtime, 1) == Expired(q, runtime, m + 1)
  {
    hide U64;
    Positive(m, runtime);
    var x := m * runtime;
    assert (m + 1) * runtime == x + runtime;
    WrapExact(x);
    WrapExact(x + runtime);
    WrapExact(runtime);
    assert 1 * runtime == runtime;
  }

  /* Expirations that the timer handles at once count like as many single ones. */
  lemma {:induction false} OverrunCounts(q: Queue, runtime: int, overrun: int)
    requires 0 < runtime && 0 < overrun && overrun * runtime < TWO_TO_THE_64
    requires 0 <= q.time && (q.throttled ==> runtime <= q.time) && (q.queued <==> !q.throttled && q.tasks > 0)
    ensures Expired(q, runtime, overrun) == Expirations(q, runtime, overrun)
    decreases overrun
  {
    hide Expired;
    assert overrun * runtime == (overrun - 1) * runtime + runtime;
    Positive(overrun, runtime);
    if overrun == 1 {
      assert Expirations(q, runtime, 1) == Expired(Expirations(q, runtime, 0), runtime, 1);
    } else {
      OverrunCounts(q, runtime, overrun - 1);
      OneMoreExpiration(q, runtime, overrun - 1);
    }
  }
}
