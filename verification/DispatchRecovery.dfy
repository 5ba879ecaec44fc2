/**
 Bounds the recovery sweep gives every run, jobs late or lost included: how many waves a
 trip can have, how often the sweep dispatches it again, and how old a trip can be and
 still be pending.
 */
module DispatchRecovery {
  import opened Prelude
  import opened TripLifecycle
  import opened DispatchModel
  import opened DispatchConsistency
  import opened DispatchRuns

  // ------------------------------------------------------- one trip of a sweep

  /** Trip `t` looks the same in both states: its row, its attempts, its counter, the time. */
  ghost predicate SameTrip(a: State, b: State, t: TripId) {
    b.now == a.now && (t in a.trips <==> t in b.trips) &&
    (t in a.trips ==> b.trips[t] == a.trips[t]) &&
    NotifiedDrivers(b, t) == NotifiedDrivers(a, t) && RoundsOf(b, t) == RoundsOf(a, t)
  }

  lemma OthersKeptIsSameTrip(a: State, b: State, u: TripId, t: TripId)
    requires OthersKept(a, b, u) && u != t
    ensures SameTrip(a, b, t)
  {
    forall d ensures d in NotifiedDrivers(b, t) <==> d in NotifiedDrivers(a, t) {
      assert d in NotifiedDrivers(a, t) <==> Notified(a, Pair(t, d));
      assert d in NotifiedDrivers(b, t) <==> Notified(b, Pair(t, d));
    }
  }

  /**
   What a sweep does to trip `t` is what `SweepOne` does to it in some safe state `m` that
   agrees with the start on `t`; a trip outside the list is untouched.
   */
  lemma {:induction false} SweepFocus(setup: Setup, s: State, quiet: bool, order: seq<TripId>,
                                      near: map<TripId, seq<DriverId>>, t: TripId) returns (m: State)
    requires Consistent(s) && Distinct(order)
    requires forall u :: u in order ==> IsPending(s, u)
    ensures t !in order ==> SameTrip(s, SweepAll(setup, s, quiet, order, near), t)
    ensures t in order ==>
      Consistent(m) && SameTrip(s, m, t) &&
      SameTrip(SweepOne(setup, m, quiet, t, near), SweepAll(setup, s, quiet, order, near), t)
  {
    m := s;
    if order != [] {
      var n := |order| - 1;
      DistinctFront(order);
      var before := SweepAll(setup, s, quiet, order[..n], near);
      SweepAllWithin(setup, s, quiet, order[..n], near);
      m := SweepFocus(setup, s, quiet, order[..n], near, t);
      if t == order[n] {
        m := before;
      } else {
        assert IsPending(s, order[n]) && before.trips[order[n]] == s.trips[order[n]];
        SweepOneWithin(setup, before, quiet, order[n], near);
        OthersKeptIsSameTrip(before, SweepOne(setup, before, quiet, order[n], near), order[n], t);
      }
    }
  }

  // -------------------------------------------------------------------- rounds

  function MaxAttempts(setup: Setup, s: State, t: TripId): nat
    requires t in s.trips
  {
    setup.config(s.trips[t].service).maxAttempts
  }

  lemma AttemptDispatchRounds(setup: Setup, s: State, t: TripId, service: Service, near: seq<DriverId>)
    requires Consistent(s) && IsPending(s, t)
    ensures var s' := AttemptDispatch(setup, s, t, service, near);
      RoundsOf(s', t) <= RoundsOf(s, t) + 1 &&
      (setup.config(service).maxAttempts == 0 ==> RoundsOf(s', t) == 0)
  {
    var s1 := BumpRounds(s, t);
    BumpRoundsWithin(s, t);
    var c := setup.config(service);
    var candidates := Candidates(s1, near);
    if candidates != [] {
      WaveWithin(c, s1, t, Take(candidates, c.maxAttempts));
    }
  }

  lemma CheckAndRetryRounds(setup: Setup, s: State, t: TripId, near: seq<DriverId>)
    requires Consistent(s) && t in s.trips
    ensures var s' := CheckAndRetry(setup, s, t, near);
      RoundsOf(s', t) <= RoundsOf(s, t) || RoundsOf(s', t) <= MaxAttempts(setup, s, t)
  {
    if IsPending(s, t) && NotifiedDrivers(s, t) == {} && RoundsOf(s, t) < MaxAttempts(setup, s, t) {
      AttemptDispatchRounds(setup, s, t, s.trips[t].service, near);
    }
  }

  /** The sweep calls attemptDispatch for trip `t` in this step. */
  ghost predicate Redispatches(s: State, step: Step, t: TripId) {
    step.StepSweepPending? && t in step.order && t in s.trips && t in step.nearOf &&
    (step.quiet ==> s.now - s.trips[t].createdAt >= REDISPATCH_MIN_AGE_MS) &&
    s.now - s.trips[t].createdAt <= REDISPATCH_MAX_AGE_MS
  }

  /** How often sweeps have dispatched `t` again; `quietOnly` leaves the boot-time sweep out. */
  ghost function Redispatched(setup: Setup, run: seq<Step>, t: TripId, quietOnly: bool): nat {
    if run == [] then 0
    else
      var step := run[|run| - 1];
      var before := Redispatched(setup, run[..|run| - 1], t, quietOnly);
      if Redispatches(After(setup, run[..|run| - 1]), step, t) && (quietOnly ==> step.quiet)
      then before + 1 else before
  }

  lemma SweepRounds(setup: Setup, s: State, step: Step, t: TripId)
    requires Consistent(s) && Possible(s, step) && step.StepSweepPending?
    requires t in s.trips
    ensures RoundsOf(Next(setup, s, step), t) <= RoundsOf(s, t) + if Redispatches(s, step, t) then 1 else 0
  {
    var m := SweepFocus(setup, s, step.quiet, step.order, step.nearOf, t);
    if Redispatches(s, step, t) {
      var ds := NotifiedDrivers(m, t);
      DropStaysConsistent(m, t, ds, TimedOut);
      AttemptDispatchRounds(setup, ReleaseLocksForTrip(m, t), t, m.trips[t].service, step.nearOf[t]);
    }
  }

  lemma DropThenRetryRounds(setup: Setup, s: State, u: TripId, d: DriverId, to: AttemptStatus,
                            near: seq<DriverId>, t: TripId)
    requires Consistent(s) && to in {DriverDeclined, TimedOut} && t in s.trips
    ensures var s' := CheckAndRetry(setup, Drop(s, u, {d}, to), u, near);
      RoundsOf(s', t) <= RoundsOf(s, t) || RoundsOf(s', t) <= MaxAttempts(setup, s, t)
  {
    var s1 := Drop(s, u, {d}, to);
    DropStaysConsistent(s, u, {d}, to);
    if u == t {
      CheckAndRetryRounds(setup, s1, t, near);
    } else {
      CheckAndRetryWithin(setup, s1, u, near);
      OthersKeptIsSameTrip(s1, CheckAndRetry(setup, s1, u, near), u, t);
    }
  }

  lemma TimeoutRounds(setup: Setup, s: State, j: JobId, near: seq<DriverId>, t: TripId)
    requires Consistent(s) && j in s.jobs && t in s.trips
    ensures var s' := ProcessJob(setup, s, j, near);
      RoundsOf(s', t) <= RoundsOf(s, t) || RoundsOf(s', t) <= MaxAttempts(setup, s, t)
  {
    var u := s.jobs[j].pair.trip;
    var m := TimedOutBy(s, j);
    TimedOutIsWithin(s, j);
    JobIsTimeoutThenRetry(setup, s, j, near);
    if u == t {
      CheckAndRetryRounds(setup, m, t, near);
    } else {
      CheckAndRetryWithin(setup, m, u, near);
      OthersKeptIsSameTrip(m, CheckAndRetry(setup, m, u, near), u, t);
    }
  }

  lemma CreateRounds(setup: Setup, s: State, step: Step, t: TripId)
    requires Consistent(s) && step.StepCreate? && step.trip !in s.trips
    requires t in s.trips || t == step.trip
    ensures var s' := Next(setup, s, step);
      t in s'.trips && (RoundsOf(s', t) <= RoundsOf(s, t) || RoundsOf(s', t) <= MaxAttempts(setup, s', t))
  {
    var row := Trip(step.client, step.service, Pending, None, s.now, s.now);
    var s1 := s.(trips := s.trips[step.trip := row]);
    TripWriteStaysConsistent(s, s1.trips);
    AttemptDispatchWithin(setup, s1, step.trip, step.service, step.near);
    var s' := AttemptDispatch(setup, s1, step.trip, step.service, step.near);
    assert s' == Next(setup, s, step);
    if t == step.trip {
      assert t !in s.rounds;
      AttemptDispatchRounds(setup, s1, t, step.service, step.near);
    } else {
      OthersKeptIsSameTrip(s1, s', step.trip, t);
    }
  }

  lemma StepRounds(setup: Setup, s: State, step: Step, t: TripId)
    requires Consistent(s) && Possible(s, step) && t in s.trips
    ensures var s' := Next(setup, s, step);
      RoundsOf(s', t) <= RoundsOf(s, t) + (if Redispatches(s, step, t) then 1 else 0)
      || RoundsOf(s', t) <= MaxAttempts(setup, s, t)
  {
    match step
    case StepCreate(_, _, _, _) =>
      CreateRounds(setup, s, step, t);
      StepIsSound(setup, s, step);
    case StepUpdateStatus(u, actor, to) => UpdateStatusRounds(s, u, actor, to, t);
    case StepDecline(u, d, near) => DropThenRetryRounds(setup, s, u, d, DriverDeclined, near, t);
    case StepWsDecline(u, d, near) => DropThenRetryRounds(setup, s, u, d, DriverDeclined, near, t);
    case StepJob(j, near) =>
      TimeoutRounds(setup, s, j, near, t);
    case StepSweepPending(_, _, _) => SweepRounds(setup, s, step, t);
    case StepSweepStale(stale) => SweepStaleRounds(s, stale);
    case _ =>
  }

  lemma UpdateStatusRounds(s: State, u: TripId, actor: Actor, to: TripStatus, t: TripId)
    ensures RoundsOf(UpdateStatus(s, u, actor, to).state, t) <= RoundsOf(s, t)
  {}

  lemma {:induction false} SweepStaleRounds(s: State, stale: seq<TripId>)
    ensures SweepStaleAll(s, stale).rounds == s.rounds
  {
    if stale != [] {
      SweepStaleRounds(s, stale[..|stale| - 1]);
    }
  }

  /** Waves counted for a trip never exceed the configured maximum plus its re-dispatches. */
  lemma {:induction false} RoundsAreBounded(setup: Setup, run: seq<Step>, t: TripId)
    requires IsRun(setup, run) && t in After(setup, run).trips
    ensures RoundsOf(After(setup, run), t)
         <= MaxAttempts(setup, After(setup, run), t) + Redispatched(setup, run, t, false)
  {
    var front := run[..|run| - 1];
    var step := run[|run| - 1];
    var s := After(setup, front);
    RunIsConsistent(setup, front);
    StepIsSound(setup, s, step);
    if t in s.trips {
      RoundsAreBounded(setup, front, t);
      StepRounds(setup, s, step, t);
    } else {
      CreateRounds(setup, s, step, t);
      assert t !in s.rounds;
    }
  }

  // ---------------------------------------------------------- how often, how long

  /** The periodic sweep never runs twice within its interval. */
  ghost predicate SweepsAreApart(setup: Setup, run: seq<Step>) {
    forall i :: 0 <= i < |run| && run[i].StepSweepPending? && run[i].quiet ==>
      After(setup, run[..i]).now >= After(setup, run[..i]).lastSweep + SWEEP_INTERVAL_MS
  }

  ghost predicate RedispatchWindow(setup: Setup, run: seq<Step>, t: TripId) {
    var n := Redispatched(setup, run, t, true);
    var s := After(setup, run);
    n <= 2 &&
    (n >= 1 ==> t in s.trips && s.lastSweep - s.trips[t].createdAt >= REDISPATCH_MIN_AGE_MS) &&
    (n == 2 ==> t in s.trips && s.lastSweep - s.trips[t].createdAt >= REDISPATCH_MAX_AGE_MS)
  }

  /** Periodic sweeps at least an interval apart dispatch one trip again at most twice. */
  lemma {:induction false} AtMostTwoRedispatches(setup: Setup, run: seq<Step>, t: TripId)
    requires IsRun(setup, run) && SweepsAreApart(setup, run)
    ensures Redispatched(setup, run, t, true) <= 2
    ensures RedispatchWindow(setup, run, t)
  {
    if run != [] {
      var front := run[..|run| - 1];
      var step := run[|run| - 1];
      assert forall i :: 0 <= i < |front| ==> front[i] == run[i] && front[..i] == run[..i];
      AtMostTwoRedispatches(setup, front, t);
      RunIsConsistent(setup, front);
      StepIsSound(setup, After(setup, front), step);
      if step.StepSweepPending? && step.quiet {
        assert After(setup, run[..|run| - 1]).now >= After(setup, front).lastSweep + SWEEP_INTERVAL_MS;
      }
    }
  }

  // --------------------------------------------------------------- how long

  /** When the last sweep ended, periodic or at boot; 0 before the first one. */
  function SweptAt(setup: Setup, run: seq<Step>): int {
    if run == [] then 0
    else if run[|run| - 1].StepSweepPending? then After(setup, run[..|run| - 1]).now
    else SweptAt(setup, run[..|run| - 1])
  }

  /** At time `swept` nothing was pending that was older than the re-dispatch age. */
  ghost predicate WasSwept(s: State, swept: int) {
    swept <= s.now &&
    forall t :: t in s.trips ==>
      s.trips[t].createdAt <= s.now &&
      (s.trips[t].status == Pending ==> swept - s.trips[t].createdAt <= REDISPATCH_MAX_AGE_MS)
  }

  lemma SweepCullsOldTrips(setup: Setup, s: State, step: Step, t: TripId)
    requires Consistent(s) && Possible(s, step) && step.StepSweepPending?
    requires IsPending(Next(setup, s, step), t)
    ensures t in s.trips && s.now - s.trips[t].createdAt <= REDISPATCH_MAX_AGE_MS
  {
    StepIsSound(setup, s, step);
    if t in s.trips {
      assert RowFollows(s.trips[t], Next(setup, s, step).trips[t]);
      assert t in step.order;
      var m := SweepFocus(setup, s, step.quiet, step.order, step.nearOf, t);
      FailTripWithin(m, t);
    }
  }

  lemma StepKeepsSwept(setup: Setup, s: State, step: Step, swept: int)
    requires Consistent(s) && Possible(s, step) && WasSwept(s, swept)
    ensures WasSwept(Next(setup, s, step), if step.StepSweepPending? then s.now else swept)
  {
    var s' := Next(setup, s, step);
    StepIsSound(setup, s, step);
    forall t | t in s'.trips
      ensures s'.trips[t].createdAt <= s'.now
      ensures s'.trips[t].status == Pending ==>
        (if step.StepSweepPending? then s.now else swept) - s'.trips[t].createdAt <= REDISPATCH_MAX_AGE_MS
    {
      if t in s.trips {
        assert RowFollows(s.trips[t], s'.trips[t]);
        if IsPending(s', t) && step.StepSweepPending? {
          SweepCullsOldTrips(setup, s, step, t);
        }
      }
    }
  }

  lemma {:induction false} RunIsSwept(setup: Setup, run: seq<Step>)
    requires IsRun(setup, run)
    ensures WasSwept(After(setup, run), SweptAt(setup, run))
  {
    if run != [] {
      var front := run[..|run| - 1];
      RunIsSwept(setup, front);
      RunIsConsistent(setup, front);
      StepKeepsSwept(setup, After(setup, front), run[|run| - 1], SweptAt(setup, front));
    }
  }

  /**
   A trip that is still pending is older than the re-dispatch age by at most the time since
   the last sweep, periodic or at boot. So whenever a sweep has ended within the interval,
   no trip is pending past 150 seconds: in every run, with jobs late or lost, after
   downtime, and after a re-arm that scheduled no job.
   */
  lemma NoTripStaysPending(setup: Setup, run: seq<Step>, t: TripId)
    requires IsRun(setup, run) && IsPending(After(setup, run), t)
    ensures var s := After(setup, run);
      var age := s.now - s.trips[t].createdAt;
      age <= REDISPATCH_MAX_AGE_MS + (s.now - SweptAt(setup, run)) &&
      (s.now <= SweptAt(setup, run) + SWEEP_INTERVAL_MS ==> age <= 150_000)
  {
    RunIsSwept(setup, run);
  }
}
