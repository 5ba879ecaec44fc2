/**
 What punctual runs keep: a live job belongs to a waiting attempt, and job keys and jobs
 name each other, as long as keys outlive jobs. The row and lock part comes along.
 */
module DispatchSafety {
  import opened Prelude
  import opened TripLifecycle
  import opened DispatchModel
  import opened DispatchConsistency

  ghost predicate JobsBacked(setup: Setup, s: State) {
    forall j :: j in s.jobs ==>
      j < s.nextJob && s.now <= s.jobs[j].dueAt + setup.slack &&
      Notified(s, s.jobs[j].pair) &&
      s.jobs[j].pair in s.jobKeys && s.jobKeys[s.jobs[j].pair].job == j
  }

  ghost predicate KeysBacked(setup: Setup, s: State) {
    forall p :: p in s.jobKeys ==>
      s.jobKeys[p].job in s.jobs && s.jobs[s.jobKeys[p].job].pair == p &&
      s.jobs[s.jobKeys[p].job].dueAt + setup.slack < s.jobKeys[p].expiresAt
  }

  ghost predicate Safe(setup: Setup, s: State) {
    Consistent(s) && JobsBacked(setup, s) && KeysBacked(setup, s)
  }

  // ------------------------------------------------ the writes the handlers share

  lemma DropKeepsJobs(setup: Setup, s: State, t: TripId, ds: set<DriverId>, to: AttemptStatus)
    requires JobsBacked(setup, s) && to != DriverNotified
    ensures JobsBacked(setup, Drop(s, t, ds, to))
  {}

  lemma DropKeepsKeys(setup: Setup, s: State, t: TripId, ds: set<DriverId>, to: AttemptStatus)
    requires KeysBacked(setup, s)
    ensures KeysBacked(setup, Drop(s, t, ds, to))
  {}

  lemma DropKeepsSafe(setup: Setup, s: State, t: TripId, ds: set<DriverId>, to: AttemptStatus)
    requires Safe(setup, s) && to != DriverNotified
    requires to == DriverAccepted ==>
      t in s.trips && s.trips[t].status != Pending && forall d :: d in ds ==> s.trips[t].driver == Some(d)
    ensures Safe(setup, Drop(s, t, ds, to))
  {
    DropStaysConsistent(s, t, ds, to);
    DropKeepsJobs(setup, s, t, ds, to);
    DropKeepsKeys(setup, s, t, ds, to);
  }

  lemma JobKeyOutlivesJob(c: DispatchConfig, slack: nat)
    requires slack < JOB_KEY_MARGIN_SECONDS * 1000
    ensures c.timeoutMs + slack < JobKeyTtlMs(c)
  {}

  lemma CancelTimeoutJobKeepsJobs(setup: Setup, s: State, p: Pair)
    requires JobsBacked(setup, s) && KeysBacked(setup, s)
    ensures JobsBacked(setup, CancelTimeoutJob(s, p))
  {}

  lemma CancelTimeoutJobKeepsKeys(setup: Setup, s: State, p: Pair)
    requires KeysBacked(setup, s)
    ensures KeysBacked(setup, CancelTimeoutJob(s, p))
  {}

  lemma CancelTimeoutJobKeepsSafe(setup: Setup, s: State, p: Pair)
    requires Safe(setup, s)
    ensures Safe(setup, CancelTimeoutJob(s, p))
    ensures p !in CancelTimeoutJob(s, p).jobKeys
  {
    CancelTimeoutJobKeepsJobs(setup, s, p);
    CancelTimeoutJobKeepsKeys(setup, s, p);
  }

  lemma MarkNotifiedKeepsSafe(setup: Setup, s: State, p: Pair, ttl: nat)
    requires Safe(setup, s) && IsPending(s, p.trip)
    ensures Safe(setup, MarkNotified(s, p, ttl))
  {
    MarkNotifiedStaysConsistent(s, p, ttl);
  }

  lemma ArmTimeoutKeepsSafe(setup: Setup, s: State, p: Pair, timeout: nat, keyTtl: nat)
    requires Safe(setup, s) && Notified(s, p) && p !in s.jobKeys && timeout + setup.slack < keyTtl
    ensures Safe(setup, ArmTimeout(s, p, timeout, keyTtl))
  {}

  lemma NotifyKeepsSafe(setup: Setup, c: DispatchConfig, s: State, t: TripId, d: DriverId)
    requires Safe(setup, s) && IsPending(s, t)
    requires KeysOutliveJobs(setup)
    ensures Safe(setup, Notify(c, s, t, d))
  {
    var p := Pair(t, d);
    var s1 := MarkNotified(s, p, LockTtlMs(c));
    MarkNotifiedKeepsSafe(setup, s, p, LockTtlMs(c));
    CancelTimeoutJobKeepsSafe(setup, s1, p);
    JobKeyOutlivesJob(c, setup.slack);
    ArmTimeoutKeepsSafe(setup, CancelTimeoutJob(s1, p), p, c.timeoutMs, JobKeyTtlMs(c));
  }

  /** Writing trip rows alone leaves the other stores backed. */
  lemma TripWriteKeepsSafe(setup: Setup, s: State, trips: map<TripId, Trip>)
    requires Safe(setup, s) && s.trips.Keys <= trips.Keys && DriversAgree(s.(trips := trips))
    ensures Safe(setup, s.(trips := trips))
  {
    var s' := s.(trips := trips);
    TripWriteStaysConsistent(s, trips);
    assert KeysBacked(setup, s');
    assert JobsBacked(setup, s');
  }

  lemma SetStatusKeepsSafe(setup: Setup, s: State, t: TripId, to: TripStatus)
    requires Safe(setup, s) && t in s.trips && to != Pending
    requires IsActive(to) || to == Completed ==> s.trips[t].driver.Some?
    ensures Safe(setup, SetStatus(s, t, to))
  {
    TripWriteKeepsSafe(setup, s, SetStatus(s, t, to).trips);
  }

  lemma ForgetRoundsKeepsSafe(setup: Setup, s: State, t: TripId)
    requires Safe(setup, s)
    ensures Safe(setup, s.(rounds := s.rounds - {t}))
  {}

  lemma FailTripFacts(setup: Setup, s: State, t: TripId)
    requires Safe(setup, s)
    ensures Safe(setup, FailTrip(s, t)) && Within(s, FailTrip(s, t), t) && !IsPending(FailTrip(s, t), t)
  {
    FailTripWithin(s, t);
    ForgetRoundsKeepsSafe(setup, s, t);
    var s1 := s.(rounds := s.rounds - {t});
    if IsPending(s1, t) {
      SetStatusKeepsSafe(setup, s1, t, CancelledAuto);
    }
  }

  lemma BumpRoundsFacts(setup: Setup, s: State, t: TripId)
    requires Safe(setup, s) && t in s.trips
    ensures Safe(setup, BumpRounds(s, t)) && Within(s, BumpRounds(s, t), t)
  {
    BumpRoundsWithin(s, t);
  }

  lemma {:induction false} WaveFacts(setup: Setup, c: DispatchConfig, s: State, t: TripId, ds: seq<DriverId>)
    requires Safe(setup, s) && IsPending(s, t) && KeysOutliveJobs(setup)
    ensures var s' := Wave(c, s, t, ds).state;
      Safe(setup, s') && Within(s, s', t) && s'.trips == s.trips && s'.rounds == s.rounds
  {
    WaveWithin(c, s, t, ds);
    if ds != [] {
      WaveFacts(setup, c, s, t, ds[..|ds| - 1]);
      var m := Wave(c, s, t, ds[..|ds| - 1]).state;
      var d := ds[|ds| - 1];
      if d !in m.locks {
        NotifyKeepsSafe(setup, c, m, t, d);
      }
    }
  }

  lemma AttemptDispatchFacts(setup: Setup, s: State, t: TripId, service: Service, near: seq<DriverId>)
    requires KeysOutliveJobs(setup) && Safe(setup, s) && IsPending(s, t)
    ensures var s' := AttemptDispatch(setup, s, t, service, near);
      Safe(setup, s') && Within(s, s', t)
  {
    AttemptDispatchWithin(setup, s, t, service, near);
    var s1 := BumpRounds(s, t);
    BumpRoundsFacts(setup, s, t);
    var c := setup.config(service);
    var candidates := Candidates(s1, near);
    if candidates == [] {
      FailTripFacts(setup, s1, t);
    } else {
      var r := Wave(c, s1, t, Take(candidates, c.maxAttempts));
      WaveFacts(setup, c, s1, t, Take(candidates, c.maxAttempts));
      FailTripFacts(setup, r.state, t);
    }
  }

  lemma CheckAndRetryFacts(setup: Setup, s: State, t: TripId, near: seq<DriverId>)
    requires KeysOutliveJobs(setup) && Safe(setup, s)
    ensures var s' := CheckAndRetry(setup, s, t, near);
      Safe(setup, s') && Within(s, s', t)
  {
    CheckAndRetryWithin(setup, s, t, near);
    if IsPending(s, t) && NotifiedDrivers(s, t) == {} {
      var service := s.trips[t].service;
      FailTripFacts(setup, s, t);
      AttemptDispatchFacts(setup, s, t, service, near);
    }
  }

  // ------------------------------------------------------------ handler by handler

  lemma FiredJobIsKeyed(setup: Setup, s: State, j: JobId)
    requires Safe(setup, s) && j in s.jobs
    ensures var p := s.jobs[j].pair;
      Notified(s, p) && KeyedJobs(s, p.trip, {p.driver}) == {j}
  {
    var p := s.jobs[j].pair;
    assert p in s.jobKeys && s.jobKeys[p].job == j;
    forall i | i in KeyedJobs(s, p.trip, {p.driver}) ensures i == j {
      var q :| q in s.jobKeys && q.trip == p.trip && q.driver in {p.driver} && s.jobKeys[q].job == i;
      assert q == p;
    }
  }

  lemma TimedOutStores(s: State, j: JobId)
    requires j in s.jobs && Notified(s, s.jobs[j].pair)
    ensures var p := s.jobs[j].pair; var dropped := Drop(s, p.trip, {p.driver}, TimedOut);
      TimedOutBy(s, j).attempts == dropped.attempts && TimedOutBy(s, j).jobKeys == dropped.jobKeys
  {}

  lemma TimedOutIsDropped(setup: Setup, s: State, j: JobId)
    requires Safe(setup, s) && j in s.jobs
    ensures TimedOutBy(s, j) == Drop(s, s.jobs[j].pair.trip, {s.jobs[j].pair.driver}, TimedOut)
  {
    FiredJobIsKeyed(setup, s, j);
    TimedOutStores(s, j);
  }

  /** The timeout handler removes exactly what `Drop` removes: the fired job is the keyed one. */
  lemma TimeoutIsDrop(setup: Setup, s: State, j: JobId, near: seq<DriverId>)
    requires Safe(setup, s) && j in s.jobs
    ensures var p := s.jobs[j].pair;
      ProcessJob(setup, s, j, near) ==
      CheckAndRetry(setup, Drop(s, p.trip, {p.driver}, TimedOut), p.trip, near)
  {
    TimedOutIsDropped(setup, s, j);
    JobIsTimeoutThenRetry(setup, s, j, near);
  }

  lemma DropThenRetryFacts(setup: Setup, s: State, t: TripId, d: DriverId, to: AttemptStatus, near: seq<DriverId>)
    requires KeysOutliveJobs(setup) && Safe(setup, s) && to in {DriverDeclined, TimedOut}
    ensures var s' := CheckAndRetry(setup, Drop(s, t, {d}, to), t, near);
      Safe(setup, s') && Within(s, s', t)
  {
    DropThenRetryWithin(setup, s, t, d, to, near);
    DropKeepsSafe(setup, s, t, {d}, to);
    CheckAndRetryFacts(setup, Drop(s, t, {d}, to), t, near);
  }

  lemma AssignDriverKeepsSafe(setup: Setup, s: State, t: TripId, d: DriverId)
    requires Safe(setup, s) && IsPending(s, t)
    ensures Safe(setup, AssignDriver(s, t, d))
  {
    TripWriteKeepsSafe(setup, s, AssignDriver(s, t, d).trips);
  }

  lemma AcceptKeepsSafe(setup: Setup, s: State, t: TripId, d: DriverId)
    requires Safe(setup, s) && IsPending(s, t)
    ensures Safe(setup, AssignDriver(HandleDriverAccept(s, t, d), t, d))
  {
    AssignDriverKeepsSafe(setup, s, t, d);
    if HoldsLockFor(s, t, d) {
      AcceptIsAssignThenDrop(s, t, d);
      var s0 := AssignDriver(s, t, d);
      DropKeepsSafe(setup, s0, t, {d}, DriverAccepted);
      var s1 := Drop(s0, t, {d}, DriverAccepted);
      DropKeepsSafe(setup, s1, t, NotifiedDrivers(s1, t) - {d}, DriverDeclined);
      ForgetRoundsKeepsSafe(setup, Drop(s1, t, NotifiedDrivers(s1, t) - {d}, DriverDeclined), t);
    }
  }

  lemma UpdateStatusKeepsSafe(setup: Setup, s: State, t: TripId, actor: Actor, to: TripStatus)
    requires Safe(setup, s)
    ensures Safe(setup, UpdateStatus(s, t, actor, to).state)
  {
    if UpdateStatus(s, t, actor, to).outcome == Done {
      match to
      case Accepted => AcceptKeepsSafe(setup, s, t, actor.profile.value);
      case CancelledByClient => ReleaseThenSetKeepsSafe(setup, s, t, to);
      case CancelledAuto => ReleaseThenSetKeepsSafe(setup, s, t, to);
      case _ => SetStatusKeepsSafe(setup, s, t, to);
    }
  }

  lemma ReleaseThenSetKeepsSafe(setup: Setup, s: State, t: TripId, to: TripStatus)
    requires Safe(setup, s) && t in s.trips && to in {CancelledByClient, CancelledAuto}
    ensures Safe(setup, SetStatus(ReleaseLocksForTrip(s, t), t, to))
  {
    DropKeepsSafe(setup, s, t, NotifiedDrivers(s, t), TimedOut);
    SetStatusKeepsSafe(setup, ReleaseLocksForTrip(s, t), t, to);
  }

  lemma CreateKeepsSafe(setup: Setup, s: State, step: Step)
    requires KeysOutliveJobs(setup) && Safe(setup, s) && step.StepCreate? && step.trip !in s.trips
    ensures Safe(setup, Next(setup, s, step))
  {
    var t := step.trip;
    var s1 := s.(trips := s.trips[t := Trip(step.client, step.service, Pending, None, s.now, s.now)]);
    TripWriteKeepsSafe(setup, s, s1.trips);
    AttemptDispatchFacts(setup, s1, t, step.service, step.near);
  }

  lemma RearmKeepsSafe(setup: Setup, s: State, p: Pair)
    requires Safe(setup, s)
    ensures Safe(setup, Rearm(s, p))
  {
    if Rearmable(s, p) && !AcceptedByAnother(s, p) {
      RearmStaysConsistent(s, p);
      RearmKeepsJobs(setup, s, Rearm(s, p), p);
    }
  }

  lemma RearmKeepsJobs(setup: Setup, s: State, s': State, p: Pair)
    requires Safe(setup, s) && p in s.attempts && s' == s.(attempts := s'.attempts, locks := s'.locks)
    requires s'.attempts == s.attempts[p := s.attempts[p].(status := DriverNotified)]
    ensures JobsBacked(setup, s') && KeysBacked(setup, s')
  {}

  lemma ClockKeepsSafe(setup: Setup, s: State, time: int)
    requires Safe(setup, s) && s.now <= time && Punctual(setup, s, StepClock(time))
    ensures Safe(setup, AdvanceClock(s, time))
  {
    var s' := AdvanceClock(s, time);
    ClockSound(s, time);
    assert s'.jobKeys == s.jobKeys;
    assert JobsBacked(setup, s');
  }

  // ------------------------------------------------------------------ the sweeps

  lemma SweepOneFacts(setup: Setup, s: State, quiet: bool, t: TripId, near: map<TripId, seq<DriverId>>)
    requires KeysOutliveJobs(setup) && Safe(setup, s) && IsPending(s, t)
    ensures var s' := SweepOne(setup, s, quiet, t, near); Safe(setup, s') && Within(s, s', t)
  {
    SweepOneWithin(setup, s, quiet, t, near);
    var age := s.now - s.trips[t].createdAt;
    if !(quiet && age < REDISPATCH_MIN_AGE_MS) {
      if age > REDISPATCH_MAX_AGE_MS {
        FailTripFacts(setup, s, t);
      } else {
        RedispatchKeepsSafe(setup, s, t, near);
      }
    }
  }

  lemma RedispatchKeepsSafe(setup: Setup, s: State, t: TripId, near: map<TripId, seq<DriverId>>)
    requires KeysOutliveJobs(setup) && Safe(setup, s) && IsPending(s, t)
    ensures Safe(setup, Redispatch(setup, s, t, near))
  {
    var s1 := ReleaseLocksForTrip(s, t);
    DropKeepsSafe(setup, s, t, NotifiedDrivers(s, t), TimedOut);
    if t !in near {
      FailTripFacts(setup, s1, t);
    } else {
      AttemptDispatchFacts(setup, s1, t, s.trips[t].service, near[t]);
    }
  }

  lemma {:induction false} SweepAllFacts(setup: Setup, s: State, quiet: bool, order: seq<TripId>,
                                         near: map<TripId, seq<DriverId>>)
    requires KeysOutliveJobs(setup) && Safe(setup, s)
    requires Distinct(order)
    requires forall t :: t in order ==> IsPending(s, t)
    ensures var s' := SweepAll(setup, s, quiet, order, near);
      Safe(setup, s') && Later(s, s') && SweptOnly(s, s', order) && PendingOrFailed(s', order)
  {
    SweepAllWithin(setup, s, quiet, order, near);
    if order != [] {
      var n := |order| - 1;
      var front := order[..n];
      var t := order[n];
      DistinctFront(order);
      SweepAllFacts(setup, s, quiet, front, near);
      var m := SweepAll(setup, s, quiet, front, near);
      assert IsPending(s, t);
      assert m.trips[t] == s.trips[t];
      SweepOneFacts(setup, m, quiet, t, near);
    }
  }

  lemma SweepStaleOneKeepsSafe(setup: Setup, s: State, t: TripId)
    requires Safe(setup, s) && t in s.trips && s.trips[t].status in {Accepted, DriverArriving}
    ensures Safe(setup, SweepStaleOne(s, t))
  {
    var m := SetStatus(s, t, CancelledAuto);
    SetStatusKeepsSafe(setup, s, t, CancelledAuto);
    DropKeepsSafe(setup, m, t, NotifiedDrivers(m, t), TimedOut);
  }

  lemma {:induction false} SweepStaleFacts(setup: Setup, s: State, stale: seq<TripId>)
    requires Safe(setup, s)
    requires Distinct(stale)
    requires forall t :: t in stale ==> IsStale(s, t)
    ensures var s' := SweepStaleAll(s, stale);
      Safe(setup, s') && Later(s, s') && SweptOnly(s, s', stale)
  {
    SweepStaleWithin(s, stale);
    if stale != [] {
      var n := |stale| - 1;
      var t := stale[n];
      DistinctFront(stale);
      SweepStaleFacts(setup, s, stale[..n]);
      var m := SweepStaleAll(s, stale[..n]);
      assert IsStale(s, t);
      assert m.trips[t] == s.trips[t];
      SweepStaleOneKeepsSafe(setup, m, t);
    }
  }

  lemma SweepPendingKeepsSafe(setup: Setup, s: State, step: Step)
    requires KeysOutliveJobs(setup) && Safe(setup, s) && step.StepSweepPending? && Possible(s, step)
    ensures Safe(setup, Next(setup, s, step))
  {
    SweepAllFacts(setup, s, step.quiet, step.order, step.nearOf);
    StampKeepsSafe(setup, SweepAll(setup, s, step.quiet, step.order, step.nearOf), s.now);
  }

  lemma StampKeepsSafe(setup: Setup, s: State, time: int)
    requires Safe(setup, s)
    ensures Safe(setup, s.(lastSweep := time))
  {}

  // --------------------------------------------------------------- every step

  lemma StepIsSafe(setup: Setup, s: State, step: Step)
    requires KeysOutliveJobs(setup) && Safe(setup, s) && Possible(s, step) && Punctual(setup, s, step)
    ensures Safe(setup, Next(setup, s, step))
  {
    match step
    case StepCreate(_, _, _, _) => CreateKeepsSafe(setup, s, step);
    case StepUpdateStatus(t, actor, to) => UpdateStatusKeepsSafe(setup, s, t, actor, to);
    case StepDecline(t, d, near) => DropThenRetryFacts(setup, s, t, d, DriverDeclined, near);
    case StepWsDecline(t, d, near) => DropThenRetryFacts(setup, s, t, d, DriverDeclined, near);
    case StepJob(j, near) =>
      TimeoutIsDrop(setup, s, j, near);
      DropThenRetryFacts(setup, s, s.jobs[j].pair.trip, s.jobs[j].pair.driver, TimedOut, near);
    case StepComplete(t, actor) =>
      if DriverOwns(s, t, actor) == Done { SetStatusKeepsSafe(setup, s, t, Completed); }
    case StepConfirmPayment(t, actor) =>
      if DriverOwns(s, t, actor) == Done { TouchKeepsSafe(setup, s, t); }
    case StepSweepPending(_, _, _) => SweepPendingKeepsSafe(setup, s, step);
    case StepSweepStale(stale) => SweepStaleFacts(setup, s, stale);
    case StepRearm(p) => RearmKeepsSafe(setup, s, p);
    case StepClock(time) => ClockKeepsSafe(setup, s, time);
  }

  lemma TouchKeepsSafe(setup: Setup, s: State, t: TripId)
    requires Safe(setup, s) && t in s.trips
    ensures Safe(setup, Touch(s, t))
  {
    TripWriteKeepsSafe(setup, s, Touch(s, t).trips);
  }
}
