/**
 What every run keeps, whatever is late or lost: rows and locks. A lock points at an
 attempt that waits, an accepted attempt is the trip's driver; and how a trip evolves from
 one state of a run to any later one. Nothing here depends on the timeout jobs.
 */
module DispatchConsistency {
  import opened Prelude
  import opened TripLifecycle
  import opened DispatchModel

  ghost predicate RowsExist(s: State) {
    (forall p :: p in s.attempts ==> p.trip in s.trips) &&
    (forall t :: t in s.rounds ==> t in s.trips)
  }

  ghost predicate LocksBacked(s: State) {
    forall d :: d in s.locks ==> Notified(s, Pair(s.locks[d].trip, d))
  }

  ghost predicate DriversAgree(s: State) {
    (forall t :: t in s.trips ==>
      (s.trips[t].status == Pending ==> s.trips[t].driver == None) &&
      (IsActive(s.trips[t].status) || s.trips[t].status == Completed ==> s.trips[t].driver.Some?)) &&
    (forall p :: p in s.attempts && s.attempts[p].status == DriverAccepted ==>
      p.trip in s.trips && s.trips[p.trip].status != Pending && s.trips[p.trip].driver == Some(p.driver))
  }

  ghost predicate Consistent(s: State) {
    RowsExist(s) && LocksBacked(s) && DriversAgree(s)
  }

  // ------------------------------------------------ the writes the handlers share

  lemma DropStaysConsistent(s: State, t: TripId, ds: set<DriverId>, to: AttemptStatus)
    requires Consistent(s) && to != DriverNotified
    requires to == DriverAccepted ==>
      t in s.trips && s.trips[t].status != Pending && forall d :: d in ds ==> s.trips[t].driver == Some(d)
    ensures Consistent(Drop(s, t, ds, to))
  {}

  lemma MarkNotifiedStaysConsistent(s: State, p: Pair, ttl: nat)
    requires Consistent(s) && IsPending(s, p.trip)
    ensures Consistent(MarkNotified(s, p, ttl))
  {}

  lemma NotifyStaysConsistent(c: DispatchConfig, s: State, t: TripId, d: DriverId)
    requires Consistent(s) && IsPending(s, t)
    ensures Consistent(Notify(c, s, t, d))
  {
    MarkNotifiedStaysConsistent(s, Pair(t, d), LockTtlMs(c));
  }

  // ----------------------------------------------- what a handler of one trip touches

  ghost predicate RowKeptOrFailed(s: State, s': State, t: TripId) {
    t in s.trips ==>
      (t in s'.trips &&
       (s'.trips[t] == s.trips[t] ||
        (IsPending(s, t) && s'.trips[t] == s.trips[t].(status := CancelledAuto, updatedAt := s.now))))
  }

  /** No row, attempt or counter of a trip other than `t` changes. */
  ghost predicate OthersKept(s: State, s': State, t: TripId) {
    s'.now == s.now && s'.lastSweep == s.lastSweep && s'.trips.Keys == s.trips.Keys &&
    (forall u :: u in s.trips && u != t ==> s'.trips[u] == s.trips[u]) &&
    (forall p :: p in s'.attempts && p.trip != t ==> p in s.attempts) &&
    (forall p :: p in s.attempts && p.trip != t ==> p in s'.attempts && s'.attempts[p] == s.attempts[p]) &&
    (forall u :: u in s'.rounds && u != t ==> u in s.rounds) &&
    (forall u :: u in s.rounds && u != t ==> u in s'.rounds && s'.rounds[u] == s.rounds[u])
  }

  ghost predicate AttemptsAge(s: State, s': State) {
    (forall p :: p in s.attempts ==> p in s'.attempts) &&
    (forall p :: p in s.attempts && s.attempts[p].status == DriverAccepted ==> s'.attempts[p].status == DriverAccepted) &&
    (forall p :: Notified(s', p) && p.trip in s.trips && !IsPending(s, p.trip) ==> Notified(s, p))
  }

  ghost predicate Within(s: State, s': State, t: TripId) {
    OthersKept(s, s', t) && RowKeptOrFailed(s, s', t) && AttemptsAge(s, s')
  }

  lemma WithinIsTransitive(a: State, b: State, c: State, t: TripId)
    requires Within(a, b, t) && Within(b, c, t)
    ensures Within(a, c, t)
  {}

  lemma DropWithin(s: State, t: TripId, ds: set<DriverId>, to: AttemptStatus)
    requires to != DriverNotified
    ensures Within(s, Drop(s, t, ds, to), t)
  {}

  lemma NotifyWithin(c: DispatchConfig, s: State, t: TripId, d: DriverId)
    requires Consistent(s) && IsPending(s, t)
    ensures Within(s, Notify(c, s, t, d), t) && Notify(c, s, t, d).trips == s.trips
  {}

  lemma SetStatusStaysConsistent(s: State, t: TripId, to: TripStatus)
    requires Consistent(s) && t in s.trips && to != Pending
    requires IsActive(to) || to == Completed ==> s.trips[t].driver.Some?
    ensures Consistent(SetStatus(s, t, to))
  {
    TripWriteStaysConsistent(s, SetStatus(s, t, to).trips);
  }

  lemma ForgetRoundsWithin(s: State, t: TripId)
    requires Consistent(s)
    ensures var s' := s.(rounds := s.rounds - {t}); Consistent(s') && Within(s, s', t)
  {}

  lemma CancelPendingWithin(s: State, t: TripId)
    requires Consistent(s) && IsPending(s, t)
    ensures var s' := SetStatus(s, t, CancelledAuto); Consistent(s') && Within(s, s', t)
  {
    SetStatusStaysConsistent(s, t, CancelledAuto);
  }

  lemma FailTripWithin(s: State, t: TripId)
    requires Consistent(s)
    ensures Consistent(FailTrip(s, t)) && Within(s, FailTrip(s, t), t) && !IsPending(FailTrip(s, t), t)
  {
    ForgetRoundsWithin(s, t);
    var s1 := s.(rounds := s.rounds - {t});
    if IsPending(s1, t) {
      CancelPendingWithin(s1, t);
      WithinIsTransitive(s, s1, SetStatus(s1, t, CancelledAuto), t);
    }
  }

  lemma BumpRoundsWithin(s: State, t: TripId)
    requires Consistent(s) && t in s.trips
    ensures Consistent(BumpRounds(s, t)) && Within(s, BumpRounds(s, t), t)
  {}

  lemma {:induction false} WaveWithin(c: DispatchConfig, s: State, t: TripId, ds: seq<DriverId>)
    requires Consistent(s) && IsPending(s, t)
    ensures var s' := Wave(c, s, t, ds).state;
      Consistent(s') && Within(s, s', t) && s'.trips == s.trips && s'.rounds == s.rounds
  {
    if ds != [] {
      WaveWithin(c, s, t, ds[..|ds| - 1]);
      var m := Wave(c, s, t, ds[..|ds| - 1]).state;
      var d := ds[|ds| - 1];
      if d !in m.locks {
        NotifyStaysConsistent(c, m, t, d);
        NotifyWithin(c, m, t, d);
        WithinIsTransitive(s, m, Notify(c, m, t, d), t);
      }
    }
  }

  lemma AttemptDispatchWithin(setup: Setup, s: State, t: TripId, service: Service, near: seq<DriverId>)
    requires Consistent(s) && IsPending(s, t)
    ensures var s' := AttemptDispatch(setup, s, t, service, near);
      Consistent(s') && Within(s, s', t)
  {
    var s1 := BumpRounds(s, t);
    BumpRoundsWithin(s, t);
    var c := setup.config(service);
    var candidates := Candidates(s1, near);
    if candidates == [] {
      FailTripWithin(s1, t);
      WithinIsTransitive(s, s1, FailTrip(s1, t), t);
    } else {
      var r := Wave(c, s1, t, Take(candidates, c.maxAttempts));
      WaveWithin(c, s1, t, Take(candidates, c.maxAttempts));
      WithinIsTransitive(s, s1, r.state, t);
      FailTripWithin(r.state, t);
      WithinIsTransitive(s, r.state, FailTrip(r.state, t), t);
    }
  }

  lemma CheckAndRetryWithin(setup: Setup, s: State, t: TripId, near: seq<DriverId>)
    requires Consistent(s)
    ensures var s' := CheckAndRetry(setup, s, t, near);
      Consistent(s') && Within(s, s', t)
  {
    if IsPending(s, t) && NotifiedDrivers(s, t) == {} {
      var service := s.trips[t].service;
      FailTripWithin(s, t);
      AttemptDispatchWithin(setup, s, t, service, near);
    }
  }

  /** Writing trip rows alone leaves the other stores backed. */
  lemma TripWriteStaysConsistent(s: State, trips: map<TripId, Trip>)
    requires Consistent(s) && s.trips.Keys <= trips.Keys && DriversAgree(s.(trips := trips))
    ensures Consistent(s.(trips := trips))
  {
    var s' := s.(trips := trips);
    assert RowsExist(s') && LocksBacked(s');
  }

  // -------------------------------------------------------- how a state evolves

  ghost predicate RowFollows(a: Trip, b: Trip) {
    b.client == a.client && b.service == a.service && b.createdAt == a.createdAt &&
    (b.status == a.status || Rank(a.status) < Rank(b.status)) &&
    (a.status != Pending ==> b.driver == a.driver)
  }

  /** Rows only move forward, accepted attempts stay, settled trips gain no notified attempt. */
  ghost predicate Later(s: State, s': State) {
    s.now <= s'.now && AttemptsAge(s, s') &&
    forall t :: t in s.trips ==> t in s'.trips && RowFollows(s.trips[t], s'.trips[t])
  }

  /** Every status the step writes is an edge of the table, or the stale sweep's own edge. */
  ghost predicate WritesEdges(step: Step, s: State, s': State) {
    forall t :: t in s.trips && t in s'.trips && s'.trips[t].status != s.trips[t].status ==>
      if step.StepSweepStale? then t in step.stale && StaleEdge(s.trips[t].status, s'.trips[t].status)
      else CanTransition(s.trips[t].status, s'.trips[t].status)
  }

  /** Only a clock step moves the clock, only the periodic sweep its own time stamp. */
  ghost predicate ClocksAgree(step: Step, s: State, s': State) {
    s'.now == (if step.StepClock? then step.time else s.now) &&
    s'.lastSweep == (if step.StepSweepPending? && step.quiet then s.now else s.lastSweep)
  }

  /** Only a creation adds a trip row, dated now. */
  ghost predicate CreatesOnly(step: Step, s: State, s': State) {
    forall t :: t in s'.trips && t !in s.trips ==>
      step.StepCreate? && step.trip == t && s'.trips[t].createdAt == s.now &&
      s'.trips[t].service == step.service && s'.trips[t].status in {Pending, CancelledAuto}
  }

  predicate IsRowStep(step: Step) {
    !step.StepSweepStale? && !step.StepSweepPending? && !step.StepClock?
  }

  ghost predicate StepSound(s: State, step: Step, s': State) {
    Consistent(s') && Later(s, s') && WritesEdges(step, s, s') && ClocksAgree(step, s, s') &&
    CreatesOnly(step, s, s')
  }

  lemma LaterIsReflexive(s: State)
    ensures Later(s, s)
  {}

  lemma LaterIsTransitive(a: State, b: State, c: State)
    requires Later(a, b) && Later(b, c)
    ensures Later(a, c)
  {
    forall p | Notified(c, p) && p.trip in a.trips && !IsPending(a, p.trip)
      ensures Notified(a, p)
    {
      assert RowFollows(a.trips[p.trip], b.trips[p.trip]);
      assert Notified(b, p);
    }
  }

  lemma WithinIsLater(s: State, s': State, t: TripId)
    requires Within(s, s', t)
    ensures Later(s, s')
    ensures forall u :: u in s.trips && s'.trips[u].status != s.trips[u].status ==>
      u == t && s.trips[u].status == Pending && s'.trips[u].status == CancelledAuto
  {}

  lemma DispatchStepSound(s: State, step: Step, s': State, t: TripId)
    requires Within(s, s', t) && Consistent(s') && IsRowStep(step)
    ensures StepSound(s, step, s')
  {
    WithinIsLater(s, s', t);
  }

  // ------------------------------------------------------------ handler by handler

  /** The writes of a timeout before its retry check; the job may be late, or not the keyed one. */
  function TimedOutBy(s: State, j: JobId): State
    requires j in s.jobs
  {
    var p := s.jobs[j].pair;
    s.(attempts := if Notified(s, p) then s.attempts[p := s.attempts[p].(status := TimedOut)] else s.attempts,
       locks := s.locks - {p.driver},
       jobs := s.jobs - {j},
       jobKeys := s.jobKeys - {p})
  }

  lemma TimedOutIsWithin(s: State, j: JobId)
    requires Consistent(s) && j in s.jobs
    ensures Consistent(TimedOutBy(s, j)) && Within(s, TimedOutBy(s, j), s.jobs[j].pair.trip)
  {}

  lemma JobIsTimeoutThenRetry(setup: Setup, s: State, j: JobId, near: seq<DriverId>)
    requires j in s.jobs
    ensures ProcessJob(setup, s, j, near) == CheckAndRetry(setup, TimedOutBy(s, j), s.jobs[j].pair.trip, near)
  {}

  lemma ProcessJobWithin(setup: Setup, s: State, j: JobId, near: seq<DriverId>)
    requires Consistent(s) && j in s.jobs
    ensures var s' := ProcessJob(setup, s, j, near);
      Consistent(s') && Within(s, s', s.jobs[j].pair.trip)
  {
    var m := TimedOutBy(s, j);
    var t := s.jobs[j].pair.trip;
    TimedOutIsWithin(s, j);
    CheckAndRetryWithin(setup, m, t, near);
    JobIsTimeoutThenRetry(setup, s, j, near);
    WithinIsTransitive(s, m, CheckAndRetry(setup, m, t, near), t);
  }

  lemma DropThenRetryWithin(setup: Setup, s: State, t: TripId, d: DriverId, to: AttemptStatus, near: seq<DriverId>)
    requires Consistent(s) && to in {DriverDeclined, TimedOut}
    ensures var s' := CheckAndRetry(setup, Drop(s, t, {d}, to), t, near);
      Consistent(s') && Within(s, s', t)
  {
    var s1 := Drop(s, t, {d}, to);
    DropStaysConsistent(s, t, {d}, to);
    DropWithin(s, t, {d}, to);
    CheckAndRetryWithin(setup, s1, t, near);
    WithinIsTransitive(s, s1, CheckAndRetry(setup, s1, t, near), t);
  }

  lemma DropThenRetrySound(setup: Setup, s: State, step: Step, t: TripId, d: DriverId,
                           to: AttemptStatus, near: seq<DriverId>)
    requires Consistent(s) && IsRowStep(step)
    requires to in {DriverDeclined, TimedOut}
    ensures StepSound(s, step, CheckAndRetry(setup, Drop(s, t, {d}, to), t, near))
  {
    DropThenRetryWithin(setup, s, t, d, to, near);
    DispatchStepSound(s, step, CheckAndRetry(setup, Drop(s, t, {d}, to), t, near), t);
  }

  lemma SetStatusSound(s: State, step: Step, t: TripId, to: TripStatus)
    requires Consistent(s) && t in s.trips && CanTransition(s.trips[t].status, to)
    requires IsActive(to) || to == Completed ==> s.trips[t].driver.Some?
    requires IsRowStep(step)
    ensures StepSound(s, step, SetStatus(s, t, to))
  {
    SetStatusStaysConsistent(s, t, to);
  }

  lemma ReleaseThenSetSound(s: State, step: Step, t: TripId, to: TripStatus)
    requires Consistent(s) && t in s.trips && CanTransition(s.trips[t].status, to)
    requires to in {CancelledByClient, CancelledAuto} && IsRowStep(step)
    ensures StepSound(s, step, SetStatus(ReleaseLocksForTrip(s, t), t, to))
  {
    var ds := NotifiedDrivers(s, t);
    var s1 := Drop(s, t, ds, TimedOut);
    DropStaysConsistent(s, t, ds, TimedOut);
    DropWithin(s, t, ds, TimedOut);
    WithinIsLater(s, s1, t);
    SetStatusSound(s1, step, t, to);
    LaterIsTransitive(s, s1, SetStatus(s1, t, to));
  }

  lemma AssignDriverSound(s: State, step: Step, t: TripId, d: DriverId)
    requires Consistent(s) && IsPending(s, t) && IsRowStep(step)
    ensures StepSound(s, step, AssignDriver(s, t, d))
  {
    TripWriteStaysConsistent(s, AssignDriver(s, t, d).trips);
  }

  /** A matching accept, with the trip row written first: the drops do not look at it. */
  lemma AcceptIsAssignThenDrop(s: State, t: TripId, d: DriverId)
    requires t in s.trips && HoldsLockFor(s, t, d)
    ensures var s1 := Drop(AssignDriver(s, t, d), t, {d}, DriverAccepted);
      var s2 := Drop(s1, t, NotifiedDrivers(s1, t) - {d}, DriverDeclined);
      AssignDriver(HandleDriverAccept(s, t, d), t, d) == s2.(rounds := s2.rounds - {t})
  {}

  lemma AcceptDropsWithin(s: State, t: TripId, d: DriverId)
    requires Consistent(s) && t in s.trips && s.trips[t].status != Pending && s.trips[t].driver == Some(d)
    ensures var s1 := Drop(s, t, {d}, DriverAccepted);
      var s2 := Drop(s1, t, NotifiedDrivers(s1, t) - {d}, DriverDeclined);
      Consistent(s2) && Within(s, s2, t)
  {
    var s1 := Drop(s, t, {d}, DriverAccepted);
    DropStaysConsistent(s, t, {d}, DriverAccepted);
    DropWithin(s, t, {d}, DriverAccepted);
    var others := NotifiedDrivers(s1, t) - {d};
    DropStaysConsistent(s1, t, others, DriverDeclined);
    DropWithin(s1, t, others, DriverDeclined);
    WithinIsTransitive(s, s1, Drop(s1, t, others, DriverDeclined), t);
  }

  lemma AcceptSound(s: State, step: Step, t: TripId, d: DriverId)
    requires Consistent(s) && IsPending(s, t) && Notified(s, Pair(t, d)) && IsRowStep(step)
    ensures StepSound(s, step, AssignDriver(HandleDriverAccept(s, t, d), t, d))
  {
    AssignDriverSound(s, step, t, d);
    if HoldsLockFor(s, t, d) {
      AcceptIsAssignThenDrop(s, t, d);
      var s0 := AssignDriver(s, t, d);
      AcceptDropsWithin(s0, t, d);
      var s1 := Drop(s0, t, {d}, DriverAccepted);
      var s2 := Drop(s1, t, NotifiedDrivers(s1, t) - {d}, DriverDeclined);
      SettleAccept(s, step, s0, s2, t);
    }
  }

  lemma SettleAccept(s: State, step: Step, s0: State, s2: State, t: TripId)
    requires StepSound(s, step, s0) && Consistent(s2) && Within(s0, s2, t) && IsRowStep(step)
    requires t in s0.trips && s0.trips[t].status != Pending
    ensures StepSound(s, step, s2.(rounds := s2.rounds - {t}))
  {
    var s3 := s2.(rounds := s2.rounds - {t});
    ForgetRoundsWithin(s2, t);
    WithinIsTransitive(s0, s2, s3, t);
    WithinIsLater(s0, s3, t);
    LaterIsTransitive(s, s0, s3);
  }

  lemma UpdateStatusSound(s: State, t: TripId, actor: Actor, to: TripStatus)
    requires Consistent(s)
    ensures StepSound(s, StepUpdateStatus(t, actor, to), UpdateStatus(s, t, actor, to).state)
  {
    var step := StepUpdateStatus(t, actor, to);
    if UpdateStatus(s, t, actor, to).outcome == Done {
      match to
      case Accepted => AcceptSound(s, step, t, actor.profile.value);
      case CancelledByClient => ReleaseThenSetSound(s, step, t, to);
      case CancelledAuto => ReleaseThenSetSound(s, step, t, to);
      case _ => SetStatusSound(s, step, t, to);
    }
  }

  lemma CreateSound(setup: Setup, s: State, step: Step)
    requires Consistent(s) && step.StepCreate? && step.trip !in s.trips
    ensures StepSound(s, step, Next(setup, s, step))
  {
    var t := step.trip;
    var s1 := s.(trips := s.trips[t := Trip(step.client, step.service, Pending, None, s.now, s.now)]);
    NewRowIsLater(s, s1, t);
    AttemptDispatchWithin(setup, s1, t, step.service, step.near);
    NewRowThenWithin(s, step, s1, AttemptDispatch(setup, s1, t, step.service, step.near));
  }

  lemma NewRowIsLater(s: State, s1: State, t: TripId)
    requires Consistent(s) && t !in s.trips && s1 == s.(trips := s1.trips) && t in s1.trips
    requires s1.trips == s.trips[t := s1.trips[t]] && s1.trips[t].status == Pending && s1.trips[t].driver == None
    ensures Consistent(s1) && Later(s, s1)
  {
    TripWriteStaysConsistent(s, s1.trips);
  }

  lemma NewRowThenWithin(s: State, step: Step, s1: State, s': State)
    requires step.StepCreate? && step.trip !in s.trips && Later(s, s1) && Within(s1, s', step.trip) && Consistent(s')
    requires s1 == s.(trips := s.trips[step.trip := Trip(step.client, step.service, Pending, None, s.now, s.now)])
    ensures StepSound(s, step, s')
  {
    WithinIsLater(s1, s', step.trip);
    LaterIsTransitive(s, s1, s');
  }

  lemma RearmStaysConsistent(s: State, p: Pair)
    requires Consistent(s) && Rearmable(s, p)
    ensures Consistent(s.(attempts := s.attempts[p := s.attempts[p].(status := DriverNotified)],
                           locks := s.locks[p.driver := Lock(p.trip, s.now + REARM_LOCK_MS)]))
  {}

  lemma RearmSound(s: State, p: Pair)
    requires Consistent(s)
    ensures StepSound(s, StepRearm(p), Rearm(s, p))
  {
    if Rearmable(s, p) && !AcceptedByAnother(s, p) {
      RearmStaysConsistent(s, p);
      assert AttemptsAge(s, Rearm(s, p));
    }
  }

  lemma ClockSound(s: State, time: int)
    requires Consistent(s) && Possible(s, StepClock(time))
    ensures StepSound(s, StepClock(time), AdvanceClock(s, time))
  {
    var s' := AdvanceClock(s, time);
    assert RowsExist(s') && LocksBacked(s');
  }

  // ------------------------------------------------------------------ the sweeps

  /** The sweep has processed `done`: every other trip is as it was. */
  ghost predicate PendingOrFailed(s: State, ids: seq<TripId>) {
    forall t :: t in ids && t in s.trips ==> s.trips[t].status in {Pending, CancelledAuto}
  }

  ghost predicate SweptOnly(s: State, s': State, done: seq<TripId>) {
    s'.now == s.now && s'.lastSweep == s.lastSweep && s'.trips.Keys == s.trips.Keys &&
    forall t :: t in s.trips && t !in done ==> s'.trips[t] == s.trips[t]
  }

  lemma DistinctFront(ids: seq<TripId>)
    requires Distinct(ids) && ids != []
    ensures var n := |ids| - 1;
      Distinct(ids[..n]) && ids[n] !in ids[..n] && ids[n] in ids && ids == ids[..n] + [ids[n]] &&
      forall t :: t in ids <==> t in ids[..n] || t == ids[n]
  {
    var n := |ids| - 1;
    assert ids == ids[..n] + [ids[n]];
    forall i, j | 0 <= i < j < n ensures ids[..n][i] != ids[..n][j] {}
  }

  lemma SweptOnlyGrows(s: State, m: State, s': State, done: seq<TripId>, t: TripId)
    requires SweptOnly(s, m, done) && OthersKept(m, s', t) && Later(s, m) && Later(m, s')
    ensures SweptOnly(s, s', done + [t]) && Later(s, s')
  {
    LaterIsTransitive(s, m, s');
  }

  lemma SweepGrows(s: State, m: State, s': State, done: seq<TripId>, t: TripId)
    requires SweptOnly(s, m, done) && PendingOrFailed(m, done) && Later(s, m)
    requires Within(m, s', t) && IsPending(m, t)
    ensures SweptOnly(s, s', done + [t]) && PendingOrFailed(s', done + [t]) && Later(s, s')
  {
    WithinIsLater(m, s', t);
    SweptOnlyGrows(s, m, s', done, t);
  }

  lemma SweepOneWithin(setup: Setup, s: State, quiet: bool, t: TripId, near: map<TripId, seq<DriverId>>)
    requires Consistent(s) && IsPending(s, t)
    ensures var s' := SweepOne(setup, s, quiet, t, near); Consistent(s') && Within(s, s', t)
  {
    var age := s.now - s.trips[t].createdAt;
    if !(quiet && age < REDISPATCH_MIN_AGE_MS) {
      if age > REDISPATCH_MAX_AGE_MS {
        FailTripWithin(s, t);
      } else {
        RedispatchWithin(setup, s, t, near);
      }
    }
  }

  lemma RedispatchWithin(setup: Setup, s: State, t: TripId, near: map<TripId, seq<DriverId>>)
    requires Consistent(s) && IsPending(s, t)
    ensures var s' := Redispatch(setup, s, t, near); Consistent(s') && Within(s, s', t)
  {
    var s1 := ReleaseLocksForTrip(s, t);
    var ds := NotifiedDrivers(s, t);
    DropStaysConsistent(s, t, ds, TimedOut);
    DropWithin(s, t, ds, TimedOut);
    if t !in near {
      FailTripWithin(s1, t);
      WithinIsTransitive(s, s1, FailTrip(s1, t), t);
    } else {
      AttemptDispatchWithin(setup, s1, t, s.trips[t].service, near[t]);
      WithinIsTransitive(s, s1, AttemptDispatch(setup, s1, t, s.trips[t].service, near[t]), t);
    }
  }

  lemma {:induction false} SweepAllWithin(setup: Setup, s: State, quiet: bool, order: seq<TripId>,
                                         near: map<TripId, seq<DriverId>>)
    requires Consistent(s)
    requires Distinct(order)
    requires forall t :: t in order ==> IsPending(s, t)
    ensures var s' := SweepAll(setup, s, quiet, order, near);
      Consistent(s') && Later(s, s') && SweptOnly(s, s', order) && PendingOrFailed(s', order)
  {
    if order != [] {
      var n := |order| - 1;
      var front := order[..n];
      var t := order[n];
      DistinctFront(order);
      SweepAllWithin(setup, s, quiet, front, near);
      var m := SweepAll(setup, s, quiet, front, near);
      assert IsPending(s, t);
      assert m.trips[t] == s.trips[t];
      SweepOneWithin(setup, m, quiet, t, near);
      var s' := SweepOne(setup, m, quiet, t, near);
      SweepGrows(s, m, s', front, t);
    }
  }

  lemma CancelStaleIsLater(s: State, t: TripId)
    requires Consistent(s) && t in s.trips && s.trips[t].status in {Accepted, DriverArriving}
    ensures var m := SetStatus(s, t, CancelledAuto);
      Consistent(m) && OthersKept(s, m, t) && Later(s, m)
  {
    SetStatusStaysConsistent(s, t, CancelledAuto);
  }

  lemma OthersKeptIsTransitive(a: State, b: State, c: State, t: TripId)
    requires OthersKept(a, b, t) && OthersKept(b, c, t)
    ensures OthersKept(a, c, t)
  {}

  lemma SweepStaleOneWithin(s: State, t: TripId)
    requires Consistent(s) && t in s.trips && s.trips[t].status in {Accepted, DriverArriving}
    ensures var s' := SweepStaleOne(s, t);
      Consistent(s') && OthersKept(s, s', t) && Later(s, s') && s'.trips[t].status == CancelledAuto
  {
    var m := SetStatus(s, t, CancelledAuto);
    CancelStaleIsLater(s, t);
    var ds := NotifiedDrivers(m, t);
    var s' := Drop(m, t, ds, TimedOut);
    DropStaysConsistent(m, t, ds, TimedOut);
    DropWithin(m, t, ds, TimedOut);
    WithinIsLater(m, s', t);
    LaterIsTransitive(s, m, s');
    OthersKeptIsTransitive(s, m, s', t);
  }

  lemma {:induction false} SweepStaleWithin(s: State, stale: seq<TripId>)
    requires Consistent(s)
    requires Distinct(stale)
    requires forall t :: t in stale ==> IsStale(s, t)
    ensures var s' := SweepStaleAll(s, stale);
      Consistent(s') && Later(s, s') && SweptOnly(s, s', stale) &&
      forall t :: t in stale && t in s'.trips ==> s'.trips[t].status == CancelledAuto
  {
    if stale != [] {
      var n := |stale| - 1;
      var front := stale[..n];
      var t := stale[n];
      DistinctFront(stale);
      SweepStaleWithin(s, front);
      var m := SweepStaleAll(s, front);
      assert IsStale(s, t);
      assert m.trips[t] == s.trips[t];
      SweepStaleOneWithin(m, t);
      SweptOnlyGrows(s, m, SweepStaleOne(m, t), front, t);
    }
  }

  // --------------------------------------------------------------- every step

  lemma StepIsSound(setup: Setup, s: State, step: Step)
    requires Consistent(s) && Possible(s, step)
    ensures StepSound(s, step, Next(setup, s, step))
  {
    match step
    case StepCreate(_, _, _, _) => CreateSound(setup, s, step);
    case StepUpdateStatus(t, actor, to) => UpdateStatusSound(s, t, actor, to);
    case StepDecline(t, d, near) => DropThenRetrySound(setup, s, step, t, d, DriverDeclined, near);
    case StepWsDecline(t, d, near) => DropThenRetrySound(setup, s, step, t, d, DriverDeclined, near);
    case StepJob(j, near) =>
      ProcessJobWithin(setup, s, j, near);
      DispatchStepSound(s, step, ProcessJob(setup, s, j, near), s.jobs[j].pair.trip);
    case StepComplete(t, actor) =>
      if DriverOwns(s, t, actor) == Done { SetStatusSound(s, step, t, Completed); }
    case StepConfirmPayment(t, actor) => TouchSound(s, step, t, actor);
    case StepSweepPending(quiet, order, near) =>
      SweepPendingSound(setup, s, step);
    case StepSweepStale(stale) => SweepStaleSound(s, stale);
    case StepRearm(p) => RearmSound(s, p);
    case StepLoseJob(j) =>
    case StepClock(time) => ClockSound(s, time);
  }

  lemma TouchStaysConsistent(s: State, t: TripId)
    requires Consistent(s) && t in s.trips
    ensures Consistent(Touch(s, t)) && Later(s, Touch(s, t))
  {
    TripWriteStaysConsistent(s, Touch(s, t).trips);
  }

  lemma TouchSound(s: State, step: Step, t: TripId, actor: Actor)
    requires Consistent(s) && IsRowStep(step)
    ensures StepSound(s, step, ConfirmPaymentReceived(s, t, actor).state)
  {
    if DriverOwns(s, t, actor) == Done {
      TouchStaysConsistent(s, t);
    }
  }

  lemma SweepStaleSound(s: State, stale: seq<TripId>)
    requires Consistent(s) && Possible(s, StepSweepStale(stale))
    ensures StepSound(s, StepSweepStale(stale), SweepStaleAll(s, stale))
  {
    SweepStaleWithin(s, stale);
  }

  lemma SweepPendingSound(setup: Setup, s: State, step: Step)
    requires Consistent(s) && step.StepSweepPending? && Possible(s, step)
    ensures StepSound(s, step, Next(setup, s, step))
  {
    SweepAllWithin(setup, s, step.quiet, step.order, step.nearOf);
    var m := SweepAll(setup, s, step.quiet, step.order, step.nearOf);
    SweptThenStamped(s, step, m, Next(setup, s, step));
  }

  lemma SweptThenStamped(s: State, step: Step, m: State, s': State)
    requires step.StepSweepPending? && Possible(s, step)
    requires Consistent(m) && Later(s, m) && SweptOnly(s, m, step.order) && PendingOrFailed(m, step.order)
    requires s' == if step.quiet then m.(lastSweep := s.now) else m
    ensures StepSound(s, step, s')
  {
    assert RowsExist(s') && LocksBacked(s');
    forall t | t in s.trips && s'.trips[t].status != s.trips[t].status
      ensures CanTransition(s.trips[t].status, s'.trips[t].status)
    {
      assert t in step.order;
    }
  }
}
