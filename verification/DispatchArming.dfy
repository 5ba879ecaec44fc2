/**
 Whoever is newly asked has a timeout job, in every run: it is due exactly after the
 service's timeout, and its key lives until half a minute past that. Jobs and keys left over
 from late or lost jobs never get in the way.
 */
module DispatchArming {
  import opened Prelude
  import opened TripLifecycle
  import opened DispatchModel
  import opened DispatchConsistency
  import opened DispatchRuns
  import opened DispatchRecovery
  import opened DispatchGuarded
  import opened DispatchWaves
  import opened DispatchOutcomes
  import opened DispatchSweeps

  /** Job ids come from the counter, and a live job under a pair's key is that pair's. */
  ghost predicate JobsIssued(s: State) {
    (forall j :: j in s.jobs ==> j < s.nextJob) &&
    forall p :: p in s.jobKeys ==>
      s.jobKeys[p].job < s.nextJob && (s.jobKeys[p].job in s.jobs ==> s.jobs[s.jobKeys[p].job].pair == p)
  }

  /** The pair's key names a job of the pair that is due then; the key expires then. */
  ghost predicate IsArmed(s: State, p: Pair, dueAt: int, keyExpiry: int) {
    p in s.jobKeys && s.jobKeys[p].expiresAt == keyExpiry &&
    s.jobKeys[p].job in s.jobs && s.jobs[s.jobKeys[p].job] == Job(p, dueAt)
  }

  /** Issued jobs stay issued, and what is armed for another trip stays armed. */
  ghost predicate KeepsJobs(s: State, s': State, t: TripId) {
    JobsIssued(s') &&
    forall p: Pair, dueAt, keyExpiry :: p.trip != t && IsArmed(s, p, dueAt, keyExpiry) ==> IsArmed(s', p, dueAt, keyExpiry)
  }

  lemma DropKeepsJobs(s: State, t: TripId, ds: set<DriverId>, to: AttemptStatus)
    requires JobsIssued(s)
    ensures KeepsJobs(s, Drop(s, t, ds, to), t)
  {
    var s' := Drop(s, t, ds, to);
    forall p: Pair, dueAt, keyExpiry | p.trip != t && IsArmed(s, p, dueAt, keyExpiry) ensures IsArmed(s', p, dueAt, keyExpiry) {
      assert s.jobKeys[p].job !in KeyedJobs(s, t, ds);
    }
  }

  /** Every live job without a key of its own trip stays; the new one is armed. */
  lemma NotifyArms(c: DispatchConfig, s: State, t: TripId, d: DriverId)
    requires JobsIssued(s)
    ensures var s' := Notify(c, s, t, d);
      JobsIssued(s') && IsArmed(s', Pair(t, d), s.now + c.timeoutMs, s.now + JobKeyTtlMs(c)) &&
      forall p: Pair, dueAt, keyExpiry :: p != Pair(t, d) && IsArmed(s, p, dueAt, keyExpiry) ==> IsArmed(s', p, dueAt, keyExpiry)
  {}

  /** All the drivers of `ds` are armed for trip `t`, as of time `s.now`. */
  ghost predicate AllArmed(c: DispatchConfig, s: State, t: TripId, ds: set<DriverId>) {
    forall d :: d in ds ==> IsArmed(s, Pair(t, d), s.now + c.timeoutMs, s.now + JobKeyTtlMs(c))
  }

  lemma NotifyArmsOneMore(c: DispatchConfig, s: State, m: State, t: TripId, armed: set<DriverId>, d: DriverId)
    requires KeepsJobs(s, m, t) && AllArmed(c, m, t, armed) && d !in armed
    ensures var s' := Notify(c, m, t, d);
      KeepsJobs(s, s', t) && AllArmed(c, s', t, armed + {d}) && s'.now == m.now
  {
    NotifyArms(c, m, t, d);
  }

  lemma {:induction false} WaveArms(c: DispatchConfig, s: State, t: TripId, ds: seq<DriverId>)
    requires JobsIssued(s)
    ensures var s' := Wave(c, s, t, ds).state;
      KeepsJobs(s, s', t) && AllArmed(c, s', t, Members(ds) - s.locks.Keys) && s'.now == s.now
  {
    if ds != [] {
      var n := |ds| - 1;
      WaveArms(c, s, t, ds[..n]);
      WaveOffers(c, s, t, ds[..n]);
      OneMoreMember(s, ds);
      if ds[n] !in Wave(c, s, t, ds[..n]).state.locks {
        NotifyArmsOneMore(c, s, Wave(c, s, t, ds[..n]).state, t, Members(ds[..n]) - s.locks.Keys, ds[n]);
      }
    }
  }

  lemma DispatchArms(setup: Setup, s: State, t: TripId, near: seq<DriverId>)
    requires JobsIssued(s) && IsPending(s, t) && NotifiedDrivers(s, t) == {}
    ensures var s' := AttemptDispatch(setup, s, t, s.trips[t].service, near);
      KeepsJobs(s, s', t) && AllArmed(setup.config(s.trips[t].service), s', t, NotifiedDrivers(s', t))
  {
    var c := setup.config(s.trips[t].service);
    var s1 := BumpRounds(s, t);
    var ds := Take(Candidates(s1, near), c.maxAttempts);
    var m := Wave(c, s1, t, ds).state;
    BumpKeepsJobs(s, t);
    WaveArms(c, s1, t, ds);
    WaveOffers(c, s1, t, ds);
    FailKeepsJobs(s1, t);
    FailKeepsJobs(m, t);
    KeepsJobsIsTransitive(s, s1, m, t);
    NoMembersIsEmpty(ds);
    DispatchWaits(s, s1, m, t, c, Members(ds) - s.locks.Keys);
  }

  lemma BumpKeepsJobs(s: State, t: TripId)
    requires JobsIssued(s)
    ensures KeepsJobs(s, BumpRounds(s, t), t)
  {}

  /** With or without the failure, those who wait after a dispatch are the ones offered. */
  lemma DispatchWaits(s: State, s1: State, m: State, t: TripId, c: DispatchConfig, offered: set<DriverId>)
    requires NotifiedDrivers(s, t) == {} && s1 == BumpRounds(s, t) && WaveLeaves(s1, m, t, LockTtlMs(c), offered)
    ensures NotifiedDrivers(m, t) == NotifiedDrivers(FailTrip(m, t), t) == offered
    ensures NotifiedDrivers(FailTrip(s1, t), t) == {}
  {
    FailTripKeepsWaiting(s1, t);
    FailTripKeepsWaiting(m, t);
    assert NotifiedDrivers(s1, t) == NotifiedDrivers(s, t);
    WaitingFollows(s1, m, t, {}, TimedOut, offered);
  }

  lemma FailKeepsJobs(s: State, t: TripId)
    requires JobsIssued(s)
    ensures KeepsJobs(s, FailTrip(s, t), t)
  {}

  lemma KeepsJobsIsTransitive(a: State, b: State, c: State, t: TripId)
    requires KeepsJobs(a, b, t) && KeepsJobs(b, c, t)
    ensures KeepsJobs(a, c, t)
  {}

  lemma RetryArms(setup: Setup, s: State, t: TripId, near: seq<DriverId>)
    requires JobsIssued(s)
    ensures var s' := CheckAndRetry(setup, s, t, near);
      KeepsJobs(s, s', t) &&
      (Retries(setup, s, t) ==> AllArmed(setup.config(s.trips[t].service), s', t, NotifiedDrivers(s', t)))
  {
    if Retries(setup, s, t) {
      DispatchArms(setup, s, t, near);
    } else {
      FailKeepsJobs(s, t);
    }
  }

  lemma TimeoutKeepsJobs(s: State, j: JobId)
    requires JobsIssued(s) && j in s.jobs
    ensures KeepsJobs(s, TimedOutBy(s, j), s.jobs[j].pair.trip)
  {}

  lemma DeclineArms(setup: Setup, s: State, t: TripId, d: DriverId, near: seq<DriverId>)
    requires JobsIssued(s)
    ensures var m := Drop(s, t, {d}, DriverDeclined); var s' := CheckAndRetry(setup, m, t, near);
      JobsIssued(s') &&
      (Retries(setup, m, t) ==> AllArmed(setup.config(s.trips[t].service), s', t, NotifiedDrivers(s', t)))
  {
    DropKeepsJobs(s, t, {d}, DriverDeclined);
    RetryArms(setup, Drop(s, t, {d}, DriverDeclined), t, near);
  }

  lemma JobArms(setup: Setup, s: State, j: JobId, near: seq<DriverId>)
    requires JobsIssued(s) && j in s.jobs
    ensures var t := s.jobs[j].pair.trip; var m := TimedOutBy(s, j); var s' := ProcessJob(setup, s, j, near);
      JobsIssued(s') &&
      (Retries(setup, m, t) ==> AllArmed(setup.config(s.trips[t].service), s', t, NotifiedDrivers(s', t)))
  {
    TimeoutKeepsJobs(s, j);
    JobIsTimeoutThenRetry(setup, s, j, near);
    RetryArms(setup, TimedOutBy(s, j), s.jobs[j].pair.trip, near);
  }

  lemma CreationArms(setup: Setup, s: State, step: Step)
    requires Consistent(s) && JobsIssued(s) && step.StepCreate? && step.trip !in s.trips
    ensures var s' := Next(setup, s, step);
      JobsIssued(s') && AllArmed(setup.config(step.service), s', step.trip, NotifiedDrivers(s', step.trip))
  {
    var s1 := s.(trips := s.trips[step.trip := Trip(step.client, step.service, Pending, None, s.now, s.now)]);
    NewRowAwaitsNobody(s, step.trip);
    assert NotifiedDrivers(s1, step.trip) == NotifiedDrivers(s, step.trip);
    DispatchArms(setup, s1, step.trip, step.near);
  }

  /** Time alone disarms a pair exactly when its key expires; the job stays in the queue. */
  lemma ClockDisarmsIff(s: State, time: int, p: Pair, dueAt: int, keyExpiry: int)
    requires IsArmed(s, p, dueAt, keyExpiry)
    ensures IsArmed(AdvanceClock(s, time), p, dueAt, keyExpiry) <==> time < keyExpiry
    ensures AdvanceClock(s, time).jobs == s.jobs
  {}

  // ------------------------------------------------------------------ the sweeps

  lemma SweepOneArms(setup: Setup, s: State, quiet: bool, t: TripId, near: map<TripId, seq<DriverId>>)
    requires JobsIssued(s) && IsPending(s, t)
    ensures var s' := SweepOne(setup, s, quiet, t, near);
      KeepsJobs(s, s', t) &&
      (IsDueAgain(s, quiet, t, near) ==> AllArmed(setup.config(s.trips[t].service), s', t, NotifiedDrivers(s', t)))
  {
    FailKeepsJobs(s, t);
    var m := ReleaseLocksForTrip(s, t);
    DropKeepsJobs(s, t, NotifiedDrivers(s, t), TimedOut);
    ReleaseEmpties(s, t);
    FailKeepsJobs(m, t);
    if t in near {
      DispatchArms(setup, m, t, near[t]);
    }
  }

  /** What is armed for trip `t` in `s` is armed in `s'`. */
  ghost predicate StaysArmed(s: State, s': State, t: TripId) {
    forall p: Pair, dueAt, keyExpiry :: p.trip == t && IsArmed(s, p, dueAt, keyExpiry) ==> IsArmed(s', p, dueAt, keyExpiry)
  }

  lemma {:induction false} SweepKeepsJobs(setup: Setup, s: State, quiet: bool, order: seq<TripId>,
                                          near: map<TripId, seq<DriverId>>)
    requires Consistent(s) && JobsIssued(s) && Distinct(order) && forall u :: u in order ==> IsPending(s, u)
    ensures JobsIssued(SweepAll(setup, s, quiet, order, near))
  {
    if order != [] {
      var n := |order| - 1;
      DistinctFront(order);
      SweepKeepsJobs(setup, s, quiet, order[..n], near);
      SweepBeforeTurn(setup, s, quiet, order[..n], near, order[n]);
      assert IsPending(s, order[n]);
      SweepOneArms(setup, SweepAll(setup, s, quiet, order[..n], near), quiet, order[n], near);
    }
  }

  lemma {:induction false} ArmedSinceTurn(setup: Setup, s: State, quiet: bool, order: seq<TripId>, n: nat,
                                          near: map<TripId, seq<DriverId>>, k: nat)
    requires Consistent(s) && JobsIssued(s) && Distinct(order) && k < n <= |order|
    requires forall u :: u in order ==> IsPending(s, u)
    ensures StaysArmed(SweepAll(setup, s, quiet, order[..k + 1], near), SweepAll(setup, s, quiet, order[..n], near), order[k])
  {
    if k + 1 < n {
      ArmedSinceTurn(setup, s, quiet, order, n - 1, near, k);
      assert order[..n][..n - 1] == order[..n - 1];
      FrontIsDistinct(order, n - 1);
      SweepBeforeTurn(setup, s, quiet, order[..n - 1], near, order[n - 1]);
      SweepKeepsJobs(setup, s, quiet, order[..n - 1], near);
      assert IsPending(s, order[n - 1]);
      SweepOneArms(setup, SweepAll(setup, s, quiet, order[..n - 1], near), quiet, order[n - 1], near);
    }
  }

  lemma SweepArms(setup: Setup, s: State, step: Step, k: nat)
    requires Consistent(s) && JobsIssued(s) && step.StepSweepPending? && Possible(s, step) && k < |step.order|
    requires Redispatches(s, step, step.order[k])
    ensures var t := step.order[k]; var s' := Next(setup, s, step);
      AllArmed(setup.config(s.trips[t].service), s', t, NotifiedDrivers(s', t))
  {
    var order := step.order;
    FrontIsDistinct(order, k);
    assert IsPending(s, order[k]) && order[..k + 1][..k] == order[..k] && order[..|order|] == order;
    SweepBeforeTurn(setup, s, step.quiet, order[..k], step.nearOf, order[k]);
    SweepKeepsJobs(setup, s, step.quiet, order[..k], step.nearOf);
    SweepAfterTurn(setup, s, step.quiet, order, |order|, step.nearOf, k);
    ArmedSinceTurn(setup, s, step.quiet, order, |order|, step.nearOf, k);
    ArmedTurn(setup, s, SweepAll(setup, s, step.quiet, order[..k], step.nearOf),
              SweepAll(setup, s, step.quiet, order, step.nearOf), step, order[k], Next(setup, s, step));
  }

  lemma ArmedTurn(setup: Setup, s: State, m: State, swept: State, step: Step, t: TripId, s': State)
    requires step.StepSweepPending? && Redispatches(s, step, t) && IsPending(s, t) && JobsIssued(m) && IsUntouched(s, m, t)
    requires var m' := SweepOne(setup, m, step.quiet, t, step.nearOf); IsUntouched(m', swept, t) && StaysArmed(m', swept, t)
    requires s' == if step.quiet then swept.(lastSweep := s.now) else swept
    ensures AllArmed(setup.config(s.trips[t].service), s', t, NotifiedDrivers(s', t))
  {
    var m' := SweepOne(setup, m, step.quiet, t, step.nearOf);
    SweepOneArms(setup, m, step.quiet, t, step.nearOf);
    UntouchedWaits(m', swept, t);
    StampIsUntouched(swept, s.now, t);
    UntouchedWaits(swept, s', t);
  }

  lemma {:induction false} StaleKeepsJobs(s: State, stale: seq<TripId>)
    requires JobsIssued(s)
    ensures JobsIssued(SweepStaleAll(s, stale))
  {
    if stale != [] {
      var n := |stale| - 1;
      var m := SweepStaleAll(s, stale[..n]);
      StaleKeepsJobs(s, stale[..n]);
      if stale[n] in m.trips {
        var m1 := SetStatus(m, stale[n], CancelledAuto);
        DropKeepsJobs(m1, stale[n], NotifiedDrivers(m1, stale[n]), TimedOut);
      }
    }
  }

  // -------------------------------------------------------------------- every run

  lemma UpdateKeepsJobs(s: State, t: TripId, actor: Actor, to: TripStatus)
    requires JobsIssued(s)
    ensures JobsIssued(UpdateStatus(s, t, actor, to).state)
  {
    if UpdateStatus(s, t, actor, to).outcome == Done {
      DropKeepsJobs(s, t, NotifiedDrivers(s, t), TimedOut);
      if to == Accepted {
        var d := actor.profile.value;
        var m := Drop(s, t, {d}, DriverAccepted);
        DropKeepsJobs(s, t, {d}, DriverAccepted);
        DropKeepsJobs(m, t, NotifiedDrivers(m, t) - {d}, DriverDeclined);
      }
    }
  }

  lemma StepKeepsJobs(setup: Setup, s: State, step: Step)
    requires Consistent(s) && JobsIssued(s) && Possible(s, step)
    ensures JobsIssued(Next(setup, s, step))
  {
    match step
    case StepCreate(_, _, _, _) => CreationArms(setup, s, step);
    case StepUpdateStatus(t, actor, to) => UpdateKeepsJobs(s, t, actor, to);
    case StepDecline(t, d, near) => DeclineArms(setup, s, t, d, near);
    case StepWsDecline(t, d, near) => DeclineArms(setup, s, t, d, near);
    case StepJob(j, near) => JobArms(setup, s, j, near);
    case StepSweepPending(quiet, order, near) => SweepKeepsJobs(setup, s, quiet, order, near);
    case StepSweepStale(stale) => StaleKeepsJobs(s, stale);
    case _ =>
  }

  lemma {:induction false} RunIssuesJobs(setup: Setup, run: seq<Step>)
    requires IsRun(setup, run)
    ensures JobsIssued(After(setup, run))
  {
    if run != [] {
      var front := run[..|run| - 1];
      RunIssuesJobs(setup, front);
      RunIsConsistent(setup, front);
      StepKeepsJobs(setup, After(setup, front), run[|run| - 1]);
    }
  }

  lemma DispatchingStepArms(setup: Setup, s: State, step: Step, t: TripId)
    requires Consistent(s) && JobsIssued(s) && Possible(s, step) && Dispatches(setup, s, step, t)
    requires t in Next(setup, s, step).trips
    ensures var s' := Next(setup, s, step);
      AllArmed(setup.config(s'.trips[t].service), s', t, NotifiedDrivers(s', t))
  {
    StepIsSound(setup, s, step);
    if t in s.trips {
      assert RowFollows(s.trips[t], Next(setup, s, step).trips[t]);
    }
    match step
    case StepCreate(_, _, _, _) => CreationArms(setup, s, step);
    case StepDecline(_, d, near) => DeclineArms(setup, s, t, d, near);
    case StepWsDecline(_, d, near) => DeclineArms(setup, s, t, d, near);
    case StepJob(j, near) => JobArms(setup, s, j, near);
    case StepSweepPending(_, order, _) =>
      var k :| 0 <= k < |order| && order[k] == t;
      SweepArms(setup, s, step, k);
  }

  /**
   In every run a step that makes a driver wait on a trip, other than a re-arm, leaves the
   pair with a job due after the service's timeout, and with a key that names it.
   */
  lemma NewlyAskedIsArmed(setup: Setup, run: seq<Step>, s: State, step: Step, p: Pair)
    requires IsRun(setup, run) && s == After(setup, run) && Possible(s, step) && !step.StepRearm?
    requires !Notified(s, p) && Notified(Next(setup, s, step), p)
    ensures var s' := Next(setup, s, step);
      p.trip in s'.trips &&
      var c := setup.config(s'.trips[p.trip].service);
      IsArmed(s', p, s.now + c.timeoutMs, s.now + JobKeyTtlMs(c))
  {
    var s' := Next(setup, s, step);
    RunIsConsistent(setup, run);
    RunIssuesJobs(setup, run);
    StepIsSound(setup, s, step);
    StepAccounts(setup, s, step, p.trip);
    WaitsIffNotified(s, p.trip, p.driver);
    WaitsIffNotified(s', p.trip, p.driver);
    assert Dispatches(setup, s, step, p.trip);
    DispatchingStepArms(setup, s, step, p.trip);
  }
}
