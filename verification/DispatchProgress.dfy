/**
 Harmless runs make progress in time: no rounds counter lapses while its trip is pending, no
 timed-out attempt is revived, and the age of a pending trip is bounded by the time its
 waves can take.
 */
module DispatchProgress {
  import opened Prelude
  import opened TripLifecycle
  import opened DispatchModel
  import opened DispatchConsistency
  import opened DispatchSafety
  import opened DispatchRuns
  import opened DispatchRecovery
  import opened DispatchGuarded
  import opened DispatchHarmless
  import opened DispatchWaves

  // ---------------------------------------------------------------- the time budget

  /** How long one wave can take: the timeout, and the delay of the job that ends it. */
  function WaveMs(setup: Setup, service: Service): nat {
    setup.config(service).timeoutMs + setup.slack
  }

  function BudgetMs(setup: Setup, s: State, t: TripId): nat
    requires t in s.trips
  {
    RoundsOf(s, t) * WaveMs(setup, s.trips[t].service)
  }

  ghost predicate OnTime(setup: Setup, s: State, t: TripId) {
    t in s.trips && s.now <= s.trips[t].createdAt + BudgetMs(setup, s, t)
  }

  /** A job of a pending trip ends within the trip's budget and before its counter expires. */
  ghost predicate JobTimed(setup: Setup, s: State, j: JobId) {
    j in s.jobs && IsPending(s, s.jobs[j].pair.trip) ==>
      s.jobs[j].pair.trip in s.rounds &&
      s.jobs[j].dueAt + setup.slack < s.rounds[s.jobs[j].pair.trip].expiresAt &&
      s.jobs[j].dueAt + setup.slack <= s.trips[s.jobs[j].pair.trip].createdAt + BudgetMs(setup, s, s.jobs[j].pair.trip)
  }

  ghost predicate Timed(setup: Setup, s: State) {
    forall j :: j in s.jobs ==> JobTimed(setup, s, j)
  }

  ghost predicate Progressing(setup: Setup, s: State) {
    GuardedInvariant(setup, s) && Timed(setup, s)
  }

  lemma AwaitingIsOnTime(setup: Setup, s: State, t: TripId)
    requires Progressing(setup, s) && IsPending(s, t)
    ensures OnTime(setup, s, t) && t in s.rounds
  {
    var j := AwaitedJob(setup, s, t);
    assert JobTimed(setup, s, j);
  }

  /** Jobs may go, trips may settle, and the counters of pending trips must not change. */
  ghost predicate Settling(s: State, s': State) {
    (forall j :: j in s'.jobs ==> j in s.jobs && s'.jobs[j] == s.jobs[j]) &&
    (forall t :: IsPending(s', t) ==>
      t in s.trips && s'.trips[t] == s.trips[t] &&
      (t in s'.rounds <==> t in s.rounds) && (t in s.rounds ==> s'.rounds[t] == s.rounds[t]))
  }

  lemma SettlingKeepsTimed(setup: Setup, s: State, s': State)
    requires Timed(setup, s) && Settling(s, s')
    ensures Timed(setup, s')
  {
    forall j | j in s'.jobs ensures JobTimed(setup, s', j) {
      assert JobTimed(setup, s, j);
    }
  }

  lemma DropSettles(s: State, t: TripId, ds: set<DriverId>, to: AttemptStatus)
    ensures Settling(s, Drop(s, t, ds, to))
  {}

  lemma BumpKeepsTimed(setup: Setup, s: State, t: TripId)
    requires Timed(setup, s) && Safe(setup, s) && IsPending(s, t) && NotifiedDrivers(s, t) == {}
    ensures var s' := BumpRounds(s, t);
      Timed(setup, s') && (OnTime(setup, s, t) ==>
        s.now + WaveMs(setup, s.trips[t].service) <= s.trips[t].createdAt + BudgetMs(setup, s', t))
  {
    var s' := BumpRounds(s, t);
    QuietIsNoNotified(setup, s, t);
    forall j | j in s'.jobs ensures JobTimed(setup, s', j) {
      assert JobTimed(setup, s, j) && s.jobs[j].pair.trip != t;
      assert RoundsOf(s', s.jobs[j].pair.trip) == RoundsOf(s, s.jobs[j].pair.trip);
    }
    OneMoreWave(RoundsOf(s, t), WaveMs(setup, s.trips[t].service));
  }

  ghost predicate RoomForWave(setup: Setup, s: State, t: TripId) {
    IsPending(s, t) && t in s.rounds && s.now + ROUNDS_TTL_MS <= s.rounds[t].expiresAt &&
    s.now + WaveMs(setup, s.trips[t].service) <= s.trips[t].createdAt + BudgetMs(setup, s, t)
  }

  lemma NotifyKeepsTimed(setup: Setup, s: State, t: TripId, d: DriverId)
    requires WellConfigured(setup) && Timed(setup, s) && RoomForWave(setup, s, t)
    ensures var s' := Notify(setup.config(s.trips[t].service), s, t, d);
      Timed(setup, s') && s'.trips == s.trips && s'.rounds == s.rounds && s'.now == s.now
  {
    var s' := Notify(setup.config(s.trips[t].service), s, t, d);
    forall j | j in s'.jobs ensures JobTimed(setup, s', j) {
      assert j != s.nextJob ==> JobTimed(setup, s, j);
    }
  }

  lemma {:induction false} WaveKeepsTimed(setup: Setup, s: State, t: TripId, ds: seq<DriverId>)
    requires WellConfigured(setup) && Timed(setup, s) && RoomForWave(setup, s, t)
    ensures var s' := Wave(setup.config(s.trips[t].service), s, t, ds).state;
      Timed(setup, s') && s'.trips == s.trips && s'.rounds == s.rounds && s'.now == s.now
  {
    if ds != [] {
      var n := |ds| - 1;
      WaveKeepsTimed(setup, s, t, ds[..n]);
      var m := Wave(setup.config(s.trips[t].service), s, t, ds[..n]).state;
      if ds[n] !in m.locks {
        NotifyKeepsTimed(setup, m, t, ds[n]);
      }
    }
  }

  lemma AttemptDispatchKeepsTimed(setup: Setup, s: State, t: TripId, near: seq<DriverId>)
    requires WellConfigured(setup) && Safe(setup, s) && Timed(setup, s) && OnTime(setup, s, t)
    requires IsPending(s, t) && NotifiedDrivers(s, t) == {}
    ensures Timed(setup, AttemptDispatch(setup, s, t, s.trips[t].service, near))
  {
    var s1 := BumpRounds(s, t);
    BumpKeepsTimed(setup, s, t);
    var c := setup.config(s.trips[t].service);
    var candidates := Candidates(s1, near);
    if candidates == [] {
      FailKeepsTimed(setup, s1, t);
    } else {
      assert RoomForWave(setup, s1, t);
      WaveKeepsTimed(setup, s1, t, Take(candidates, c.maxAttempts));
      FailKeepsTimed(setup, Wave(c, s1, t, Take(candidates, c.maxAttempts)).state, t);
    }
  }

  lemma FailKeepsTimed(setup: Setup, s: State, t: TripId)
    requires Timed(setup, s)
    ensures Timed(setup, FailTrip(s, t))
  {
    SettlingKeepsTimed(setup, s, FailTrip(s, t));
  }

  // ------------------------------------------------------------------- every step

  lemma RetryKeepsTimed(setup: Setup, s: State, t: TripId, near: seq<DriverId>)
    requires WellConfigured(setup) && Safe(setup, s) && Timed(setup, s) && (IsPending(s, t) ==> OnTime(setup, s, t))
    ensures Timed(setup, CheckAndRetry(setup, s, t, near))
  {
    if Retries(setup, s, t) {
      AttemptDispatchKeepsTimed(setup, s, t, near);
    } else {
      FailKeepsTimed(setup, s, t);
    }
  }

  lemma AnswerKeepsTimed(setup: Setup, s: State, t: TripId, d: DriverId, to: AttemptStatus, near: seq<DriverId>)
    requires WellConfigured(setup) && Progressing(setup, s) && Notified(s, Pair(t, d)) && to in {DriverDeclined, TimedOut}
    ensures Timed(setup, CheckAndRetry(setup, Drop(s, t, {d}, to), t, near))
  {
    var s1 := Drop(s, t, {d}, to);
    DropKeepsCore(setup, s, t, {d}, to);
    DropSettles(s, t, {d}, to);
    SettlingKeepsTimed(setup, s, s1);
    if IsPending(s, t) {
      AwaitingIsOnTime(setup, s, t);
    }
    RetryKeepsTimed(setup, s1, t, near);
  }

  lemma CreateKeepsTimed(setup: Setup, s: State, t: TripId, row: Trip, near: seq<DriverId>)
    requires WellConfigured(setup) && Progressing(setup, s) && t !in s.trips
    requires row.status == Pending && row.driver == None && row.createdAt == s.now
    ensures Timed(setup, AttemptDispatch(setup, s.(trips := s.trips[t := row]), t, row.service, near))
  {
    NewRowKeepsCore(setup, s, t, row);
    NewRowTimed(setup, s, t, row);
    AttemptDispatchKeepsTimed(setup, s.(trips := s.trips[t := row]), t, near);
  }

  lemma NewRowTimed(setup: Setup, s: State, t: TripId, row: Trip)
    requires Timed(setup, s) && Safe(setup, s) && t !in s.trips
    ensures Timed(setup, s.(trips := s.trips[t := row]))
  {
    var s1 := s.(trips := s.trips[t := row]);
    forall j | j in s1.jobs ensures JobTimed(setup, s1, j) {
      assert JobTimed(setup, s, j) && Notified(s, s.jobs[j].pair);
    }
  }

  lemma RedispatchKeepsTimed(setup: Setup, s: State, t: TripId, near: map<TripId, seq<DriverId>>)
    requires WellConfigured(setup) && Progressing(setup, s) && IsPending(s, t)
    ensures Timed(setup, Redispatch(setup, s, t, near))
  {
    var s1 := ReleaseLocksForTrip(s, t);
    AwaitingIsOnTime(setup, s, t);
    ReleaseKeepsCore(setup, s, t);
    DropSettles(s, t, NotifiedDrivers(s, t), TimedOut);
    SettlingKeepsTimed(setup, s, s1);
    if t in near {
      AttemptDispatchKeepsTimed(setup, s1, t, near[t]);
    } else {
      FailKeepsTimed(setup, s1, t);
    }
  }

  lemma SweepOneKeepsTimed(setup: Setup, s: State, quiet: bool, t: TripId, near: map<TripId, seq<DriverId>>)
    requires WellConfigured(setup) && Progressing(setup, s) && IsPending(s, t)
    ensures Timed(setup, SweepOne(setup, s, quiet, t, near))
  {
    RedispatchKeepsTimed(setup, s, t, near);
    FailKeepsTimed(setup, s, t);
  }

  lemma {:induction false} SweepAllKeepsTimed(setup: Setup, s: State, quiet: bool, order: seq<TripId>,
                                              near: map<TripId, seq<DriverId>>)
    requires WellConfigured(setup) && Progressing(setup, s) && Distinct(order)
    requires forall t :: t in order ==> IsPending(s, t)
    ensures Progressing(setup, SweepAll(setup, s, quiet, order, near))
  {
    SweepAllKeepsInvariant(setup, s, quiet, order, near);
    if order != [] {
      var n := |order| - 1;
      DistinctFront(order);
      SweepAllKeepsTimed(setup, s, quiet, order[..n], near);
      SweepAllFacts(setup, s, quiet, order[..n], near);
      var m := SweepAll(setup, s, quiet, order[..n], near);
      assert IsPending(s, order[n]) && m.trips[order[n]] == s.trips[order[n]];
      SweepOneKeepsTimed(setup, m, quiet, order[n], near);
    }
  }

  lemma SweepKeepsTimed(setup: Setup, s: State, step: Step)
    requires WellConfigured(setup) && Progressing(setup, s) && step.StepSweepPending? && Possible(s, step)
    ensures Timed(setup, Next(setup, s, step))
  {
    SweepAllKeepsTimed(setup, s, step.quiet, step.order, step.nearOf);
    SettlingKeepsTimed(setup, SweepAll(setup, s, step.quiet, step.order, step.nearOf), Next(setup, s, step));
  }

  lemma {:induction false} SweepStaleSettles(s: State, stale: seq<TripId>)
    ensures Settling(s, SweepStaleAll(s, stale))
  {
    if stale != [] {
      var n := |stale| - 1;
      var m := SweepStaleAll(s, stale[..n]);
      SweepStaleSettles(s, stale[..n]);
      if stale[n] in m.trips {
        var m1 := SetStatus(m, stale[n], CancelledAuto);
        DropSettles(m1, stale[n], NotifiedDrivers(m1, stale[n]), TimedOut);
      }
    }
  }

  lemma UpdateStatusSettles(s: State, t: TripId, actor: Actor, to: TripStatus)
    ensures Settling(s, UpdateStatus(s, t, actor, to).state)
  {
    if UpdateStatus(s, t, actor, to).outcome == Done {
      if to == Accepted {
        AcceptSettles(s, t, actor.profile.value);
      } else if to in {CancelledByClient, CancelledAuto} {
        DropSettles(s, t, NotifiedDrivers(s, t), TimedOut);
      }
    }
  }

  lemma AcceptSettles(s: State, t: TripId, d: DriverId)
    requires t in s.trips
    ensures Settling(s, AssignDriver(HandleDriverAccept(s, t, d), t, d))
  {
    if HoldsLockFor(s, t, d) {
      var s1 := Drop(s, t, {d}, DriverAccepted);
      DropSettles(s, t, {d}, DriverAccepted);
      DropSettles(s1, t, NotifiedDrivers(s1, t) - {d}, DriverDeclined);
    }
  }

  lemma PendingNeverLapses(setup: Setup, s: State, step: Step, t: TripId)
    requires Progressing(setup, s) && IsPending(s, t) && Harmless(setup, s, step)
    ensures t in s.rounds && !Lapses(s, step, t)
  {
    var j := AwaitedJob(setup, s, t);
    assert JobTimed(setup, s, j);
  }

  lemma ClockKeepsTimed(setup: Setup, s: State, time: int)
    requires Progressing(setup, s) && Punctual(setup, s, StepClock(time))
    ensures Timed(setup, AdvanceClock(s, time))
  {
    var s' := AdvanceClock(s, time);
    forall t | IsPending(s', t) ensures t in s'.rounds && s'.rounds[t] == s.rounds[t] {
      PendingNeverLapses(setup, s, StepClock(time), t);
    }
    SettlingKeepsTimed(setup, s, s');
  }

  lemma RowWriteSettles(setup: Setup, s: State, step: Step)
    requires step.StepComplete? || step.StepConfirmPayment?
    ensures Settling(s, Next(setup, s, step))
  {}

  lemma WsDeclineKeepsTimed(setup: Setup, s: State, t: TripId, d: DriverId, near: seq<DriverId>)
    requires WellConfigured(setup) && Progressing(setup, s) && Harmless(setup, s, StepWsDecline(t, d, near))
    ensures Timed(setup, HandleDriverDeclineAndRetry(setup, s, t, d, near))
  {
    if HoldsLockFor(s, t, d) {
      assert Notified(s, Pair(t, d));
      AnswerKeepsTimed(setup, s, t, d, DriverDeclined, near);
    } else {
      DeclineOfUnlockedIsVoid(setup, s, t, d, near);
    }
  }

  lemma RearmKeepsTimed(setup: Setup, s: State, p: Pair)
    requires WellConfigured(setup) && Progressing(setup, s) && IsLatestRequest(s, p) && Harmless(setup, s, StepRearm(p))
    ensures Timed(setup, Rearm(s, p))
  {
    RearmOfLatestRelocks(setup, s, p);
    RelockKeepsTimed(setup, s, p.driver, Lock(p.trip, s.now + REARM_LOCK_MS));
  }

  lemma RelockKeepsTimed(setup: Setup, s: State, d: DriverId, lock: Lock)
    requires Timed(setup, s)
    ensures Timed(setup, s.(locks := s.locks[d := lock]))
  {
    SettlingKeepsTimed(setup, s, s.(locks := s.locks[d := lock]));
  }

  lemma StepKeepsTimed(setup: Setup, s: State, step: Step)
    requires WellConfigured(setup) && Progressing(setup, s) && Possible(s, step) && Harmless(setup, s, step)
    ensures Timed(setup, Next(setup, s, step))
  {
    match step
    case StepCreate(t, client, service, near) =>
      CreateKeepsTimed(setup, s, t, Trip(client, service, Pending, None, s.now, s.now), near);
    case StepUpdateStatus(t, actor, to) =>
      UpdateStatusSettles(s, t, actor, to);
      SettlingKeepsTimed(setup, s, UpdateStatus(s, t, actor, to).state);
    case StepDecline(t, d, near) =>
      if t in s.trips && Notified(s, Pair(t, d)) { AnswerKeepsTimed(setup, s, t, d, DriverDeclined, near); }
    case StepWsDecline(t, d, near) => WsDeclineKeepsTimed(setup, s, t, d, near);
    case StepRearm(p) => RearmKeepsTimed(setup, s, p);
    case StepJob(j, near) =>
      TimeoutIsDrop(setup, s, j, near);
      AnswerKeepsTimed(setup, s, s.jobs[j].pair.trip, s.jobs[j].pair.driver, TimedOut, near);
    case StepSweepPending(_, _, _) => SweepKeepsTimed(setup, s, step);
    case StepSweepStale(stale) =>
      SweepStaleSettles(s, stale);
      SettlingKeepsTimed(setup, s, SweepStaleAll(s, stale));
    case StepClock(time) => ClockKeepsTimed(setup, s, time);
    case _ =>
      RowWriteSettles(setup, s, step);
      SettlingKeepsTimed(setup, s, Next(setup, s, step));
  }

  // -------------------------------------------------------------------- theorems

  lemma {:induction false} HarmlessIsRun(setup: Setup, run: seq<Step>)
    requires IsHarmlessRun(setup, run)
    ensures IsRun(setup, run)
  {
    if run != [] {
      HarmlessIsRun(setup, run[..|run| - 1]);
    }
  }

  lemma {:induction false} HarmlessRunProgresses(setup: Setup, run: seq<Step>)
    requires WellConfigured(setup) && IsHarmlessRun(setup, run)
    ensures Progressing(setup, After(setup, run))
  {
    if run != [] {
      var front := run[..|run| - 1];
      HarmlessRunProgresses(setup, front);
      HarmlessStepKeepsInvariant(setup, After(setup, front), run[|run| - 1]);
      StepKeepsTimed(setup, After(setup, front), run[|run| - 1]);
    }
  }

  /** Harmless runs need no sweep for this: every pending trip's counter is refreshed in time. */
  lemma {:induction false} HarmlessRunNeverLapses(setup: Setup, run: seq<Step>, t: TripId)
    requires WellConfigured(setup) && IsHarmlessRun(setup, run)
    ensures Tallied(setup, run, t).lapses == 0 && Tallied(setup, run, t).revivals == 0
  {
    if run != [] {
      var front := run[..|run| - 1];
      var s := After(setup, front);
      HarmlessRunNeverLapses(setup, front, t);
      HarmlessRunProgresses(setup, front);
      if IsPending(s, t) {
        PendingNeverLapses(setup, s, run[|run| - 1], t);
      }
    }
  }

  /**
   With c.again sweep re-dispatches a trip has at most max + again waves, each answer used up
   one of their notifications, and a pending trip is younger than its waves can last.
   */
  ghost predicate InTime(setup: Setup, s: State, t: TripId, c: Tally)
    requires t in s.trips
  {
    var most := AtLeastOne(MaxAttempts(setup, s, t)) + c.again;
    c.waves <= most && c.answers <= c.notices && AtMost(c.notices, c.waves, MaxAttempts(setup, s, t)) &&
    (IsPending(s, t) ==>
      RoundsOf(s, t) == c.waves && AtMost(s.now - s.trips[t].createdAt, most, WaveMs(setup, s.trips[t].service)))
  }

  lemma TallyIsInTime(setup: Setup, s: State, t: TripId, c: Tally)
    requires Progressing(setup, s) && t in s.trips && TallyHolds(setup, s, t, c) && c.lapses == 0 && c.revivals == 0
    ensures InTime(setup, s, t, c)
  {
    UnlapsedBounds(setup, s, t, c);
    if IsPending(s, t) {
      AwaitingIsOnTime(setup, s, t);
      var age := s.now - s.trips[t].createdAt;
      AtMostIsMonotone(age, age, c.waves, AtLeastOne(MaxAttempts(setup, s, t)) + c.again,
                       WaveMs(setup, s.trips[t].service));
    }
  }

  /** In harmless runs dispatching terminates in time too; only the sweeps can raise the bounds. */
  lemma HarmlessDispatchIsInTime(setup: Setup, run: seq<Step>, t: TripId, s: State, c: Tally)
    requires WellConfigured(setup) && IsHarmlessRun(setup, run)
    requires s == After(setup, run) && c == Tallied(setup, run, t) && t in s.trips
    ensures InTime(setup, s, t, c)
  {
    HarmlessIsRun(setup, run);
    HarmlessRunProgresses(setup, run);
    HarmlessRunNeverLapses(setup, run, t);
    TallyHoldsInRun(setup, run, t);
    TallyIsInTime(setup, s, t, c);
  }
}
