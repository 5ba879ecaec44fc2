/**
 Dispatching is bounded in every run, jobs late or lost, unchecked declines and re-arms
 included: an answer uses up a notification, a wave notifies at most the configured maximum,
 and the waves of a trip are limited by that maximum, the sweeps' re-dispatches and the
 lapses of its rounds counter. Sweeps that keep up rule the lapses out.
 */
module DispatchWaves {
  import opened Prelude
  import opened TripLifecycle
  import opened DispatchModel
  import opened DispatchConsistency
  import opened DispatchRuns
  import opened DispatchRecovery
  import opened DispatchGuarded

  // ------------------------------------------------------------ products and sizes

  /** `total` is at most `each` for every one of `count`. */
  ghost predicate AtMost(total: int, count: nat, each: nat) {
    total <= count * each
  }

  lemma OneMoreWave(rounds: nat, wave: nat)
    ensures (rounds + 1) * wave == rounds * wave + wave
  {}

  lemma OneMoreAtMost(total: int, x: int, count: nat, each: nat)
    requires AtMost(total, count, each) && x <= each
    ensures AtMost(total + x, count + 1, each)
  {
    OneMoreWave(count, each);
  }

  lemma AtMostIsMonotone(x: int, total: int, a: nat, b: nat, each: nat)
    requires x <= total && AtMost(total, a, each) && a <= b
    ensures AtMost(x, b, each)
  {}

  lemma SubsetIsSmaller(a: set<DriverId>, b: set<DriverId>)
    requires a <= b
    ensures |a| + |b - a| == |b|
  {
    assert b == a + (b - a);
  }

  lemma SubsetOfUnion(x: set<DriverId>, a: set<DriverId>, b: set<DriverId>)
    requires x <= a + b
    ensures |x| <= |a| + |b|
  {
    SubsetIsSmaller(x, a + b);
    SubsetIsSmaller(a, a + b);
    SubsetIsSmaller((a + b) - a, b);
  }

  // ------------------------------------------------------------- what a step is to a trip

  /** The retry check for trip `t` finds room for another wave. */
  predicate Retries(setup: Setup, s: State, t: TripId) {
    IsPending(s, t) && NotifiedDrivers(s, t) == {} && RoundsOf(s, t) < MaxAttempts(setup, s, t)
  }

  /** The step calls attemptDispatch for trip `t`. */
  ghost predicate Dispatches(setup: Setup, s: State, step: Step, t: TripId) {
    match step
    case StepCreate(u, _, _, _) => u == t
    case StepDecline(u, d, _) =>
      u == t && t in s.trips && Notified(s, Pair(t, d)) && Retries(setup, Drop(s, t, {d}, DriverDeclined), t)
    case StepWsDecline(u, d, _) => u == t && Retries(setup, Drop(s, t, {d}, DriverDeclined), t)
    case StepJob(j, _) => j in s.jobs && s.jobs[j].pair.trip == t && Retries(setup, TimedOutBy(s, j), t)
    case StepSweepPending(_, _, _) => Redispatches(s, step, t)
    case _ => false
  }

  /** The pair whose decline or timeout the step handles. */
  function AnsweredPair(s: State, step: Step): Option<Pair> {
    match step
    case StepDecline(t, d, _) => Some(Pair(t, d))
    case StepWsDecline(t, d, _) => Some(Pair(t, d))
    case StepJob(j, _) => if j in s.jobs then Some(s.jobs[j].pair) else None
    case _ => None
  }

  /** The driver waiting on trip `t` whose decline or timeout the step handles. */
  function AnsweredBy(s: State, step: Step, t: TripId): set<DriverId> {
    match AnsweredPair(s, step)
    case Some(p) => if p.trip == t && Notified(s, p) then {p.driver} else {}
    case None => {}
  }

  /** The driver whose timed-out attempt on trip `t` the step puts back to waiting. */
  function RevivedBy(s: State, step: Step, t: TripId): set<DriverId> {
    match step
    case StepRearm(p) =>
      if p.trip == t && Rearmable(s, p) && !AcceptedByAnother(s, p) && s.attempts[p].status == TimedOut
      then {p.driver} else {}
    case _ => {}
  }

  /** The rounds counter of trip `t` expires in this step. */
  predicate Lapses(s: State, step: Step, t: TripId) {
    step.StepClock? && t in s.rounds && s.rounds[t].expiresAt <= step.time
  }

  /** What a step does to one trip's counter and waiting drivers. */
  ghost predicate Accounts(setup: Setup, s: State, s': State, t: TripId, dispatched: bool, lapsed: bool,
                           answered: set<DriverId>, revived: set<DriverId>)
    requires t in s'.trips
  {
    (IsPending(s', t) ==>
      RoundsOf(s', t) == if lapsed then 0 else RoundsOf(s, t) + if dispatched then 1 else 0) &&
    (if dispatched then |NotifiedDrivers(s', t)| <= MaxAttempts(setup, s', t)
     else NotifiedDrivers(s', t) <= NotifiedDrivers(s, t) - answered + revived) &&
    answered <= NotifiedDrivers(s, t)
  }

  ghost predicate TripAccounted(setup: Setup, s: State, step: Step, s': State, t: TripId)
    requires t in s'.trips
  {
    Accounts(setup, s, s', t, Dispatches(setup, s, step, t), Lapses(s, step, t),
             AnsweredBy(s, step, t), RevivedBy(s, step, t))
  }

  /** Nobody is newly awaited, and the counter is the same if the trip is pending. */
  ghost predicate Calm(s: State, s': State, t: TripId) {
    NotifiedDrivers(s', t) <= NotifiedDrivers(s, t) && (IsPending(s', t) ==> RoundsOf(s', t) == RoundsOf(s, t))
  }

  lemma CalmIsAccounted(setup: Setup, s: State, step: Step, s': State, t: TripId)
    requires t in s'.trips && Calm(s, s', t)
    requires !Dispatches(setup, s, step, t) && AnsweredBy(s, step, t) == {} && !Lapses(s, step, t)
    ensures TripAccounted(setup, s, step, s', t)
  {}

  lemma WaitsIffNotified(s: State, t: TripId, d: DriverId)
    ensures d in NotifiedDrivers(s, t) <==> Notified(s, Pair(t, d))
  {}

  lemma FewerNotifiedIsCalm(s: State, s': State, t: TripId)
    requires forall p: Pair :: p.trip == t && Notified(s', p) ==> Notified(s, p)
    requires IsPending(s', t) ==> RoundsOf(s', t) == RoundsOf(s, t)
    ensures Calm(s, s', t)
  {
    forall d | d in NotifiedDrivers(s', t) ensures d in NotifiedDrivers(s, t) {
      assert Notified(s', Pair(t, d));
    }
  }

  lemma CalmIsTransitive(a: State, b: State, c: State, t: TripId)
    requires Calm(a, b, t) && Calm(b, c, t) && (IsPending(c, t) ==> IsPending(b, t))
    ensures Calm(a, c, t)
  {}

  lemma DropRemoves(s: State, t: TripId, d: DriverId, to: AttemptStatus)
    requires to != DriverNotified
    ensures NotifiedDrivers(Drop(s, t, {d}, to), t) == NotifiedDrivers(s, t) - {d}
  {
    var s' := Drop(s, t, {d}, to);
    forall x ensures x in NotifiedDrivers(s', t) <==> x in NotifiedDrivers(s, t) - {d} {
      WaitsIffNotified(s', t, x);
      WaitsIffNotified(s, t, x);
    }
  }

  lemma TimeoutRemoves(s: State, j: JobId)
    requires j in s.jobs
    ensures var p := s.jobs[j].pair;
      NotifiedDrivers(TimedOutBy(s, j), p.trip) == NotifiedDrivers(s, p.trip) - {p.driver}
  {
    var p := s.jobs[j].pair;
    var s' := TimedOutBy(s, j);
    forall x ensures x in NotifiedDrivers(s', p.trip) <==> x in NotifiedDrivers(s, p.trip) - {p.driver} {
      WaitsIffNotified(s', p.trip, x);
      WaitsIffNotified(s, p.trip, x);
    }
  }

  // ------------------------------------------------------------------ one dispatch

  /** A dispatch counts one round and notifies at most the maximum, or the trip is no longer pending. */
  lemma DispatchAccounts(setup: Setup, s: State, t: TripId, near: seq<DriverId>)
    requires Consistent(s) && IsPending(s, t) && NotifiedDrivers(s, t) == {}
    ensures var s' := AttemptDispatch(setup, s, t, s.trips[t].service, near);
      (IsPending(s', t) ==> RoundsOf(s', t) == RoundsOf(s, t) + 1) &&
      |NotifiedDrivers(s', t)| <= MaxAttempts(setup, s, t)
  {
    var s1 := BumpRounds(s, t);
    BumpRoundsWithin(s, t);
    assert NotifiedDrivers(s1, t) == {};
    var c := setup.config(s.trips[t].service);
    FailTripKeepsWaiting(s1, t);
    var ds := Take(Candidates(s1, near), c.maxAttempts);
    WaveNotifiesFew(c, s1, t, ds);
    FailTripKeepsWaiting(Wave(c, s1, t, ds).state, t);
  }

  lemma WaveNotifiesFew(c: DispatchConfig, s: State, t: TripId, ds: seq<DriverId>)
    requires Consistent(s) && IsPending(s, t) && NotifiedDrivers(s, t) == {}
    ensures var s' := Wave(c, s, t, ds).state;
      s'.rounds == s.rounds && |NotifiedDrivers(s', t)| <= |ds|
  {
    WaveWithin(c, s, t, ds);
    WaveNotifies(c, s, t, ds);
    MembersAreFew(Wave(c, s, t, ds).notified);
  }

  lemma FailTripKeepsWaiting(s: State, t: TripId)
    ensures !IsPending(FailTrip(s, t), t) && NotifiedDrivers(FailTrip(s, t), t) == NotifiedDrivers(s, t)
  {
    assert FailTrip(s, t).attempts == s.attempts;
  }

  /** The retry check dispatches, fails the trip, or leaves it alone. */
  lemma RetryAccounts(setup: Setup, s: State, t: TripId, near: seq<DriverId>)
    requires Consistent(s)
    ensures var s' := CheckAndRetry(setup, s, t, near);
      (IsPending(s', t) ==> RoundsOf(s', t) == RoundsOf(s, t) + if Retries(setup, s, t) then 1 else 0) &&
      (if Retries(setup, s, t) then |NotifiedDrivers(s', t)| <= MaxAttempts(setup, s, t)
       else NotifiedDrivers(s', t) == NotifiedDrivers(s, t))
  {
    if Retries(setup, s, t) {
      DispatchAccounts(setup, s, t, near);
    } else {
      FailTripKeepsWaiting(s, t);
    }
  }

  // -------------------------------------------------------------------- every step

  /** An answer of `p`, then the retry check: `m` is the state in between. */
  lemma AnswerAccounts(setup: Setup, s: State, m: State, near: seq<DriverId>, p: Pair, t: TripId)
    requires Consistent(m) && Within(s, m, p.trip) && t in s.trips && m.trips == s.trips && m.rounds == s.rounds
    requires NotifiedDrivers(m, p.trip) == NotifiedDrivers(s, p.trip) - {p.driver}
    ensures var s' := CheckAndRetry(setup, m, p.trip, near);
      t in s'.trips && Accounts(setup, s, s', t, t == p.trip && Retries(setup, m, t), false,
                                if t == p.trip && Notified(s, p) then {p.driver} else {}, {})
  {
    var s' := CheckAndRetry(setup, m, p.trip, near);
    CheckAndRetryWithin(setup, m, p.trip, near);
    if t == p.trip {
      RetryAccounts(setup, m, t, near);
      RetryOfSame(setup, s, m, s', p, t);
    } else {
      OthersKeptIsSameTrip(s, m, p.trip, t);
      OthersKeptIsSameTrip(m, s', p.trip, t);
    }
  }

  lemma RetryOfSame(setup: Setup, s: State, m: State, s': State, p: Pair, t: TripId)
    requires t == p.trip && t in s.trips && t in m.trips && t in s'.trips
    requires m.trips == s.trips && m.rounds == s.rounds && s'.trips[t].service == m.trips[t].service
    requires NotifiedDrivers(m, t) == NotifiedDrivers(s, t) - {p.driver}
    requires IsPending(s', t) ==> RoundsOf(s', t) == RoundsOf(m, t) + if Retries(setup, m, t) then 1 else 0
    requires if Retries(setup, m, t) then |NotifiedDrivers(s', t)| <= MaxAttempts(setup, m, t)
             else NotifiedDrivers(s', t) == NotifiedDrivers(m, t)
    ensures Accounts(setup, s, s', t, Retries(setup, m, t), false, if Notified(s, p) then {p.driver} else {}, {})
  {
    WaitsIffNotified(s, t, p.driver);
  }

  /** The step is the handled answer of `p` that leads to `m` before its retry check. */
  ghost predicate Answers(setup: Setup, s: State, step: Step, m: State, p: Pair) {
    AnsweredPair(s, step) == Some(p) &&
    match step
    case StepDecline(_, _, _) => p.trip in s.trips && Notified(s, p) && m == Drop(s, p.trip, {p.driver}, DriverDeclined)
    case StepWsDecline(_, _, _) => m == Drop(s, p.trip, {p.driver}, DriverDeclined)
    case StepJob(j, _) => m == TimedOutBy(s, j)
    case _ => false
  }

  lemma AnswerIsAccounted(setup: Setup, s: State, step: Step, m: State, p: Pair, s': State, t: TripId)
    requires Answers(setup, s, step, m, p) && t in s'.trips
    requires Accounts(setup, s, s', t, t == p.trip && Retries(setup, m, t), false,
                      if t == p.trip && Notified(s, p) then {p.driver} else {}, {})
    ensures TripAccounted(setup, s, step, s', t)
  {
    assert Dispatches(setup, s, step, t) <==> t == p.trip && Retries(setup, m, t);
  }

  lemma DeclineStays(s: State, t: TripId, d: DriverId)
    requires Consistent(s)
    ensures var m := Drop(s, t, {d}, DriverDeclined);
      Consistent(m) && Within(s, m, t) && m.trips == s.trips && m.rounds == s.rounds &&
      NotifiedDrivers(m, t) == NotifiedDrivers(s, t) - {d}
  {
    DropStaysConsistent(s, t, {d}, DriverDeclined);
    DropWithin(s, t, {d}, DriverDeclined);
    DropRemoves(s, t, d, DriverDeclined);
  }

  /** The decline goes past the check for an active attempt, if there is one. */
  predicate IsDeclineOf(s: State, step: Step, p: Pair) {
    (step.StepWsDecline? && Pair(step.trip, step.driver) == p) ||
    (step.StepDecline? && Pair(step.trip, step.driver) == p && p.trip in s.trips && Notified(s, p))
  }

  lemma DeclineAccounts(setup: Setup, s: State, step: Step, p: Pair, near: seq<DriverId>, t: TripId)
    requires Consistent(s) && t in s.trips && IsDeclineOf(s, step, p)
    ensures var s' := HandleDriverDeclineAndRetry(setup, s, p.trip, p.driver, near);
      t in s'.trips && TripAccounted(setup, s, step, s', t)
  {
    var m := Drop(s, p.trip, {p.driver}, DriverDeclined);
    DeclineStays(s, p.trip, p.driver);
    AnswerAccounts(setup, s, m, near, p, t);
    AnswerIsAccounted(setup, s, step, m, p, CheckAndRetry(setup, m, p.trip, near), t);
  }

  lemma RefusedDeclineAccounts(setup: Setup, s: State, step: Step, t: TripId)
    requires Consistent(s) && t in s.trips && step.StepDecline?
    requires step.trip !in s.trips || !Notified(s, Pair(step.trip, step.driver))
    ensures TripAccounted(setup, s, step, s, t)
  {
    CalmIsAccounted(setup, s, step, s, t);
  }

  lemma JobAccounts(setup: Setup, s: State, step: Step, t: TripId)
    requires Consistent(s) && t in s.trips && step.StepJob? && step.job in s.jobs
    ensures var s' := ProcessJob(setup, s, step.job, step.near);
      t in s'.trips && TripAccounted(setup, s, step, s', t)
  {
    TimedOutIsWithin(s, step.job);
    TimeoutRemoves(s, step.job);
    JobIsTimeoutThenRetry(setup, s, step.job, step.near);
    var p := s.jobs[step.job].pair;
    var m := TimedOutBy(s, step.job);
    AnswerAccounts(setup, s, m, step.near, p, t);
    AnswerIsAccounted(setup, s, step, m, p, CheckAndRetry(setup, m, p.trip, step.near), t);
  }

  lemma NewRowAwaitsNobody(s: State, t: TripId)
    requires RowsExist(s) && t !in s.trips
    ensures NotifiedDrivers(s, t) == {} && RoundsOf(s, t) == 0
  {
    assert forall d :: d in NotifiedDrivers(s, t) ==> Notified(s, Pair(t, d));
  }

  lemma CreateAccounts(setup: Setup, s: State, step: Step, t: TripId)
    requires Consistent(s) && step.StepCreate? && step.trip !in s.trips && (t in s.trips || t == step.trip)
    ensures var s' := Next(setup, s, step); t in s'.trips && TripAccounted(setup, s, step, s', t)
  {
    var u := step.trip;
    var s1 := s.(trips := s.trips[u := Trip(step.client, step.service, Pending, None, s.now, s.now)]);
    NewRowIsLater(s, s1, u);
    assert forall v :: NotifiedDrivers(s1, v) == NotifiedDrivers(s, v);
    AttemptDispatchWithin(setup, s1, u, step.service, step.near);
    NewRowAwaitsNobody(s, u);
    if t == u {
      DispatchAccounts(setup, s1, t, step.near);
    }
    CreationIsAccounted(setup, s, step, s1, AttemptDispatch(setup, s1, u, step.service, step.near), t);
  }

  lemma CreationIsAccounted(setup: Setup, s: State, step: Step, m: State, s': State, t: TripId)
    requires step.StepCreate? && t in m.trips && Within(m, s', step.trip)
    requires m.rounds == s.rounds && NotifiedDrivers(m, t) == NotifiedDrivers(s, t)
    requires t == step.trip ==> (IsPending(s', t) ==> RoundsOf(s', t) == RoundsOf(s, t) + 1) &&
                                |NotifiedDrivers(s', t)| <= MaxAttempts(setup, m, t)
    ensures t in s'.trips && TripAccounted(setup, s, step, s', t)
  {
    if t != step.trip {
      OthersKeptIsSameTrip(m, s', step.trip, t);
      CalmIsAccounted(setup, s, step, s', t);
    }
  }

  predicate IsDueAgain(s: State, quiet: bool, t: TripId, near: map<TripId, seq<DriverId>>)
    requires t in s.trips
  {
    var age := s.now - s.trips[t].createdAt;
    t in near && (quiet ==> age >= REDISPATCH_MIN_AGE_MS) && age <= REDISPATCH_MAX_AGE_MS
  }

  ghost predicate SweptAccounted(setup: Setup, s: State, s': State, t: TripId, again: bool)
    requires t in s.trips
  {
    if again then (IsPending(s', t) ==> RoundsOf(s', t) == RoundsOf(s, t) + 1) &&
                  |NotifiedDrivers(s', t)| <= MaxAttempts(setup, s, t)
    else Calm(s, s', t)
  }

  lemma SweepOneAccounts(setup: Setup, s: State, quiet: bool, t: TripId, near: map<TripId, seq<DriverId>>)
    requires Consistent(s) && IsPending(s, t)
    ensures SweptAccounted(setup, s, SweepOne(setup, s, quiet, t, near), t, IsDueAgain(s, quiet, t, near))
  {
    var age := s.now - s.trips[t].createdAt;
    if !(quiet && age < REDISPATCH_MIN_AGE_MS) {
      if age > REDISPATCH_MAX_AGE_MS {
        FailTripKeepsWaiting(s, t);
      } else {
        RedispatchAccounts(setup, s, t, near);
      }
    }
  }

  lemma RedispatchAccounts(setup: Setup, s: State, t: TripId, near: map<TripId, seq<DriverId>>)
    requires Consistent(s) && IsPending(s, t)
    ensures SweptAccounted(setup, s, Redispatch(setup, s, t, near), t, t in near)
  {
    var s1 := ReleaseLocksForTrip(s, t);
    DropStaysConsistent(s, t, NotifiedDrivers(s, t), TimedOut);
    ReleaseEmpties(s, t);
    if t in near {
      DispatchAccounts(setup, s1, t, near[t]);
    } else {
      FailTripKeepsWaiting(s1, t);
    }
  }

  lemma ReleaseEmpties(s: State, t: TripId)
    ensures NotifiedDrivers(ReleaseLocksForTrip(s, t), t) == {}
  {}

  lemma SweepAccounts(setup: Setup, s: State, step: Step, t: TripId)
    requires Consistent(s) && Possible(s, step) && step.StepSweepPending? && t in s.trips
    requires t in Next(setup, s, step).trips && Next(setup, s, step).trips[t].service == s.trips[t].service
    ensures TripAccounted(setup, s, step, Next(setup, s, step), t)
  {
    var m := SweepFocus(setup, s, step.quiet, step.order, step.nearOf, t);
    var swept := SweepAll(setup, s, step.quiet, step.order, step.nearOf);
    StampIsSameTrip(swept, Next(setup, s, step), t);
    if t in step.order {
      assert IsPending(s, t);
      SweepOneAccounts(setup, m, step.quiet, t, step.nearOf);
      FocusAccounts(setup, s, step, m, SweepOne(setup, m, step.quiet, t, step.nearOf), Next(setup, s, step), t);
    } else {
      CalmIsAccounted(setup, s, step, Next(setup, s, step), t);
    }
  }

  lemma StampIsSameTrip(s: State, s': State, t: TripId)
    requires s' == s.(lastSweep := s'.lastSweep)
    ensures SameTrip(s, s', t)
  {
    assert s'.attempts == s.attempts;
  }

  lemma FocusAccounts(setup: Setup, s: State, step: Step, m: State, m': State, s': State, t: TripId)
    requires step.StepSweepPending? && t in step.order && t in s.trips && t in s'.trips
    requires s'.trips[t].service == s.trips[t].service && SameTrip(s, m, t) && SameTrip(m', s', t)
    requires SweptAccounted(setup, m, m', t, IsDueAgain(m, step.quiet, t, step.nearOf))
    ensures TripAccounted(setup, s, step, s', t)
  {
    assert IsDueAgain(m, step.quiet, t, step.nearOf) <==> Redispatches(s, step, t);
  }

  lemma UpdateStatusIsCalm(s: State, u: TripId, actor: Actor, to: TripStatus, t: TripId)
    ensures Calm(s, UpdateStatus(s, u, actor, to).state, t)
  {
    if UpdateStatus(s, u, actor, to).outcome == Done {
      if to == Accepted {
        AcceptIsCalm(s, u, actor.profile.value, t);
      } else {
        FewerNotifiedIsCalm(s, UpdateStatus(s, u, actor, to).state, t);
      }
    }
  }

  lemma AcceptIsCalm(s: State, u: TripId, d: DriverId, t: TripId)
    requires u in s.trips
    ensures Calm(s, AssignDriver(HandleDriverAccept(s, u, d), u, d), t)
  {
    FewerNotifiedIsCalm(s, AssignDriver(HandleDriverAccept(s, u, d), u, d), t);
  }

  lemma {:induction false} SweepStaleIsCalm(s: State, stale: seq<TripId>, t: TripId)
    ensures Calm(s, SweepStaleAll(s, stale), t) && (IsPending(SweepStaleAll(s, stale), t) ==> IsPending(s, t))
  {
    if stale != [] {
      var n := |stale| - 1;
      var m := SweepStaleAll(s, stale[..n]);
      SweepStaleIsCalm(s, stale[..n], t);
      SweepStaleOneIsCalm(m, stale[n], t);
      CalmIsTransitive(s, m, SweepStaleOne(m, stale[n]), t);
    }
  }

  lemma SweepStaleOneIsCalm(s: State, u: TripId, t: TripId)
    ensures Calm(s, SweepStaleOne(s, u), t) && (IsPending(SweepStaleOne(s, u), t) ==> IsPending(s, t))
  {
    FewerNotifiedIsCalm(s, SweepStaleOne(s, u), t);
  }

  lemma RearmRevives(s: State, p: Pair, t: TripId, d: DriverId)
    requires Notified(Rearm(s, p), Pair(t, d)) && !Notified(s, Pair(t, d))
    ensures RevivedBy(s, StepRearm(p), t) == {d}
  {}

  lemma RearmAdds(s: State, p: Pair, t: TripId)
    ensures NotifiedDrivers(Rearm(s, p), t) <= NotifiedDrivers(s, t) + RevivedBy(s, StepRearm(p), t)
  {
    forall d | d in NotifiedDrivers(Rearm(s, p), t) && d !in NotifiedDrivers(s, t)
      ensures d in RevivedBy(s, StepRearm(p), t)
    {
      RearmRevives(s, p, t, d);
    }
  }

  lemma RearmAccounts(setup: Setup, s: State, p: Pair, t: TripId)
    requires t in s.trips
    ensures t in Rearm(s, p).trips && TripAccounted(setup, s, StepRearm(p), Rearm(s, p), t)
  {
    RearmAdds(s, p, t);
    RearmedIsAccounted(setup, s, p, Rearm(s, p), t);
  }

  lemma RearmedIsAccounted(setup: Setup, s: State, p: Pair, s': State, t: TripId)
    requires t in s.trips && s'.trips == s.trips && s'.rounds == s.rounds
    requires NotifiedDrivers(s', t) <= NotifiedDrivers(s, t) + RevivedBy(s, StepRearm(p), t)
    ensures TripAccounted(setup, s, StepRearm(p), s', t)
  {
    assert AnsweredBy(s, StepRearm(p), t) == {};
  }

  lemma ClockAccounts(setup: Setup, s: State, time: int, t: TripId)
    requires t in s.trips
    ensures TripAccounted(setup, s, StepClock(time), AdvanceClock(s, time), t)
  {
    assert AdvanceClock(s, time).attempts == s.attempts;
  }

  lemma QuietStepIsCalm(setup: Setup, s: State, step: Step, t: TripId)
    requires step.StepComplete? || step.StepConfirmPayment? || step.StepLoseJob?
    ensures Calm(s, Next(setup, s, step), t)
  {
    FewerNotifiedIsCalm(s, Next(setup, s, step), t);
  }

  lemma StepAccounts(setup: Setup, s: State, step: Step, t: TripId)
    requires Consistent(s) && Possible(s, step) && t in Next(setup, s, step).trips
    ensures TripAccounted(setup, s, step, Next(setup, s, step), t)
  {
    var s' := Next(setup, s, step);
    StepIsSound(setup, s, step);
    if t in s.trips {
      assert RowFollows(s.trips[t], s'.trips[t]);
    }
    match step
    case StepCreate(_, _, _, _) => CreateAccounts(setup, s, step, t);
    case StepDecline(u, d, near) =>
      if u in s.trips && Notified(s, Pair(u, d)) {
        DeclineAccounts(setup, s, step, Pair(u, d), near, t);
      } else {
        RefusedDeclineAccounts(setup, s, step, t);
      }
    case StepWsDecline(u, d, near) => DeclineAccounts(setup, s, step, Pair(u, d), near, t);
    case StepJob(_, _) => JobAccounts(setup, s, step, t);
    case StepSweepPending(_, _, _) => SweepAccounts(setup, s, step, t);
    case StepRearm(p) => RearmAccounts(setup, s, p, t);
    case StepClock(time) => ClockAccounts(setup, s, time, t);
    case StepUpdateStatus(u, actor, to) =>
      UpdateStatusIsCalm(s, u, actor, to, t);
      CalmIsAccounted(setup, s, step, s', t);
    case StepSweepStale(stale) =>
      SweepStaleIsCalm(s, stale, t);
      CalmIsAccounted(setup, s, step, s', t);
    case _ =>
      QuietStepIsCalm(setup, s, step, t);
      CalmIsAccounted(setup, s, step, s', t);
  }

  /** Trip `t` settles, or starts a round within the maximum, or waits on fewer in the same round. */
  ghost predicate MeasureFalls(setup: Setup, s: State, s': State, t: TripId)
    requires t in s.trips
  {
    !IsPending(s', t) ||
    RoundsOf(s, t) < RoundsOf(s', t) <= MaxAttempts(setup, s, t) ||
    (RoundsOf(s', t) == RoundsOf(s, t) && |NotifiedDrivers(s', t)| < |NotifiedDrivers(s, t)|)
  }

  lemma AccountLowersMeasure(setup: Setup, s: State, s': State, t: TripId, d: DriverId, dispatched: bool)
    requires t in s.trips && t in s'.trips && Accounts(setup, s, s', t, dispatched, false, {d}, {})
    requires dispatched ==> RoundsOf(s, t) < MaxAttempts(setup, s, t)
    ensures MeasureFalls(setup, s, s', t)
  {
    if !dispatched {
      SubsetIsSmaller(NotifiedDrivers(s', t), NotifiedDrivers(s, t) - {d});
      SubsetIsSmaller({d}, NotifiedDrivers(s, t));
    }
  }

  lemma AnswerOfWaiting(setup: Setup, s: State, step: Step, t: TripId, d: DriverId)
    requires IsPending(s, t) && Notified(s, Pair(t, d)) && AnsweredPair(s, step) == Some(Pair(t, d))
    ensures AnsweredBy(s, step, t) == {d} && RevivedBy(s, step, t) == {} && !Lapses(s, step, t)
    ensures Dispatches(setup, s, step, t) ==> RoundsOf(s, t) < MaxAttempts(setup, s, t)
  {}

  /**
   In every consistent state each decline and each job of an attempt that waits on a pending
   trip lowers (max - rounds, waiting drivers), late jobs and unchecked declines included.
   */
  lemma AnswerLowersMeasure(setup: Setup, s: State, step: Step, t: TripId, d: DriverId)
    requires Consistent(s) && Possible(s, step) && IsPending(s, t) && Notified(s, Pair(t, d))
    requires AnsweredPair(s, step) == Some(Pair(t, d))
    ensures MeasureFalls(setup, s, Next(setup, s, step), t)
  {
    StepIsSound(setup, s, step);
    StepAccounts(setup, s, step, t);
    AnswerOfWaiting(setup, s, step, t, d);
    AccountLowersMeasure(setup, s, Next(setup, s, step), t, d, Dispatches(setup, s, step, t));
  }

  // ---------------------------------------------------------------------- the tally

  /**
   What has happened to one trip: dispatch waves, drivers they notified, answers, re-armed
   timeouts, sweep re-dispatches, and expiries of its rounds counter while pending.
   */
  datatype Tally = Tally(waves: nat, notices: nat, answers: nat, revivals: nat, again: nat, lapses: nat)

  const NOTHING_YET := Tally(0, 0, 0, 0, 0, 0)

  ghost function Count(setup: Setup, s: State, step: Step, s': State, t: TripId, before: Tally): Tally {
    var dispatched := Dispatches(setup, s, step, t);
    Tally(before.waves + (if dispatched then 1 else 0),
          before.notices + (if dispatched then |NotifiedDrivers(s', t)| else 0),
          before.answers + |AnsweredBy(s, step, t)|,
          before.revivals + |RevivedBy(s, step, t)|,
          before.again + (if Redispatches(s, step, t) then 1 else 0),
          before.lapses + (if IsPending(s, t) && Lapses(s, step, t) then 1 else 0))
  }

  ghost function Tallied(setup: Setup, run: seq<Step>, t: TripId): Tally {
    if run == [] then NOTHING_YET
    else
      var front := run[..|run| - 1];
      Count(setup, After(setup, front), run[|run| - 1], After(setup, run), t, Tallied(setup, front, t))
  }

  function AtLeastOne(n: nat): nat {
    if n == 0 then 1 else n
  }

  function Least(a: nat, b: nat): nat {
    if a <= b then a else b
  }

  /** Every answer has used up a notification or a revival, and no wave notifies more than `max`. */
  ghost predicate NoticesAddUp(c: Tally, waiting: nat, max: nat) {
    c.answers + waiting <= c.notices + c.revivals && AtMost(c.notices, c.waves, max)
  }

  /** While pending, the counter is the number of waves exactly if it has never lapsed. */
  ghost predicate CounterCounts(c: Tally, rounds: nat) {
    1 <= c.waves && rounds <= c.waves && (rounds == c.waves <==> c.lapses == 0)
  }

  /** Between two lapses, waves that are not the sweeps' stop at the maximum. */
  ghost predicate WavesAddUp(c: Tally, pending: bool, rounds: nat, max: nat) {
    var each := AtLeastOne(max);
    if pending then AtMost(c.waves - c.again - Least(rounds, each), c.lapses, each)
    else AtMost(c.waves - c.again, c.lapses + 1, each)
  }

  ghost predicate TallyHolds(setup: Setup, s: State, t: TripId, c: Tally) {
    if t in s.trips then
      var max := MaxAttempts(setup, s, t);
      NoticesAddUp(c, |NotifiedDrivers(s, t)|, max) &&
      (IsPending(s, t) ==> CounterCounts(c, RoundsOf(s, t))) &&
      WavesAddUp(c, IsPending(s, t), RoundsOf(s, t), max)
    else
      c == NOTHING_YET && NotifiedDrivers(s, t) == {} && RoundsOf(s, t) == 0
  }

  /** What a step on an existing trip adds to its tally, as numbers. */
  ghost predicate Numbers(setup: Setup, s: State, step: Step, s': State, t: TripId)
    requires t in s.trips && t in s'.trips
  {
    var max := MaxAttempts(setup, s, t);
    var dispatched := Dispatches(setup, s, step, t);
    MaxAttempts(setup, s', t) == max && (IsPending(s', t) ==> IsPending(s, t)) &&
    (if dispatched
     then IsPending(s, t) && !Lapses(s, step, t) && |NotifiedDrivers(s', t)| <= max &&
          (Redispatches(s, step, t) || RoundsOf(s, t) < max)
     else !Redispatches(s, step, t) &&
          |NotifiedDrivers(s', t)| + |AnsweredBy(s, step, t)| <= |NotifiedDrivers(s, t)| + |RevivedBy(s, step, t)|) &&
    |AnsweredBy(s, step, t)| <= |NotifiedDrivers(s, t)| &&
    (IsPending(s', t) ==> RoundsOf(s', t) == if Lapses(s, step, t) then 0 else RoundsOf(s, t) + if dispatched then 1 else 0)
  }

  lemma DispatchNeedsRoom(setup: Setup, s: State, step: Step, t: TripId)
    requires Possible(s, step) && Dispatches(setup, s, step, t) && t in s.trips
    ensures IsPending(s, t) && !Lapses(s, step, t)
    ensures Redispatches(s, step, t) || RoundsOf(s, t) < MaxAttempts(setup, s, t)
  {}

  lemma AccountNumbers(setup: Setup, s: State, step: Step, s': State, t: TripId)
    requires t in s.trips && t in s'.trips && Possible(s, step)
    requires TripAccounted(setup, s, step, s', t) && RowFollows(s.trips[t], s'.trips[t])
    ensures Numbers(setup, s, step, s', t)
  {
    var answered, revived := AnsweredBy(s, step, t), RevivedBy(s, step, t);
    SubsetIsSmaller(answered, NotifiedDrivers(s, t));
    if Dispatches(setup, s, step, t) {
      DispatchNeedsRoom(setup, s, step, t);
    } else {
      SubsetOfUnion(NotifiedDrivers(s', t), NotifiedDrivers(s, t) - answered, revived);
    }
  }

  lemma NoticesStep(setup: Setup, s: State, step: Step, s': State, t: TripId, c: Tally)
    requires t in s.trips && t in s'.trips && Numbers(setup, s, step, s', t)
    requires NoticesAddUp(c, |NotifiedDrivers(s, t)|, MaxAttempts(setup, s, t))
    ensures NoticesAddUp(Count(setup, s, step, s', t, c), |NotifiedDrivers(s', t)|, MaxAttempts(setup, s', t))
  {
    if Dispatches(setup, s, step, t) {
      OneMoreAtMost(c.notices, |NotifiedDrivers(s', t)|, c.waves, MaxAttempts(setup, s, t));
    }
  }

  lemma CounterStep(setup: Setup, s: State, step: Step, s': State, t: TripId, c: Tally)
    requires t in s.trips && t in s'.trips && Numbers(setup, s, step, s', t)
    requires IsPending(s', t) && CounterCounts(c, RoundsOf(s, t))
    ensures CounterCounts(Count(setup, s, step, s', t, c), RoundsOf(s', t))
  {}

  lemma WavesStep(setup: Setup, s: State, step: Step, s': State, t: TripId, c: Tally)
    requires t in s.trips && t in s'.trips && Numbers(setup, s, step, s', t)
    requires WavesAddUp(c, IsPending(s, t), RoundsOf(s, t), MaxAttempts(setup, s, t))
    ensures WavesAddUp(Count(setup, s, step, s', t, c), IsPending(s', t), RoundsOf(s', t), MaxAttempts(setup, s', t))
  {
    var each := AtLeastOne(MaxAttempts(setup, s, t));
    OneMoreWave(c.lapses, each);
  }

  lemma CreationHolds(setup: Setup, s: State, step: Step, s': State, t: TripId)
    requires step.StepCreate? && step.trip == t && t !in s.trips && t in s'.trips
    requires NotifiedDrivers(s, t) == {} && RoundsOf(s, t) == 0 && TripAccounted(setup, s, step, s', t)
    ensures TallyHolds(setup, s', t, Count(setup, s, step, s', t, NOTHING_YET))
  {
    OneMoreAtMost(0, |NotifiedDrivers(s', t)|, 0, MaxAttempts(setup, s', t));
  }

  lemma NothingBeforeCreation(setup: Setup, s: State, step: Step, s': State, t: TripId)
    requires Consistent(s) && Consistent(s') && Possible(s, step) && t !in s.trips && t !in s'.trips
    requires step.StepCreate? ==> step.trip != t
    ensures TallyHolds(setup, s', t, Count(setup, s, step, s', t, NOTHING_YET))
  {
    NewRowAwaitsNobody(s, t);
    NewRowAwaitsNobody(s', t);
    assert !Dispatches(setup, s, step, t) && AnsweredBy(s, step, t) == {} && RevivedBy(s, step, t) == {};
  }

  lemma CreatedIsThere(setup: Setup, s: State, step: Step)
    requires Consistent(s) && Possible(s, step) && step.StepCreate?
    ensures step.trip in Next(setup, s, step).trips
  {
    CreateAccounts(setup, s, step, step.trip);
  }

  lemma ExistingTallyStep(setup: Setup, s: State, step: Step, s': State, t: TripId, c: Tally)
    requires t in s.trips && t in s'.trips && Numbers(setup, s, step, s', t) && TallyHolds(setup, s, t, c)
    ensures TallyHolds(setup, s', t, Count(setup, s, step, s', t, c))
  {
    NoticesStep(setup, s, step, s', t, c);
    WavesStep(setup, s, step, s', t, c);
    if IsPending(s', t) {
      CounterStep(setup, s, step, s', t, c);
    }
  }

  lemma TallyStep(setup: Setup, s: State, step: Step, s': State, t: TripId, c: Tally)
    requires Consistent(s) && Possible(s, step) && s' == Next(setup, s, step) && TallyHolds(setup, s, t, c)
    ensures TallyHolds(setup, s', t, Count(setup, s, step, s', t, c))
  {
    StepIsSound(setup, s, step);
    if t in s.trips {
      assert RowFollows(s.trips[t], s'.trips[t]);
      StepAccounts(setup, s, step, t);
      AccountNumbers(setup, s, step, s', t);
      ExistingTallyStep(setup, s, step, s', t, c);
    } else if step.StepCreate? && step.trip == t {
      CreatedIsThere(setup, s, step);
      StepAccounts(setup, s, step, t);
      CreationHolds(setup, s, step, s', t);
    } else {
      assert t !in s'.trips;
      NothingBeforeCreation(setup, s, step, s', t);
    }
  }

  // ------------------------------------------------------------------- theorems

  /**
   In every run: each answer of a trip has used up a notification or a re-armed timeout, and
   a wave notifies at most the maximum. While the trip is pending its counter is the number
   of its waves if and only if the counter has never lapsed.
   */
  lemma {:induction false} TallyHoldsInRun(setup: Setup, run: seq<Step>, t: TripId)
    requires IsRun(setup, run)
    ensures TallyHolds(setup, After(setup, run), t, Tallied(setup, run, t))
  {
    if run != [] {
      var front := run[..|run| - 1];
      TallyHoldsInRun(setup, front, t);
      RunIsConsistent(setup, front);
      TallyStep(setup, After(setup, front), run[|run| - 1], After(setup, run), t, Tallied(setup, front, t));
    }
  }

  /** Waves and answers of a trip that lapsed `c.lapses` times and was swept up `c.again` times. */
  ghost predicate WithinBounds(c: Tally, max: nat) {
    AtMost(c.waves - c.again, c.lapses + 1, AtLeastOne(max)) &&
    AtMost(c.notices, c.waves, max) && c.answers <= c.notices + c.revivals
  }

  lemma TallyBounds(setup: Setup, s: State, t: TripId, c: Tally)
    requires t in s.trips && TallyHolds(setup, s, t, c)
    ensures WithinBounds(c, MaxAttempts(setup, s, t))
  {
    OneMoreWave(c.lapses, AtLeastOne(MaxAttempts(setup, s, t)));
  }

  /**
   In every run the waves of a trip are at most (lapses + 1) * max(1, maxAttempts) plus the
   sweeps' re-dispatches, its notices at most maxAttempts for each wave, and its declines and
   timeouts at most the notices plus the re-arms of timed-out attempts.
   */
  lemma WavesAreBounded(setup: Setup, run: seq<Step>, t: TripId, s: State, c: Tally)
    requires IsRun(setup, run) && s == After(setup, run) && c == Tallied(setup, run, t) && t in s.trips
    ensures WithinBounds(c, MaxAttempts(setup, s, t))
  {
    TallyHoldsInRun(setup, run, t);
    TallyBounds(setup, s, t, c);
  }

  // ------------------------------------------------------------- when no counter lapses

  /** Every counter outlives its trip's creation by its time to live. */
  ghost predicate CountersLast(s: State) {
    forall t :: t in s.rounds && t in s.trips ==> s.trips[t].createdAt + ROUNDS_TTL_MS <= s.rounds[t].expiresAt
  }

  /** A counter of the later state was there before, or has just been written. */
  ghost predicate CountersFresh(s: State, s': State) {
    s'.now == s.now &&
    forall t :: t in s'.rounds ==>
      (t in s.rounds && s'.rounds[t] == s.rounds[t]) || s.now + ROUNDS_TTL_MS <= s'.rounds[t].expiresAt
  }

  lemma CountersFreshIsTransitive(a: State, b: State, c: State)
    requires CountersFresh(a, b) && CountersFresh(b, c)
    ensures CountersFresh(a, c)
  {}

  lemma {:induction false} WaveKeepsCounters(c: DispatchConfig, s: State, t: TripId, ds: seq<DriverId>)
    ensures Wave(c, s, t, ds).state.rounds == s.rounds && Wave(c, s, t, ds).state.now == s.now
  {
    if ds != [] {
      WaveKeepsCounters(c, s, t, ds[..|ds| - 1]);
    }
  }

  lemma DispatchFreshens(setup: Setup, s: State, t: TripId, service: Service, near: seq<DriverId>)
    ensures CountersFresh(s, AttemptDispatch(setup, s, t, service, near))
  {
    var s1 := BumpRounds(s, t);
    WaveKeepsCounters(setup.config(service), s1, t, Take(Candidates(s1, near), setup.config(service).maxAttempts));
  }

  lemma RetryFreshens(setup: Setup, s: State, t: TripId, near: seq<DriverId>)
    ensures CountersFresh(s, CheckAndRetry(setup, s, t, near))
  {
    if IsPending(s, t) {
      DispatchFreshens(setup, s, t, s.trips[t].service, near);
    }
  }

  lemma SweepOneFreshens(setup: Setup, s: State, quiet: bool, t: TripId, near: map<TripId, seq<DriverId>>)
    ensures CountersFresh(s, SweepOne(setup, s, quiet, t, near))
  {
    if t in s.trips && t in near {
      DispatchFreshens(setup, ReleaseLocksForTrip(s, t), t, s.trips[t].service, near[t]);
    }
  }

  lemma {:induction false} SweepFreshens(setup: Setup, s: State, quiet: bool, order: seq<TripId>,
                                         near: map<TripId, seq<DriverId>>)
    ensures CountersFresh(s, SweepAll(setup, s, quiet, order, near))
  {
    if order != [] {
      var n := |order| - 1;
      var m := SweepAll(setup, s, quiet, order[..n], near);
      SweepFreshens(setup, s, quiet, order[..n], near);
      SweepOneFreshens(setup, m, quiet, order[n], near);
      CountersFreshIsTransitive(s, m, SweepOne(setup, m, quiet, order[n], near));
    }
  }

  lemma {:induction false} SweepStaleFreshens(s: State, stale: seq<TripId>)
    ensures CountersFresh(s, SweepStaleAll(s, stale))
  {
    if stale != [] {
      SweepStaleFreshens(s, stale[..|stale| - 1]);
    }
  }

  lemma UpdateStatusFreshens(s: State, t: TripId, actor: Actor, to: TripStatus)
    ensures CountersFresh(s, UpdateStatus(s, t, actor, to).state)
  {}

  lemma DeclineFreshens(setup: Setup, s: State, t: TripId, d: DriverId, near: seq<DriverId>)
    ensures CountersFresh(s, HandleDriverDeclineAndRetry(setup, s, t, d, near))
  {
    RetryFreshens(setup, HandleDriverDecline(s, t, d), t, near);
  }

  lemma StepFreshens(setup: Setup, s: State, step: Step)
    requires !step.StepClock?
    ensures CountersFresh(s, Next(setup, s, step))
  {
    match step
    case StepCreate(t, client, service, near) =>
      DispatchFreshens(setup, s.(trips := s.trips[t := Trip(client, service, Pending, None, s.now, s.now)]), t, service, near);
    case StepUpdateStatus(t, actor, to) => UpdateStatusFreshens(s, t, actor, to);
    case StepDecline(t, d, near) => DeclineFreshens(setup, s, t, d, near);
    case StepWsDecline(t, d, near) => DeclineFreshens(setup, s, t, d, near);
    case StepJob(j, near) =>
      if j in s.jobs {
        JobIsTimeoutThenRetry(setup, s, j, near);
        RetryFreshens(setup, TimedOutBy(s, j), s.jobs[j].pair.trip, near);
      }
    case StepSweepPending(quiet, order, near) => SweepFreshens(setup, s, quiet, order, near);
    case StepSweepStale(stale) => SweepStaleFreshens(s, stale);
    case _ =>
  }

  lemma StepKeepsCounters(setup: Setup, s: State, step: Step, s': State, swept: int)
    requires Consistent(s) && Possible(s, step) && CountersLast(s) && WasSwept(s, swept) && s' == Next(setup, s, step)
    ensures CountersLast(s')
  {
    StepIsSound(setup, s, step);
    if !step.StepClock? {
      StepFreshens(setup, s, step);
    }
    forall t | t in s'.rounds && t in s'.trips
      ensures s'.trips[t].createdAt + ROUNDS_TTL_MS <= s'.rounds[t].expiresAt
    {
      if t in s.trips {
        assert RowFollows(s.trips[t], s'.trips[t]);
      }
    }
  }

  lemma {:induction false} RunCountersLast(setup: Setup, run: seq<Step>)
    requires IsRun(setup, run)
    ensures CountersLast(After(setup, run))
  {
    if run != [] {
      var front := run[..|run| - 1];
      RunCountersLast(setup, front);
      RunIsConsistent(setup, front);
      RunIsSwept(setup, front);
      StepKeepsCounters(setup, After(setup, front), run[|run| - 1], After(setup, run), SweptAt(setup, front));
    }
  }

  /** A counter lives an hour, and a trip that a sweep left pending was at most 120 s old then. */
  const SWEEP_MARGIN_MS := ROUNDS_TTL_MS - REDISPATCH_MAX_AGE_MS

  /** The clock never moves 58 minutes past the last sweep. */
  ghost predicate SweepsKeepUp(setup: Setup, run: seq<Step>) {
    run == [] ||
    (SweepsKeepUp(setup, run[..|run| - 1]) &&
     (run[|run| - 1].StepClock? ==> run[|run| - 1].time < SweptAt(setup, run[..|run| - 1]) + SWEEP_MARGIN_MS))
  }

  lemma KeptUpNeverLapses(s: State, step: Step, t: TripId, swept: int)
    requires CountersLast(s) && WasSwept(s, swept) && IsPending(s, t)
    requires step.StepClock? ==> step.time < swept + SWEEP_MARGIN_MS
    ensures !Lapses(s, step, t)
  {}

  lemma {:induction false} NoCounterLapses(setup: Setup, run: seq<Step>, t: TripId)
    requires IsRun(setup, run) && SweepsKeepUp(setup, run)
    ensures Tallied(setup, run, t).lapses == 0
  {
    if run != [] {
      var front := run[..|run| - 1];
      var s := After(setup, front);
      NoCounterLapses(setup, front, t);
      if IsPending(s, t) {
        RunCountersLast(setup, front);
        RunIsSwept(setup, front);
        KeptUpNeverLapses(s, run[|run| - 1], t, SweptAt(setup, front));
      }
    }
  }

  lemma {:induction false} AgainIsRedispatched(setup: Setup, run: seq<Step>, t: TripId)
    ensures Tallied(setup, run, t).again == Redispatched(setup, run, t, false)
  {
    if run != [] {
      AgainIsRedispatched(setup, run[..|run| - 1], t);
    }
  }

  lemma UnlapsedBounds(setup: Setup, s: State, t: TripId, c: Tally)
    requires t in s.trips && TallyHolds(setup, s, t, c) && c.lapses == 0
    ensures IsPending(s, t) ==> RoundsOf(s, t) == c.waves
    ensures c.waves <= AtLeastOne(MaxAttempts(setup, s, t)) + c.again
  {}

  /**
   While sweeps keep up dispatching terminates: the counter of a pending trip is the number
   of its waves, and these exceed max(1, maxAttempts) at most by the sweeps' re-dispatches.
   */
  lemma DispatchTerminates(setup: Setup, run: seq<Step>, t: TripId, s: State, c: Tally)
    requires IsRun(setup, run) && SweepsKeepUp(setup, run)
    requires s == After(setup, run) && c == Tallied(setup, run, t) && t in s.trips
    ensures IsPending(s, t) ==> RoundsOf(s, t) == c.waves
    ensures c.waves <= AtLeastOne(MaxAttempts(setup, s, t)) + Redispatched(setup, run, t, false)
    ensures AtMost(c.notices, c.waves, MaxAttempts(setup, s, t)) && c.answers <= c.notices + c.revivals
  {
    NoCounterLapses(setup, run, t);
    TallyHoldsInRun(setup, run, t);
    AgainIsRedispatched(setup, run, t);
    UnlapsedBounds(setup, s, t, c);
    TallyBounds(setup, s, t, c);
  }
}
