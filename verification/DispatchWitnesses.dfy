/**
 Runs that show the boundaries are reached: a driver with two young trips through an
 unchecked decline and through a re-arm, a given-up trip whose driver still waits, a wave
 too many after a lapsed counter, and the two edges that only the stale-trip sweep writes.
 */
module DispatchWitnesses {
  import opened Prelude
  import opened TripLifecycle
  import opened DispatchModel
  import opened DispatchConsistency
  import opened DispatchRuns
  import opened DispatchGuarded
  import opened DispatchBooking
  import opened DispatchLimits
  import opened DispatchRecovery
  import opened DispatchWaves

  const DRIVER := Actor(7, DriverRole, Some(1))

  // ------------------------------------------------------------ one trip offered

  /** Creating a trip near one free driver, with no other candidate, notifies that driver. */
  lemma CreateNearOne(setup: Setup, s: State, t: TripId, client: UserId, service: Service, d: DriverId)
    requires t !in s.trips && t !in s.rounds && d !in s.locks && setup.config(service).maxAttempts > 0
    requires forall u :: u in s.trips ==> s.trips[u].status == Pending
    requires Pair(t, d) !in s.jobKeys
    ensures var s' := CreateTrip(setup, s, t, client, service, [d]);
      s'.trips == s.trips[t := Trip(client, service, Pending, None, s.now, s.now)] && s'.now == s.now &&
      s'.attempts == s.attempts[Pair(t, d) := Attempt(DriverNotified, s.now)] &&
      s'.locks == s.locks[d := Lock(t, s.now + LockTtlMs(setup.config(service)))] &&
      s'.jobKeys.Keys == s.jobKeys.Keys + {Pair(t, d)} && s'.rounds.Keys == s.rounds.Keys + {t}
  {
    var s0 := s.(trips := s.trips[t := Trip(client, service, Pending, None, s.now, s.now)]);
    var s1 := BumpRounds(s0, t);
    var c := setup.config(service);
    assert !HasYoungTrip(s1, d);
    assert Candidates(s1, [d]) == [d] by {
      assert Candidates(s1, []) == [];
      assert [d][1..] == [];
    }
    assert Take([d], c.maxAttempts) == [d];
    assert [d][..0] == [];
    assert Wave(c, s1, t, []) == WaveResult(s1, []);
    assert Wave(c, s1, t, [d]) == WaveResult(Notify(c, s1, t, d), [] + [d]);
  }

  lemma DeclineOfUnknownTrip(setup: Setup, s: State, t: TripId, d: DriverId)
    requires t !in s.trips && (forall p :: p in s.attempts || p in s.jobKeys ==> p.trip != t)
    ensures var s' := HandleDriverDeclineAndRetry(setup, s, t, d, []);
      s'.trips == s.trips && s'.now == s.now && s'.rounds == s.rounds && s'.locks == s.locks - {d} &&
      s'.attempts == s.attempts && s'.jobKeys == s.jobKeys
  {
    var s1 := HandleDriverDecline(s, t, d);
    assert s1.attempts == s.attempts && s1.jobKeys == s.jobKeys;
  }

  /** A driver who waits on two young trips, and whose lock names the second, gets both. */
  lemma AcceptsBoth(s: State, t: TripId, u: TripId, actor: Actor)
    requires IsPending(s, t) && IsPending(s, u) && t != u && IsYoung(s, t) && IsYoung(s, u)
    requires actor.role == DriverRole && actor.profile.Some?
    requires var d := actor.profile.value; Notified(s, Pair(t, d)) && Notified(s, Pair(u, d)) && HoldsLockFor(s, u, d)
    ensures var s1 := UpdateStatus(s, t, actor, Accepted).state;
      var s2 := UpdateStatus(s1, u, actor, Accepted).state;
      s2.now == s.now && t in s2.trips && u in s2.trips &&
      Engages(s2.trips[t], actor.profile.value, s.now) && Engages(s2.trips[u], actor.profile.value, s.now)
  {
    var d := actor.profile.value;
    var s1 := UpdateStatus(s, t, actor, Accepted).state;
    assert s1 == AssignDriver(s, t, d);
    AcceptIsAssignThenDrop(s1, u, d);
  }

  // ---------------------------------------------------- by an unchecked decline

  function AfterOffer(setup: Setup): State {
    CreateTrip(setup, EMPTY_STATE, 10, 5, Ride, [1])
  }

  lemma OfferedOnce(setup: Setup)
    requires setup.config(Ride).maxAttempts > 0
    ensures var s := AfterOffer(setup);
      s.now == 0 && s.trips == map[10 := Trip(5, Ride, Pending, None, 0, 0)] &&
      s.attempts == map[Pair(10, 1) := Attempt(DriverNotified, 0)] &&
      s.locks.Keys == {1} && s.locks[1].trip == 10 && s.rounds.Keys == {10} && s.jobKeys.Keys == {Pair(10, 1)}
  {
    CreateNearOne(setup, EMPTY_STATE, 10, 5, Ride, 1);
  }

  lemma OfferedTwice(setup: Setup, s2: State)
    requires setup.config(Ride).maxAttempts > 0 && s2 == HandleDriverDeclineAndRetry(setup, AfterOffer(setup), 99, 1, [])
    ensures 11 !in s2.trips
    ensures var s := CreateTrip(setup, s2, 11, 6, Ride, [1]);
      s.now == 0 && IsPending(s, 10) && IsPending(s, 11) && IsYoung(s, 10) && IsYoung(s, 11) &&
      Notified(s, Pair(10, 1)) && Notified(s, Pair(11, 1)) && HoldsLockFor(s, 11, 1)
  {
    OfferedOnce(setup);
    DeclineOfUnknownTrip(setup, AfterOffer(setup), 99, 1);
    CreateNearOne(setup, s2, 11, 6, Ride, 1);
  }

  /** Driver 1 is asked for trip 10, declines an unrelated trip 99, is asked for 11. */
  function TwoOffers(): seq<Step> {
    [StepCreate(10, 5, Ride, [1])] + [StepWsDecline(99, 1, [])] + [StepCreate(11, 6, Ride, [1])]
  }

  lemma OneOfferRun(setup: Setup)
    ensures var run := [StepCreate(10, 5, Ride, [1])];
      IsRun(setup, run) && IsPunctualRun(setup, run) && After(setup, run) == AfterOffer(setup)
  {
    RunGrows(setup, [], StepCreate(10, 5, Ride, [1]));
    assert [] + [StepCreate(10, 5, Ride, [1])] == [StepCreate(10, 5, Ride, [1])];
  }

  lemma TwoOffersRun(setup: Setup) returns (s: State)
    requires setup.config(Ride).maxAttempts > 0
    ensures IsRun(setup, TwoOffers()) && IsPunctualRun(setup, TwoOffers()) && s == After(setup, TwoOffers())
    ensures IsPending(s, 10) && IsPending(s, 11) && IsYoung(s, 10) && IsYoung(s, 11) &&
      Notified(s, Pair(10, 1)) && Notified(s, Pair(11, 1)) && HoldsLockFor(s, 11, 1)
  {
    var run := [StepCreate(10, 5, Ride, [1])];
    OneOfferRun(setup);
    RunGrows(setup, run, StepWsDecline(99, 1, []));
    var s2 := HandleDriverDeclineAndRetry(setup, AfterOffer(setup), 99, 1, []);
    OfferedTwice(setup, s2);
    RunGrows(setup, run + [StepWsDecline(99, 1, [])], StepCreate(11, 6, Ride, [1]));
    s := CreateTrip(setup, s2, 11, 6, Ride, [1]);
  }

  ghost predicate HasTwoYoungTrips(s: State, d: DriverId, t: TripId, u: TripId) {
    t != u && t in s.trips && u in s.trips && Engages(s.trips[t], d, s.now) && Engages(s.trips[u], d, s.now)
  }

  /** Both offers accepted by driver 1. */
  function AcceptBoth(): seq<Step> {
    [StepUpdateStatus(10, DRIVER, Accepted)] + [StepUpdateStatus(11, DRIVER, Accepted)]
  }

  /** A run that ends with driver 1 waiting on two young trips goes on to give both to that driver. */
  lemma BothAreAccepted(setup: Setup, run: seq<Step>, s: State)
    requires IsRun(setup, run) && IsPunctualRun(setup, run) && s == After(setup, run)
    requires IsPending(s, 10) && IsPending(s, 11) && IsYoung(s, 10) && IsYoung(s, 11)
    requires Notified(s, Pair(10, 1)) && Notified(s, Pair(11, 1)) && HoldsLockFor(s, 11, 1)
    ensures IsPunctualRun(setup, run + AcceptBoth())
    ensures HasTwoYoungTrips(After(setup, run + AcceptBoth()), 1, 10, 11)
  {
    var first, second := StepUpdateStatus(10, DRIVER, Accepted), StepUpdateStatus(11, DRIVER, Accepted);
    AcceptsBoth(s, 10, 11, DRIVER);
    RunGrows(setup, run, first);
    RunGrows(setup, run + [first], second);
    assert run + AcceptBoth() == run + [first] + [second];
  }

  /** With unchecked declines a driver can hold two young active trips at once. */
  lemma UncheckedDeclineGivesTwoTrips(setup: Setup)
    requires setup.config(Ride).maxAttempts > 0
    ensures IsPunctualRun(setup, TwoOffers() + AcceptBoth())
    ensures HasTwoYoungTrips(After(setup, TwoOffers() + AcceptBoth()), 1, 10, 11)
  {
    var s := TwoOffersRun(setup);
    BothAreAccepted(setup, TwoOffers(), s);
  }

  // ------------------------------------------------------------------ by a re-arm

  function Seeded(): Setup { Setup(SeededConfig, 0) }

  const RIDE := Trip(5, Ride, Pending, None, 0, 0)
  const FIRST := Pair(10, 1)
  const SECOND := Pair(10, 2)

  /** Trip 10 offered to drivers 1 and 2 at time 0, seen at time `now`. */
  function BothWait(now: int): State {
    State(now, map[10 := RIDE],
          map[FIRST := Attempt(DriverNotified, 0), SECOND := Attempt(DriverNotified, 0)],
          map[1 := Lock(10, 30_000), 2 := Lock(10, 30_000)],
          map[0 := Job(FIRST, 15_000), 1 := Job(SECOND, 15_000)],
          map[FIRST := JobKey(0, 45_000), SECOND := JobKey(1, 45_000)],
          map[10 := Rounds(1, 3_600_000)], 2, 0)
  }

  /** Driver 1 timed out, driver 2 not yet. */
  const ONE_TIMED_OUT :=
    State(15_000, map[10 := RIDE],
          map[FIRST := Attempt(TimedOut, 0), SECOND := Attempt(DriverNotified, 0)],
          map[2 := Lock(10, 30_000)], map[1 := Job(SECOND, 15_000)], map[SECOND := JobKey(1, 45_000)],
          map[10 := Rounds(1, 3_600_000)], 2, 0)

  /** Driver 1 opened the application: waiting again, locked, and without a job. */
  const REARMED :=
    ONE_TIMED_OUT.(attempts := map[FIRST := Attempt(DriverNotified, 0), SECOND := Attempt(DriverNotified, 0)],
                   locks := map[1 := Lock(10, 90_000), 2 := Lock(10, 30_000)])

  /** Driver 2 timed out too; nothing is left that could end the wait of driver 1. */
  function OnlyRearmedWaits(now: int, locks: map<DriverId, Lock>): State {
    State(now, map[10 := RIDE],
          map[FIRST := Attempt(DriverNotified, 0), SECOND := Attempt(TimedOut, 0)],
          locks, map[], map[], map[10 := Rounds(1, 3_600_000)], 2, 0)
  }

  lemma OfferToTwo()
    ensures CreateTrip(Seeded(), EMPTY_STATE, 10, 5, Ride, [1, 2]) == BothWait(0)
  {
    var s1 := BumpRounds(EMPTY_STATE.(trips := map[10 := RIDE]), 10);
    var c := SeededConfig(Ride);
    assert [1, 2][1..] == [2] && [2][1..] == [] && Candidates(s1, []) == [];
    assert !HasYoungTrip(s1, 1) && !HasYoungTrip(s1, 2);
    assert Candidates(s1, [2]) == [2] && Candidates(s1, [1, 2]) == [1] + [2] == [1, 2];
    assert Take([1, 2], 3) == [1, 2];
    assert [1, 2][..1] == [1] && [1][..0] == [];
    assert Wave(c, s1, 10, []) == WaveResult(s1, []);
    var first := Notify(c, s1, 10, 1);
    assert Wave(c, s1, 10, [1]) == WaveResult(first, [] + [1]);
    var both := Notify(c, first, 10, 2);
    assert Wave(c, s1, 10, [1, 2]) == WaveResult(both, [] + [1] + [2]);
    assert both == BothWait(0);
  }

  lemma TimePasses()
    ensures AdvanceClock(BothWait(0), 15_000) == BothWait(15_000)
  {
    var s, s' := AdvanceClock(BothWait(0), 15_000), BothWait(15_000);
    assert s.locks == s'.locks && s.jobKeys == s'.jobKeys && s.rounds == s'.rounds;
  }

  lemma RetryWaits(setup: Setup, s: State, t: TripId, d: DriverId, near: seq<DriverId>)
    requires Notified(s, Pair(t, d))
    ensures CheckAndRetry(setup, s, t, near) == s
  {
    assert d in NotifiedDrivers(s, t);
  }

  lemma FirstTimeoutAttempts()
    ensures TimedOutBy(BothWait(15_000), 0).attempts == ONE_TIMED_OUT.attempts
  {}

  lemma FirstTimeoutLocks()
    ensures TimedOutBy(BothWait(15_000), 0).locks == ONE_TIMED_OUT.locks
  {}

  lemma FirstTimeoutJobs()
    ensures TimedOutBy(BothWait(15_000), 0).jobs == ONE_TIMED_OUT.jobs
  {}

  lemma FirstTimeoutKeys()
    ensures TimedOutBy(BothWait(15_000), 0).jobKeys == ONE_TIMED_OUT.jobKeys
  {}

  lemma FirstTimeoutWrites()
    ensures TimedOutBy(BothWait(15_000), 0) == ONE_TIMED_OUT
  {
    FirstTimeoutAttempts();
    FirstTimeoutLocks();
    FirstTimeoutJobs();
    FirstTimeoutKeys();
  }

  lemma FirstTimesOut()
    ensures ProcessJob(Seeded(), BothWait(15_000), 0, []) == ONE_TIMED_OUT
  {
    FirstTimeoutWrites();
    JobIsTimeoutThenRetry(Seeded(), BothWait(15_000), 0, []);
    RetryWaits(Seeded(), ONE_TIMED_OUT, 10, 2, []);
  }

  lemma FirstIsLatest()
    ensures IsLatestRequest(ONE_TIMED_OUT, FIRST) && !AcceptedByAnother(ONE_TIMED_OUT, FIRST)
  {}

  lemma FirstIsRearmed()
    ensures Rearm(ONE_TIMED_OUT, FIRST) == REARMED
  {
    FirstIsLatest();
    var s := Rearm(ONE_TIMED_OUT, FIRST);
    assert s.attempts == REARMED.attempts;
    assert s.locks == REARMED.locks;
  }

  lemma RearmedIsOutOfStep()
    ensures !Linked(Seeded(), REARMED)
  {
    assert Notified(REARMED, FIRST) && !Held(Seeded(), REARMED, FIRST);
  }

  const AFTER_BOTH := OnlyRearmedWaits(15_000, map[1 := Lock(10, 90_000)])

  lemma SecondTimesOut()
    ensures ProcessJob(Seeded(), REARMED, 1, []) == AFTER_BOTH
  {
    var m, s' := TimedOutBy(REARMED, 1), AFTER_BOTH;
    assert m.attempts == s'.attempts && m.locks == s'.locks && m.jobs == s'.jobs && m.jobKeys == s'.jobKeys;
    JobIsTimeoutThenRetry(Seeded(), REARMED, 1, []);
    RetryWaits(Seeded(), s', 10, 1, []);
  }

  lemma LockExpires()
    ensures AdvanceClock(AFTER_BOTH, 90_000) == OnlyRearmedWaits(90_000, map[])
  {
    var s, s' := AdvanceClock(AFTER_BOTH, 90_000), OnlyRearmedWaits(90_000, map[]);
    assert s.locks == s'.locks && s.jobKeys == s'.jobKeys && s.rounds == s'.rounds;
  }

  lemma OfferedMeanwhile()
    ensures var s := CreateTrip(Seeded(), OnlyRearmedWaits(90_000, map[]), 11, 6, Ride, [1]);
      IsPending(s, 10) && IsPending(s, 11) && IsYoung(s, 10) && IsYoung(s, 11) &&
      Notified(s, FIRST) && Notified(s, Pair(11, 1)) && HoldsLockFor(s, 11, 1)
  {
    CreateNearOne(Seeded(), OnlyRearmedWaits(90_000, map[]), 11, 6, Ride, 1);
  }

  /** Trip 10 is offered to drivers 1 and 2; driver 1 times out, then opens the application. */
  function Offer(): seq<Step> { [StepCreate(10, 5, Ride, [1, 2])] + [StepClock(15_000)] }
  function RearmRun(): seq<Step> { Offer() + [StepJob(0, [])] + [StepRearm(FIRST)] }

  lemma OfferedRun()
    ensures var run := [StepCreate(10, 5, Ride, [1, 2])];
      IsRun(Seeded(), run) && IsPunctualRun(Seeded(), run) && After(Seeded(), run) == BothWait(0)
  {
    var offer := StepCreate(10, 5, Ride, [1, 2]);
    OfferToTwo();
    RunGrows(Seeded(), [], offer);
    assert [] + [offer] == [offer];
  }

  lemma OfferRun()
    ensures IsRun(Seeded(), Offer()) && IsPunctualRun(Seeded(), Offer()) && After(Seeded(), Offer()) == BothWait(15_000)
  {
    OfferedRun();
    TimePasses();
    RunGrows(Seeded(), [StepCreate(10, 5, Ride, [1, 2])], StepClock(15_000));
  }

  lemma TimeoutRun()
    ensures var run := Offer() + [StepJob(0, [])];
      IsRun(Seeded(), run) && IsPunctualRun(Seeded(), run) && After(Seeded(), run) == ONE_TIMED_OUT
  {
    OfferRun();
    FirstTimesOut();
    RunGrows(Seeded(), Offer(), StepJob(0, []));
  }

  /** The re-arm leaves a waiting attempt without a job, in a run of the seeded configuration. */
  lemma RearmBreaksAgreement()
    ensures IsRun(Seeded(), RearmRun()) && IsPunctualRun(Seeded(), RearmRun())
    ensures After(Seeded(), RearmRun()) == REARMED && !Linked(Seeded(), REARMED)
  {
    TimeoutRun();
    FirstIsLatest();
    FirstIsRearmed();
    RunGrows(Seeded(), Offer() + [StepJob(0, [])], StepRearm(FIRST));
    RearmedIsOutOfStep();
  }

  /** Driver 2 times out, the re-armed lock expires, and trip 11 is offered to driver 1. */
  function RearmThenOffer(): seq<Step> {
    RearmRun() + [StepJob(1, [])] + [StepClock(90_000)] + [StepCreate(11, 6, Ride, [1])]
  }

  lemma RearmRunGoesOn()
    ensures var run := RearmRun() + [StepJob(1, [])] + [StepClock(90_000)];
      IsRun(Seeded(), run) && IsPunctualRun(Seeded(), run) && After(Seeded(), run) == OnlyRearmedWaits(90_000, map[])
  {
    RearmBreaksAgreement();
    SecondTimesOut();
    RunGrows(Seeded(), RearmRun(), StepJob(1, []));
    LockExpires();
    RunGrows(Seeded(), RearmRun() + [StepJob(1, [])], StepClock(90_000));
  }

  lemma RearmThenOfferRun() returns (s: State)
    ensures IsRun(Seeded(), RearmThenOffer()) && IsPunctualRun(Seeded(), RearmThenOffer())
    ensures s == After(Seeded(), RearmThenOffer())
    ensures IsPending(s, 10) && IsPending(s, 11) && IsYoung(s, 10) && IsYoung(s, 11) &&
      Notified(s, FIRST) && Notified(s, Pair(11, 1)) && HoldsLockFor(s, 11, 1)
  {
    RearmRunGoesOn();
    RunGrows(Seeded(), RearmRun() + [StepJob(1, [])] + [StepClock(90_000)], StepCreate(11, 6, Ride, [1]));
    OfferedMeanwhile();
    s := CreateTrip(Seeded(), OnlyRearmedWaits(90_000, map[]), 11, 6, Ride, [1]);
  }

  /** A re-arm alone, without any unchecked decline, also leads to two young trips. */
  lemma RearmGivesTwoTrips()
    ensures IsPunctualRun(Seeded(), RearmThenOffer() + AcceptBoth())
    ensures HasTwoYoungTrips(After(Seeded(), RearmThenOffer() + AcceptBoth()), 1, 10, 11)
  {
    var s := RearmThenOfferRun();
    BothAreAccepted(Seeded(), RearmThenOffer(), s);
  }

  // ------------------------------------------------- a given-up trip, still awaited

  function Fixed(c: DispatchConfig): Setup { Setup(_ => c, 0) }
  function Defaults(): Setup { Fixed(DEFAULT_CONFIG) }

  /** Trip 10 offered to its only driver at time 0. */
  const ONE_WAITS :=
    State(0, map[10 := RIDE], map[FIRST := Attempt(DriverNotified, 0)], map[1 := Lock(10, 75_000)],
          map[0 := Job(FIRST, 60_000)], map[FIRST := JobKey(0, 90_000)], map[10 := Rounds(1, 3_600_000)], 1, 0)

  /** The server was down for 130 seconds: lock and key are gone, the job has not fired yet. */
  const AFTER_DOWNTIME := ONE_WAITS.(now := 130_000, locks := map[], jobKeys := map[])

  lemma OfferToOne(c: DispatchConfig)
    requires c.maxAttempts > 0 && c == DEFAULT_CONFIG.(maxAttempts := c.maxAttempts)
    ensures CreateTrip(Fixed(c), EMPTY_STATE, 10, 5, Ride, [1]) == ONE_WAITS
  {
    var s1 := BumpRounds(EMPTY_STATE.(trips := map[10 := RIDE]), 10);
    assert Candidates(s1, []) == [] && [1][1..] == [] && !HasYoungTrip(s1, 1);
    assert Candidates(s1, [1]) == [1] + [] == [1];
    assert Take([1], c.maxAttempts) == [1] && [1][..0] == [];
    assert Wave(c, s1, 10, []) == WaveResult(s1, []);
    assert Wave(c, s1, 10, [1]) == WaveResult(Notify(c, s1, 10, 1), [] + [1]);
    assert Notify(c, s1, 10, 1) == ONE_WAITS;
  }

  lemma DowntimePasses()
    ensures AdvanceClock(ONE_WAITS, 130_000) == AFTER_DOWNTIME
  {
    var s := AdvanceClock(ONE_WAITS, 130_000);
    assert s.locks == AFTER_DOWNTIME.locks && s.jobKeys == AFTER_DOWNTIME.jobKeys && s.rounds == AFTER_DOWNTIME.rounds;
  }

  lemma BootSweepGivesUp()
    ensures IsPendingList(AFTER_DOWNTIME, [10])
    ensures SweepPending(Defaults(), AFTER_DOWNTIME, false, [10], map[]) == FailTrip(AFTER_DOWNTIME, 10)
  {
    var s := AFTER_DOWNTIME;
    assert [10][..0] == [] && SweepAll(Defaults(), s, false, [], map[]) == s;
    assert SweepAll(Defaults(), s, false, [10], map[]) == SweepOne(Defaults(), s, false, 10, map[]);
  }

  lemma GivenUpStillWaits()
    ensures var s := FailTrip(AFTER_DOWNTIME, 10);
      10 in s.trips && s.trips[10].status == CancelledAuto && Notified(s, FIRST) && 0 in s.jobs && !IsQuiet(s, 10)
  {
    assert Notified(FailTrip(AFTER_DOWNTIME, 10), FIRST);
  }

  function Downtime(): seq<Step> { [StepCreate(10, 5, Ride, [1])] + [StepClock(130_000)] }

  lemma DowntimeRun()
    ensures IsRun(Defaults(), Downtime()) && After(Defaults(), Downtime()) == AFTER_DOWNTIME
  {
    OfferToOne(DEFAULT_CONFIG);
    RunGrows(Defaults(), [], StepCreate(10, 5, Ride, [1]));
    assert [] + [StepCreate(10, 5, Ride, [1])] == [StepCreate(10, 5, Ride, [1])];
    DowntimePasses();
    RunGrows(Defaults(), [StepCreate(10, 5, Ride, [1])], StepClock(130_000));
  }

  /**
   After downtime the boot sweep gives up a trip whose driver still waits: cancelled, while
   the attempt is still open and its timeout job is still queued.
   */
  lemma GivenUpTripIsStillAwaited()
    ensures var run := Downtime() + [StepSweepPending(false, [10], map[])];
      IsRun(Defaults(), run) &&
      var s := After(Defaults(), run);
      10 in s.trips && s.trips[10].status == CancelledAuto && Notified(s, FIRST) && 0 in s.jobs && !IsQuiet(s, 10)
  {
    DowntimeRun();
    BootSweepGivesUp();
    RunGrows(Defaults(), Downtime(), StepSweepPending(false, [10], map[]));
    GivenUpStillWaits();
  }

  // ---------------------------------------------------------- a lapsed rounds counter

  const ONE_WAVE := DEFAULT_CONFIG.(maxAttempts := 1)

  /** No sweep and no job for an hour: the counter is gone too. */
  const AFTER_LAPSE := ONE_WAITS.(now := ROUNDS_TTL_MS, locks := map[], jobKeys := map[], rounds := map[])

  function Neglected(): seq<Step> {
    [StepCreate(10, 5, Ride, [1])] + [StepClock(ROUNDS_TTL_MS)] + [StepJob(0, [])]
  }

  lemma TallyGrows(setup: Setup, run: seq<Step>, step: Step, t: TripId)
    requires IsRun(setup, run) && Possible(After(setup, run), step)
    ensures Tallied(setup, run + [step], t) ==
      Count(setup, After(setup, run), step, After(setup, run + [step]), t, Tallied(setup, run, t))
  {
    assert (run + [step])[..|run|] == run;
  }

  lemma HourPasses()
    ensures AdvanceClock(ONE_WAITS, ROUNDS_TTL_MS) == AFTER_LAPSE
    ensures Lapses(ONE_WAITS, StepClock(ROUNDS_TTL_MS), 10)
  {
    var s := AdvanceClock(ONE_WAITS, ROUNDS_TTL_MS);
    assert s.locks == AFTER_LAPSE.locks && s.jobKeys == AFTER_LAPSE.jobKeys && s.rounds == AFTER_LAPSE.rounds;
  }

  lemma LateJobDispatches()
    ensures Dispatches(Fixed(ONE_WAVE), AFTER_LAPSE, StepJob(0, []), 10)
  {
    var m := TimedOutBy(AFTER_LAPSE, 0);
    assert m.attempts == map[FIRST := Attempt(TimedOut, 0)];
    assert NotifiedDrivers(m, 10) == {};
  }

  lemma CreationCounts(setup: Setup, s: State, s': State)
    ensures var c := Count(setup, s, StepCreate(10, 5, Ride, [1]), s', 10, NOTHING_YET);
      c.waves == 1 && c.again == 0 && c.lapses == 0
  {}

  lemma FirstTally(setup: Setup, step: Step, s: State, t: TripId)
    requires s == After(setup, [step])
    ensures Tallied(setup, [step], t) == Count(setup, EMPTY_STATE, step, s, t, NOTHING_YET)
  {
    assert [step][..0] == [];
  }

  lemma OneWaveSent()
    ensures var run := [StepCreate(10, 5, Ride, [1])]; var c := Tallied(Fixed(ONE_WAVE), run, 10);
      IsRun(Fixed(ONE_WAVE), run) && After(Fixed(ONE_WAVE), run) == ONE_WAITS &&
      c.waves == 1 && c.again == 0 && c.lapses == 0
  {
    OfferToOne(ONE_WAVE);
    OneOfferRun(Fixed(ONE_WAVE));
    FirstTally(Fixed(ONE_WAVE), StepCreate(10, 5, Ride, [1]), ONE_WAITS, 10);
    CreationCounts(Fixed(ONE_WAVE), EMPTY_STATE, ONE_WAITS);
  }

  lemma CounterHasLapsed()
    ensures var run := [StepCreate(10, 5, Ride, [1])] + [StepClock(ROUNDS_TTL_MS)];
      var c := Tallied(Fixed(ONE_WAVE), run, 10);
      IsRun(Fixed(ONE_WAVE), run) && After(Fixed(ONE_WAVE), run) == AFTER_LAPSE &&
      c.waves == 1 && c.again == 0 && c.lapses == 1
  {
    OneWaveSent();
    HourPasses();
    RunGrows(Fixed(ONE_WAVE), [StepCreate(10, 5, Ride, [1])], StepClock(ROUNDS_TTL_MS));
    TallyGrows(Fixed(ONE_WAVE), [StepCreate(10, 5, Ride, [1])], StepClock(ROUNDS_TTL_MS), 10);
  }

  /**
   Sweeps that do not keep up let a counter lapse, and the job that fires late sends a
   second wave where the maximum is one: no sweep has dispatched the trip again.
   */
  lemma LapseSendsAnotherWave()
    ensures IsRun(Fixed(ONE_WAVE), Neglected()) && !SweepsKeepUp(Fixed(ONE_WAVE), Neglected())
    ensures var c := Tallied(Fixed(ONE_WAVE), Neglected(), 10);
      c.lapses == 1 && c.again == 0 && c.waves == 2 > AtLeastOne(ONE_WAVE.maxAttempts) + c.again
  {
    var before := [StepCreate(10, 5, Ride, [1])] + [StepClock(ROUNDS_TTL_MS)];
    CounterHasLapsed();
    LateJobDispatches();
    RunGrows(Fixed(ONE_WAVE), before, StepJob(0, []));
    TallyGrows(Fixed(ONE_WAVE), before, StepJob(0, []), 10);
    NotKeptUp(Fixed(ONE_WAVE), [StepCreate(10, 5, Ride, [1])], StepJob(0, []));
  }

  lemma NotKeptUp(setup: Setup, run: seq<Step>, fire: Step)
    requires |run| == 1 && !run[0].StepSweepPending?
    ensures !SweepsKeepUp(setup, run + [StepClock(ROUNDS_TTL_MS)] + [fire])
  {
    var longer := run + [StepClock(ROUNDS_TTL_MS)];
    assert (longer + [fire])[..|longer + [fire]| - 1] == longer && longer[..|longer| - 1] == run;
    assert SweptAt(setup, run[..|run| - 1]) == 0;
  }

  // ----------------------------------------------------------- the stale sweep's edges

  function Taken(): seq<Step> { [StepCreate(10, 5, Ride, [1])] + [StepUpdateStatus(10, DRIVER, Accepted)] }
  function Arriving(): seq<Step> { Taken() + [StepUpdateStatus(10, DRIVER, DriverArriving)] }
  function Abandoned(): seq<Step> { [StepClock(STALE_ASSIGNED_MS + 1)] + [StepSweepStale([10])] }

  lemma TakenRun(setup: Setup)
    requires setup.config(Ride).maxAttempts > 0
    ensures IsRun(setup, Taken())
    ensures var s := After(setup, Taken());
      s.now == 0 && s.trips == map[10 := Trip(5, Ride, Accepted, Some(1), 0, 0)]
  {
    OneOfferRun(setup);
    OfferedOnce(setup);
    AcceptWritesRow(AfterOffer(setup), 10, DRIVER);
    RunGrows(setup, [StepCreate(10, 5, Ride, [1])], StepUpdateStatus(10, DRIVER, Accepted));
  }

  lemma ArrivingRun(setup: Setup)
    requires setup.config(Ride).maxAttempts > 0
    ensures IsRun(setup, Arriving())
    ensures var s := After(setup, Arriving());
      s.now == 0 && s.trips == map[10 := Trip(5, Ride, DriverArriving, Some(1), 0, 0)]
  {
    TakenRun(setup);
    RunGrows(setup, Taken(), StepUpdateStatus(10, DRIVER, DriverArriving));
    ArrivalWritesRow(After(setup, Taken()));
  }

  lemma ArrivalWritesRow(s: State)
    requires s.now == 0 && s.trips == map[10 := Trip(5, Ride, Accepted, Some(1), 0, 0)]
    ensures var s' := UpdateStatus(s, 10, DRIVER, DriverArriving).state;
      s'.now == 0 && s'.trips == map[10 := Trip(5, Ride, DriverArriving, Some(1), 0, 0)]
  {}

  lemma AbandonedIsCancelled(setup: Setup, run: seq<Step>, s: State, row: Trip)
    requires IsRun(setup, run) && s == After(setup, run) && s.now == 0
    requires s.trips == map[10 := row] && row.status in {Accepted, DriverArriving} && row.updatedAt == 0
    ensures IsRun(setup, run + Abandoned())
    ensures var s' := After(setup, run + Abandoned()); 10 in s'.trips && s'.trips[10].status == CancelledAuto
  {
    var wait, sweep := StepClock(STALE_ASSIGNED_MS + 1), StepSweepStale([10]);
    RunGrows(setup, run, wait);
    var m := AdvanceClock(s, STALE_ASSIGNED_MS + 1);
    assert IsStale(m, 10) && forall t :: IsStale(m, t) ==> t == 10;
    assert Possible(m, sweep);
    RunGrows(setup, run + [wait], sweep);
    assert run + Abandoned() == run + [wait] + [sweep];
    assert [10][..0] == [] && SweepStaleAll(m, []) == m;
    assert SweepStaleAll(m, [10]) == SweepStaleOne(m, 10);
  }

  /** Both edges outside the table are written in some run, for every setup that offers rides at all. */
  lemma StaleEdgesAreReached(setup: Setup)
    requires setup.config(Ride).maxAttempts > 0
    ensures IsRun(setup, Taken() + Abandoned()) && IsRun(setup, Arriving() + Abandoned())
    ensures var s, s' := After(setup, Taken()), After(setup, Taken() + Abandoned());
      10 in s.trips && 10 in s'.trips && s.trips[10].status == Accepted && s'.trips[10].status == CancelledAuto
    ensures var s, s' := After(setup, Arriving()), After(setup, Arriving() + Abandoned());
      10 in s.trips && 10 in s'.trips && s.trips[10].status == DriverArriving && s'.trips[10].status == CancelledAuto
    ensures !CanTransition(Accepted, CancelledAuto) && !CanTransition(DriverArriving, CancelledAuto)
  {
    TakenRun(setup);
    ArrivingRun(setup);
    AbandonedIsCancelled(setup, Taken(), After(setup, Taken()), Trip(5, Ride, Accepted, Some(1), 0, 0));
    AbandonedIsCancelled(setup, Arriving(), After(setup, Arriving()), Trip(5, Ride, DriverArriving, Some(1), 0, 0));
  }
}
