/**
 Where the guarantees end: which configurations meet the assumptions, and what the code does
 at the edges its documentation describes.
 */
module DispatchLimits {
  import opened Prelude
  import opened TripLifecycle
  import opened DispatchModel
  import opened DispatchConsistency
  import opened DispatchSafety
  import opened DispatchRuns
  import opened DispatchGuarded

  // ------------------------------------------------------------- configuration

  function SeededConfig(service: Service): DispatchConfig {
    match service
    case Ride => DispatchConfig(3, 30, 15_000)
    case Delivery => DispatchConfig(3, 30, 15_000)
    case Food => DispatchConfig(3, 30, 12_000)
    case Intercity => DispatchConfig(5, 60, 30_000)
    case Assistance => DispatchConfig(5, 45, 20_000)
  }

  const DEFAULT_CONFIG := DispatchConfig(3, 75, 60_000)

  /** Seeded or default, the configuration is sound exactly while jobs start within 15 s. */
  lemma ConfiguredMargins(slack: nat)
    ensures WellConfigured(Setup(SeededConfig, slack)) <==> slack < 15_000
    ensures WellConfigured(Setup(_ => DEFAULT_CONFIG, slack)) <==> slack < 15_000
  {
    if slack >= 15_000 {
      var seeded := Setup(SeededConfig, slack);
      assert !(seeded.config(Ride).timeoutMs + slack < LockTtlMs(seeded.config(Ride)));
      var default := Setup(_ => DEFAULT_CONFIG, slack);
      assert !(default.config(Ride).timeoutMs + slack < LockTtlMs(default.config(Ride)));
    }
  }

  // --------------------------------------------------------------- other edges

  /**
   Two accepts whose checks have both passed; the first one's handler runs first. Each
   handler is followed by its caller's own write of the trip row.
   */
  datatype Race = OneAfterTheOther | FirstWritesFirst | SecondWritesFirst

  function Raced(s: State, t: TripId, d1: DriverId, d2: DriverId, race: Race): State
    requires t in s.trips
  {
    var s1 := HandleDriverAccept(s, t, d1);
    match race
    case OneAfterTheOther => AssignDriver(HandleDriverAccept(AssignDriver(s1, t, d1), t, d2), t, d2)
    case FirstWritesFirst => AssignDriver(AssignDriver(HandleDriverAccept(s1, t, d2), t, d1), t, d2)
    case SecondWritesFirst => AssignDriver(AssignDriver(HandleDriverAccept(s1, t, d2), t, d2), t, d1)
  }

  predicate IsAccepted(s: State, p: Pair) {
    p in s.attempts && s.attempts[p].status == DriverAccepted
  }

  /** The handler accepts the attempt exactly with the lock, and takes every other lock of the trip. */
  lemma HandlerAccepts(s: State, t: TripId, d: DriverId, other: DriverId)
    requires IsPending(s, t) && Notified(s, Pair(t, d)) && Notified(s, Pair(t, other))
    ensures var s1 := HandleDriverAccept(s, t, d);
      (forall q :: IsAccepted(s1, q) <==> IsAccepted(s, q) || (HoldsLockFor(s, t, d) && q == Pair(t, d))) &&
      (HoldsLockFor(s, t, d) ==> !HoldsLockFor(s1, t, other)) && OnlyRowWritten(s, s1, t)
  {
    if HoldsLockFor(s, t, d) {
      var m := Drop(s, t, {d}, DriverAccepted);
      assert other != d ==> Notified(m, Pair(t, other));
    }
  }

  ghost predicate OnlyRowWritten(s: State, s': State, t: TripId) {
    s'.trips.Keys == s.trips.Keys && forall u :: u in s.trips && u != t ==> s'.trips[u] == s.trips[u]
  }

  /** Trip `t` has ended up with driver `last`, and `accepted` holds its accepted attempts. */
  lemma LastWriteAgreesIff(s: State, s': State, t: TripId, last: DriverId, accepted: set<DriverId>)
    requires Consistent(s) && IsPending(s, t) && OnlyRowWritten(s, s', t)
    requires s'.trips[t].status == Accepted && s'.trips[t].driver == Some(last)
    requires forall q :: IsAccepted(s', q) <==> IsAccepted(s, q) || (q.trip == t && q.driver in accepted)
    ensures DriversAgree(s') <==> accepted <= {last}
  {
    if d :| d in accepted && d != last {
      assert IsAccepted(s', Pair(t, d));
    } else {
      assert forall q :: IsAccepted(s', q) ==> s'.trips[q.trip].driver == Some(q.driver);
    }
  }

  /** The driver whose attempt the race accepts: the first one whose lock matches. */
  function RaceAccepts(s: State, t: TripId, d1: DriverId, d2: DriverId): set<DriverId> {
    if HoldsLockFor(s, t, d1) then {d1} else if HoldsLockFor(s, t, d2) then {d2} else {}
  }

  lemma HandlerWritesRow(s: State, t: TripId, d: DriverId)
    requires t in s.trips
    ensures OnlyRowWritten(s, HandleDriverAccept(s, t, d), t)
  {}

  lemma RaceWritesRow(s: State, t: TripId, d1: DriverId, d2: DriverId, race: Race)
    requires t in s.trips
    ensures var s' := Raced(s, t, d1, d2, race);
      OnlyRowWritten(s, s', t) && s'.trips[t].status == Accepted &&
      s'.trips[t].driver == Some(if race.SecondWritesFirst? then d1 else d2)
  {
    var s1 := HandleDriverAccept(s, t, d1);
    HandlerWritesRow(s, t, d1);
    HandlerWritesRow(s1, t, d2);
    HandlerWritesRow(AssignDriver(s1, t, d1), t, d2);
  }

  lemma RaceAttempts(s: State, t: TripId, d1: DriverId, d2: DriverId, race: Race)
    requires IsPending(s, t) && Notified(s, Pair(t, d1)) && Notified(s, Pair(t, d2))
    ensures forall q :: IsAccepted(Raced(s, t, d1, d2, race), q) <==>
      IsAccepted(s, q) || (q.trip == t && q.driver in RaceAccepts(s, t, d1, d2))
  {
    HandlerAccepts(s, t, d1, d2);
    if !HoldsLockFor(s, t, d1) {
      SecondHandlerAccepts(s, t, d1, d2);
    }
  }

  lemma SecondHandlerAccepts(s: State, t: TripId, d1: DriverId, d2: DriverId)
    requires IsPending(s, t) && Notified(s, Pair(t, d1)) && Notified(s, Pair(t, d2)) && !HoldsLockFor(s, t, d1)
    ensures forall q :: IsAccepted(HandleDriverAccept(AssignDriver(s, t, d1), t, d2), q) <==>
      IsAccepted(s, q) || (HoldsLockFor(s, t, d2) && q == Pair(t, d2))
  {
    HandlerAccepts(s, t, d2, d1);
  }

  /**
   The last write wins the trip, while the accepted attempt is that of the first driver
   whose lock matched. So where the second accept writes last the two agree if and only if
   it is the same driver or the first had no lock; where the first writes last, if and only
   if it is the same driver, the first had a lock or neither did.
   */
  lemma RacingAcceptsAgreeIff(s: State, t: TripId, d1: DriverId, d2: DriverId, race: Race)
    requires Consistent(s) && IsPending(s, t) && Notified(s, Pair(t, d1)) && Notified(s, Pair(t, d2))
    ensures Raced(s, t, d1, d2, race).trips[t].driver == Some(if race.SecondWritesFirst? then d1 else d2)
    ensures DriversAgree(Raced(s, t, d1, d2, race)) <==>
      d1 == d2 || (if race.SecondWritesFirst? then HoldsLockFor(s, t, d1) || !HoldsLockFor(s, t, d2)
                   else !HoldsLockFor(s, t, d1))
  {
    RaceWritesRow(s, t, d1, d2, race);
    RaceAttempts(s, t, d1, d2, race);
    LastWriteAgreesIff(s, Raced(s, t, d1, d2, race), t, if race.SecondWritesFirst? then d1 else d2,
                       RaceAccepts(s, t, d1, d2));
  }

  /** Under the joint invariant both hold their locks, and the two agree if and only if they are the same driver. */
  lemma RacingAcceptsDisagree(setup: Setup, s: State, t: TripId, d1: DriverId, d2: DriverId)
    requires GuardedInvariant(setup, s) && IsPending(s, t) && Notified(s, Pair(t, d1)) && Notified(s, Pair(t, d2))
    ensures DriversAgree(Raced(s, t, d1, d2, OneAfterTheOther)) <==> d1 == d2
    ensures DriversAgree(Raced(s, t, d1, d2, FirstWritesFirst)) <==> d1 == d2
    ensures DriversAgree(Raced(s, t, d1, d2, SecondWritesFirst))
  {
    assert Held(setup, s, Pair(t, d1));
    RacingAcceptsAgreeIff(s, t, d1, d2, OneAfterTheOther);
    RacingAcceptsAgreeIff(s, t, d1, d2, FirstWritesFirst);
    RacingAcceptsAgreeIff(s, t, d1, d2, SecondWritesFirst);
  }

  /**
   A sweep that fails a trip past the re-dispatch age leaves its attempts, locks and jobs
   alone: the trip is released afterwards exactly if nobody was notified.
   */
  lemma AgedFailureReleasesNothing(setup: Setup, s: State, quiet: bool, t: TripId, near: map<TripId, seq<DriverId>>)
    requires Consistent(s) && IsPending(s, t) && s.now - s.trips[t].createdAt > REDISPATCH_MAX_AGE_MS
    ensures var s' := SweepOne(setup, s, quiet, t, near);
      s'.trips[t].status == CancelledAuto && s'.attempts == s.attempts && s'.locks == s.locks &&
      s'.jobs == s.jobs && s'.jobKeys == s.jobKeys && (IsReleased(s', t) <==> NotifiedDrivers(s, t) == {})
  {
    FailTripWithin(s, t);
    var s' := SweepOne(setup, s, quiet, t, near);
    assert NotifiedDrivers(s', t) == NotifiedDrivers(s, t);
    if NotifiedDrivers(s', t) == {} {
      NoNotifiedNoLock(s', t);
    }
  }

  /** In safe states the same holds of jobs and job keys. */
  lemma AgedFailureQuietensIff(setup: Setup, s: State, quiet: bool, t: TripId, near: map<TripId, seq<DriverId>>)
    requires Safe(setup, s) && IsPending(s, t) && s.now - s.trips[t].createdAt > REDISPATCH_MAX_AGE_MS
    ensures IsQuiet(SweepOne(setup, s, quiet, t, near), t) <==> NotifiedDrivers(s, t) == {}
  {
    FailTripFacts(setup, s, t);
    var s' := SweepOne(setup, s, quiet, t, near);
    QuietIsNoNotified(setup, s', t);
    assert NotifiedDrivers(s', t) == NotifiedDrivers(s, t);
  }

  /** The drivers a cancellation would tell: the notified ones, looked up after the release. */
  function ToldOfCancellation(s: State, t: TripId): set<DriverId> {
    NotifiedDrivers(ReleaseLocksForTrip(s, t), t)
  }

  lemma CancellationTellsNobody(s: State, t: TripId)
    ensures ToldOfCancellation(s, t) == {}
  {}
}
