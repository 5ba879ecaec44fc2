/**
 What the sweeps make of each trip, whatever else the same sweep does: the recovery sweep
 skips a trip, gives it up, or releases it and offers it to whoever is free when its turn
 comes; the stale sweep cancels exactly the assigned trips that stopped moving.
 */
module DispatchSweeps {
  import opened TripLifecycle
  import opened DispatchModel
  import opened DispatchConsistency
  import opened DispatchRecovery
  import opened DispatchWaves
  import opened DispatchOutcomes

  /** The sweep passes over trips younger than 90 seconds, unless it runs at boot. */
  predicate IsTooYoung(s: State, quiet: bool, t: TripId)
    requires t in s.trips
  {
    quiet && s.now - s.trips[t].createdAt < 90_000
  }

  /** It gives trips older than two minutes up. */
  predicate IsTooOld(s: State, quiet: bool, t: TripId)
    requires t in s.trips
  {
    !IsTooYoung(s, quiet, t) && s.now - s.trips[t].createdAt > 120_000
  }

  /** The drivers the sweep would ask for trip `t`, locked or not; none without coordinates. */
  function WaveFor(setup: Setup, s: State, near: map<TripId, seq<DriverId>>, t: TripId): set<DriverId>
    requires t in s.trips
  {
    if t in near then InWave(s, near[t], MaxAttempts(setup, s, t)) else {}
  }

  /** Who is locked once the trips of `order` have had their turn. */
  function LockedAfter(setup: Setup, s: State, quiet: bool, order: seq<TripId>, near: map<TripId, seq<DriverId>>): set<DriverId>
  {
    if order == [] then s.locks.Keys
    else
      var t := order[|order| - 1];
      var before := LockedAfter(setup, s, quiet, order[..|order| - 1], near);
      if t !in s.trips || IsTooYoung(s, quiet, t) || IsTooOld(s, quiet, t) then before
      else before - NotifiedDrivers(s, t) + WaveFor(setup, s, near, t)
  }

  /** Row, attempts and counter of trip `t`, and the time, are the same in both states. */
  ghost predicate IsUntouched(a: State, b: State, t: TripId) {
    b.now == a.now && (t in a.trips <==> t in b.trips) && (t in a.trips ==> b.trips[t] == a.trips[t]) &&
    (t in a.rounds <==> t in b.rounds) && (t in a.rounds ==> b.rounds[t] == a.rounds[t]) &&
    forall p: Pair :: p.trip == t ==>
      (p in a.attempts <==> p in b.attempts) && (p in a.attempts ==> b.attempts[p] == a.attempts[p])
  }

  lemma OthersKeptIsUntouched(a: State, b: State, u: TripId, t: TripId)
    requires OthersKept(a, b, u) && u != t
    ensures IsUntouched(a, b, t)
  {}

  lemma UntouchedIsTransitive(a: State, b: State, c: State, t: TripId)
    requires IsUntouched(a, b, t) && IsUntouched(b, c, t)
    ensures IsUntouched(a, c, t)
  {}

  lemma UntouchedWaits(a: State, b: State, t: TripId)
    requires IsUntouched(a, b, t)
    ensures NotifiedDrivers(b, t) == NotifiedDrivers(a, t) && RoundsOf(b, t) == RoundsOf(a, t)
  {
    forall d ensures d in NotifiedDrivers(b, t) <==> d in NotifiedDrivers(a, t) {
      WaitsIffNotified(a, t, d);
      WaitsIffNotified(b, t, d);
    }
  }

  // ------------------------------------------------------------------ one turn

  /** What the sweep leaves of pending trip `t`, when the drivers of `locked` are taken at its turn. */
  ghost predicate TurnLeaves(setup: Setup, s: State, s': State, quiet: bool, t: TripId,
                             near: map<TripId, seq<DriverId>>, locked: set<DriverId>)
    requires t in s.trips
  {
    var waiting := NotifiedDrivers(s, t);
    var offered := WaveFor(setup, s, near, t) - (locked - waiting);
    if IsTooYoung(s, quiet, t) then IsUntouched(s, s', t)
    else if IsTooOld(s, quiet, t) then IsGivenUp(s, s', t) && AttemptsFollow(s, s', t, {}, TimedOut, {})
    else
      AttemptsFollow(s, s', t, waiting, TimedOut, offered) &&
      if offered != {} then IsOffered(s, s', t, offered) else IsGivenUp(s, s', t)
  }

  lemma ReleaseEnds(s: State, t: TripId)
    ensures AttemptsFollow(s, ReleaseLocksForTrip(s, t), t, NotifiedDrivers(s, t), TimedOut, {})
  {}

  lemma EndThenOffer(s: State, m: State, s': State, t: TripId, ended: set<DriverId>, offered: set<DriverId>)
    requires AttemptsFollow(s, m, t, ended, TimedOut, {}) && AttemptsFollow(m, s', t, {}, TimedOut, offered) && m.now == s.now
    ensures AttemptsFollow(s, s', t, ended, TimedOut, offered)
  {
    forall p: Pair | p.trip == t ensures AttemptFollows(s, s', p, ended, TimedOut, offered) {
      assert AttemptFollows(s, m, p, ended, TimedOut, {}) && AttemptFollows(m, s', p, {}, TimedOut, offered);
    }
  }

  lemma RedispatchDecides(setup: Setup, s: State, t: TripId, near: map<TripId, seq<DriverId>>)
    requires IsPending(s, t)
    ensures var s' := Redispatch(setup, s, t, near);
      var waiting := NotifiedDrivers(s, t);
      var offered := WaveFor(setup, s, near, t) - (s.locks.Keys - waiting);
      AttemptsFollow(s, s', t, waiting, TimedOut, offered) &&
      s'.locks.Keys == s.locks.Keys - waiting + WaveFor(setup, s, near, t) &&
      if offered != {} then IsOffered(s, s', t, offered) else IsGivenUp(s, s', t)
  {
    var m := ReleaseLocksForTrip(s, t);
    ReleaseEnds(s, t);
    ReleaseEmpties(s, t);
    if t in near {
      SameRowsSameYoung(s, m);
      SameInWave(s, m, near[t], MaxAttempts(setup, s, t));
      DispatchDecides(setup, m, t, near[t]);
    } else {
      NothingOffered(m, t, 0);
    }
    var offered := WaveFor(setup, s, near, t) - m.locks.Keys;
    EndThenOffer(s, m, Redispatch(setup, s, t, near), t, NotifiedDrivers(s, t), offered);
  }

  lemma SweepOneDecides(setup: Setup, s: State, quiet: bool, t: TripId, near: map<TripId, seq<DriverId>>)
    requires IsPending(s, t)
    ensures var s' := SweepOne(setup, s, quiet, t, near);
      TurnLeaves(setup, s, s', quiet, t, near, s.locks.Keys) &&
      s'.locks.Keys == (if IsTooYoung(s, quiet, t) || IsTooOld(s, quiet, t) then s.locks.Keys
                        else s.locks.Keys - NotifiedDrivers(s, t) + WaveFor(setup, s, near, t))
  {
    if IsTooOld(s, quiet, t) {
      NothingOffered(s, t, 0);
    } else if !IsTooYoung(s, quiet, t) {
      RedispatchDecides(setup, s, t, near);
    }
  }

  // --------------------------------------------------------------- the whole sweep

  /** Pending or given up by this sweep, a trip engages nobody. */
  lemma SweptTripsEngageNobody(s: State, s': State, order: seq<TripId>)
    requires SweptOnly(s, s', order) && PendingOrFailed(s', order) && forall t :: t in order ==> IsPending(s, t)
    ensures forall d :: HasYoungTrip(s', d) <==> HasYoungTrip(s, d)
  {
    forall d | HasYoungTrip(s, d) ensures HasYoungTrip(s', d) {
      var u :| u in s.trips && Engages(s.trips[u], d, s.now);
      assert u in s'.trips && Engages(s'.trips[u], d, s'.now);
    }
    forall d | HasYoungTrip(s', d) ensures HasYoungTrip(s, d) {
      var u :| u in s'.trips && Engages(s'.trips[u], d, s'.now);
      assert u in s.trips && Engages(s.trips[u], d, s.now);
    }
  }

  /** Before its turn a trip is untouched, the locks are those of `LockedAfter`, and nobody has gained a trip. */
  ghost predicate IsBeforeTurn(setup: Setup, s: State, m: State, quiet: bool, done: seq<TripId>,
                               near: map<TripId, seq<DriverId>>, t: TripId) {
    Consistent(m) && IsUntouched(s, m, t) && m.locks.Keys == LockedAfter(setup, s, quiet, done, near) &&
    forall d :: HasYoungTrip(m, d) <==> HasYoungTrip(s, d)
  }

  lemma SameTurn(setup: Setup, s: State, m: State, quiet: bool, t: TripId, near: map<TripId, seq<DriverId>>)
    requires IsUntouched(s, m, t) && t in s.trips && forall d :: HasYoungTrip(m, d) <==> HasYoungTrip(s, d)
    ensures NotifiedDrivers(m, t) == NotifiedDrivers(s, t) && WaveFor(setup, m, near, t) == WaveFor(setup, s, near, t)
  {
    UntouchedWaits(s, m, t);
    if t in near {
      SameInWave(s, m, near[t], MaxAttempts(setup, s, t));
    }
  }

  lemma SweepStaysConsistent(setup: Setup, s: State, quiet: bool, order: seq<TripId>, near: map<TripId, seq<DriverId>>)
    requires Consistent(s) && Distinct(order) && forall u :: u in order ==> IsPending(s, u)
    ensures var m := SweepAll(setup, s, quiet, order, near);
      Consistent(m) && (forall d :: HasYoungTrip(m, d) <==> HasYoungTrip(s, d)) &&
      forall u :: u in s.trips && u !in order ==> u in m.trips && m.trips[u] == s.trips[u]
  {
    SweepAllWithin(setup, s, quiet, order, near);
    SweptTripsEngageNobody(s, SweepAll(setup, s, quiet, order, near), order);
  }

  /** The turn of trip `u`, as it touches trip `t` and the locks. */
  lemma TurnOfAnother(setup: Setup, s: State, m: State, quiet: bool, u: TripId, near: map<TripId, seq<DriverId>>, t: TripId)
    requires Consistent(m) && IsPending(m, u) && u != t && IsUntouched(s, m, t)
    ensures IsUntouched(s, SweepOne(setup, m, quiet, u, near), t)
  {
    SweepOneWithin(setup, m, quiet, u, near);
    OthersKeptIsUntouched(m, SweepOne(setup, m, quiet, u, near), u, t);
    UntouchedIsTransitive(s, m, SweepOne(setup, m, quiet, u, near), t);
  }

  lemma TurnMovesLocks(setup: Setup, s: State, m: State, quiet: bool, done: seq<TripId>, u: TripId,
                       near: map<TripId, seq<DriverId>>)
    requires IsPending(s, u) && IsBeforeTurn(setup, s, m, quiet, done, near, u)
    ensures IsPending(m, u)
    ensures SweepOne(setup, m, quiet, u, near).locks.Keys == LockedAfter(setup, s, quiet, done + [u], near)
  {
    SameTurn(setup, s, m, quiet, u, near);
    SweepOneDecides(setup, m, quiet, u, near);
    assert (done + [u])[..|done|] == done;
  }

  lemma {:induction false} SweepBeforeTurn(setup: Setup, s: State, quiet: bool, order: seq<TripId>,
                                           near: map<TripId, seq<DriverId>>, t: TripId)
    requires Consistent(s) && Distinct(order) && t !in order && forall u :: u in order ==> IsPending(s, u)
    ensures IsBeforeTurn(setup, s, SweepAll(setup, s, quiet, order, near), quiet, order, near, t)
  {
    SweepStaysConsistent(setup, s, quiet, order, near);
    if order != [] {
      var n := |order| - 1;
      DistinctFront(order);
      SweepBeforeTurn(setup, s, quiet, order[..n], near, t);
      SweepBeforeTurn(setup, s, quiet, order[..n], near, order[n]);
      var m := SweepAll(setup, s, quiet, order[..n], near);
      assert IsPending(s, order[n]);
      TurnMovesLocks(setup, s, m, quiet, order[..n], order[n], near);
      TurnOfAnother(setup, s, m, quiet, order[n], near, t);
    }
  }

  lemma {:induction false} SweepAfterTurn(setup: Setup, s: State, quiet: bool, order: seq<TripId>, n: nat,
                                          near: map<TripId, seq<DriverId>>, k: nat)
    requires Consistent(s) && Distinct(order) && k < n <= |order| && forall u :: u in order ==> IsPending(s, u)
    ensures IsUntouched(SweepAll(setup, s, quiet, order[..k + 1], near), SweepAll(setup, s, quiet, order[..n], near), order[k])
  {
    if k + 1 < n {
      SweepAfterTurn(setup, s, quiet, order, n - 1, near, k);
      assert order[..n][..n - 1] == order[..n - 1];
      FrontIsDistinct(order, n - 1);
      SweepBeforeTurn(setup, s, quiet, order[..n - 1], near, order[n - 1]);
      assert IsPending(s, order[n - 1]);
      TurnOfAnother(setup, SweepAll(setup, s, quiet, order[..k + 1], near), SweepAll(setup, s, quiet, order[..n - 1], near),
                    quiet, order[n - 1], near, order[k]);
    }
  }

  lemma FrontIsDistinct(order: seq<TripId>, n: nat)
    requires Distinct(order) && n < |order|
    ensures Distinct(order[..n]) && order[n] !in order[..n] && forall u :: u in order[..n] ==> u in order
  {}

  lemma TurnCarriesOver(setup: Setup, s: State, m: State, m': State, s': State, quiet: bool, t: TripId,
                        near: map<TripId, seq<DriverId>>, locked: set<DriverId>)
    requires IsUntouched(s, m, t) && IsUntouched(m', s', t) && t in s.trips
    requires NotifiedDrivers(m, t) == NotifiedDrivers(s, t) && WaveFor(setup, m, near, t) == WaveFor(setup, s, near, t)
    requires TurnLeaves(setup, m, m', quiet, t, near, locked)
    ensures TurnLeaves(setup, s, s', quiet, t, near, locked)
  {
    UntouchedWaits(s, m, t);
    UntouchedWaits(m', s', t);
    if IsTooYoung(s, quiet, t) {
      UntouchedIsTransitive(s, m, m', t);
      UntouchedIsTransitive(s, m', s', t);
    } else {
      var due := !IsTooOld(s, quiet, t);
      var waiting := NotifiedDrivers(s, t);
      AttemptsCarryOver(s, m, m', s', t, if due then waiting else {},
                        if due then WaveFor(setup, s, near, t) - (locked - waiting) else {});
    }
  }

  lemma AttemptsCarryOver(s: State, m: State, m': State, s': State, t: TripId, ended: set<DriverId>, offered: set<DriverId>)
    requires IsUntouched(s, m, t) && IsUntouched(m', s', t) && AttemptsFollow(m, m', t, ended, TimedOut, offered)
    ensures AttemptsFollow(s, s', t, ended, TimedOut, offered)
  {
    forall p: Pair | p.trip == t ensures AttemptFollows(s, s', p, ended, TimedOut, offered) {
      assert AttemptFollows(m, m', p, ended, TimedOut, offered);
    }
  }

  lemma StampIsUntouched(s: State, time: int, t: TripId)
    ensures IsUntouched(s, s.(lastSweep := time), t)
  {}

  /**
   The k-th trip of a sweep: untouched if too young, given up if too old; else its waiting
   attempts time out and it is offered to the drivers of its wave that are free once the
   trips before it have had their turn and its own drivers are released, or given up when
   none is.
   */
  lemma SweepDecides(setup: Setup, s: State, step: Step, k: nat)
    requires Consistent(s) && Possible(s, step) && step.StepSweepPending? && k < |step.order|
    ensures var t := step.order[k];
      t in s.trips &&
      TurnLeaves(setup, s, Next(setup, s, step), step.quiet, t, step.nearOf,
                 LockedAfter(setup, s, step.quiet, step.order[..k], step.nearOf))
  {
    var order := step.order;
    assert IsPending(s, order[k]);
    FrontIsDistinct(order, k);
    SweepBeforeTurn(setup, s, step.quiet, order[..k], step.nearOf, order[k]);
    SweepAfterTurn(setup, s, step.quiet, order, |order|, step.nearOf, k);
    assert order[..k + 1][..k] == order[..k] && order[..|order|] == order;
    TurnThenRest(setup, s, SweepAll(setup, s, step.quiet, order[..k], step.nearOf),
                 SweepAll(setup, s, step.quiet, order, step.nearOf), step, order[..k], order[k], Next(setup, s, step));
  }

  lemma TurnThenRest(setup: Setup, s: State, m: State, swept: State, step: Step, done: seq<TripId>, t: TripId, s': State)
    requires step.StepSweepPending? && IsPending(s, t) && IsBeforeTurn(setup, s, m, step.quiet, done, step.nearOf, t)
    requires IsUntouched(SweepOne(setup, m, step.quiet, t, step.nearOf), swept, t)
    requires s' == if step.quiet then swept.(lastSweep := s.now) else swept
    ensures TurnLeaves(setup, s, s', step.quiet, t, step.nearOf, LockedAfter(setup, s, step.quiet, done, step.nearOf))
  {
    SweepOneDecides(setup, m, step.quiet, t, step.nearOf);
    SameTurn(setup, s, m, step.quiet, t, step.nearOf);
    var m' := SweepOne(setup, m, step.quiet, t, step.nearOf);
    StampIsUntouched(swept, s.now, t);
    UntouchedIsTransitive(m', swept, s', t);
    TurnCarriesOver(setup, s, m, m', s', step.quiet, t, step.nearOf,
                    LockedAfter(setup, s, step.quiet, done, step.nearOf));
  }

  /** Somebody of the wave for the k-th trip is free at its turn. */
  ghost predicate SomebodyIsFree(setup: Setup, s: State, step: Step, k: nat)
    requires step.StepSweepPending? && k < |step.order| && step.order[k] in s.trips
  {
    exists d :: d in WaveFor(setup, s, step.nearOf, step.order[k]) &&
      (d in LockedAfter(setup, s, step.quiet, step.order[..k], step.nearOf) ==> Notified(s, Pair(step.order[k], d)))
  }

  /**
   A sweep cancels a pending trip if and only if it is older than two minutes or it is due,
   at 90 seconds or at boot, and nobody of its wave is free; else the trip stays pending, and
   if it was due it waits on somebody. No other trip is touched.
   */
  lemma SweepCancelsIff(setup: Setup, s: State, step: Step, t: TripId)
    requires Consistent(s) && Possible(s, step) && step.StepSweepPending? && t in s.trips
    ensures var s' := Next(setup, s, step);
      t in s'.trips && (t !in step.order ==> IsUntouched(s, s', t)) &&
      forall k :: 0 <= k < |step.order| && step.order[k] == t ==>
        var age := s.now - s.trips[t].createdAt;
        var due := (step.quiet ==> age >= 90_000) && age <= 120_000;
        (s'.trips[t].status == CancelledAuto <==>
          (age > 120_000 || (due && !SomebodyIsFree(setup, s, step, k)))) &&
        (s'.trips[t].status != CancelledAuto ==> s'.trips[t] == s.trips[t] && (due ==> NotifiedDrivers(s', t) != {}))
  {
    if t !in step.order {
      SweepBeforeTurn(setup, s, step.quiet, step.order, step.nearOf, t);
      var swept := SweepAll(setup, s, step.quiet, step.order, step.nearOf);
      StampIsUntouched(swept, s.now, t);
      UntouchedIsTransitive(s, swept, Next(setup, s, step), t);
    } else {
      assert IsPending(s, t);
      forall k | 0 <= k < |step.order| && step.order[k] == t
        ensures TurnLeaves(setup, s, Next(setup, s, step), step.quiet, t, step.nearOf,
                           LockedAfter(setup, s, step.quiet, step.order[..k], step.nearOf))
        ensures SomebodyIsFree(setup, s, step, k) <==>
          WaveFor(setup, s, step.nearOf, t) -
          (LockedAfter(setup, s, step.quiet, step.order[..k], step.nearOf) - NotifiedDrivers(s, t)) != {}
      {
        SweepDecides(setup, s, step, k);
        SomebodyIffOffered(setup, s, step, k);
      }
    }
  }

  lemma SomebodyIffOffered(setup: Setup, s: State, step: Step, k: nat)
    requires step.StepSweepPending? && k < |step.order| && step.order[k] in s.trips
    ensures SomebodyIsFree(setup, s, step, k) <==>
      WaveFor(setup, s, step.nearOf, step.order[k]) -
      (LockedAfter(setup, s, step.quiet, step.order[..k], step.nearOf) - NotifiedDrivers(s, step.order[k])) != {}
  {
    var t := step.order[k];
    var offered := WaveFor(setup, s, step.nearOf, t) -
      (LockedAfter(setup, s, step.quiet, step.order[..k], step.nearOf) - NotifiedDrivers(s, t));
    forall d { WaitsIffNotified(s, t, d); }
    if offered != {} {
      var d :| d in offered;
      assert d in WaveFor(setup, s, step.nearOf, t);
    }
    if SomebodyIsFree(setup, s, step, k) {
      var d :| d in WaveFor(setup, s, step.nearOf, t) &&
        (d in LockedAfter(setup, s, step.quiet, step.order[..k], step.nearOf) ==> Notified(s, Pair(t, d)));
      assert d in offered;
    }
  }

  // --------------------------------------------------------------- the stale sweep

  /** Accepted or arriving, and not written for 45 minutes. */
  predicate HasStalled(s: State, t: TripId)
    requires t in s.trips
  {
    (s.trips[t].status == Accepted || s.trips[t].status == DriverArriving) && s.now - s.trips[t].updatedAt > 2_700_000
  }

  ghost predicate StaleLeaves(s: State, s': State, t: TripId, cancelled: bool)
    requires t in s.trips
  {
    t in s'.trips &&
    s'.trips[t] == (if cancelled then s.trips[t].(status := CancelledAuto, updatedAt := s.now) else s.trips[t]) &&
    AttemptsFollow(s, s', t, if cancelled then NotifiedDrivers(s, t) else {}, TimedOut, {})
  }

  lemma CancelStaleLeaves(s: State, u: TripId, t: TripId)
    requires t in s.trips && u in s.trips
    ensures StaleLeaves(s, SweepStaleOne(s, u), t, u == t) && SweepStaleOne(s, u).now == s.now
    ensures SweepStaleOne(s, u).trips.Keys == s.trips.Keys
  {
    var m := SetStatus(s, u, CancelledAuto);
    assert NotifiedDrivers(m, u) == NotifiedDrivers(s, u);
    if t != u {
      assert AttemptsFollow(s, SweepStaleOne(s, u), t, {}, TimedOut, {});
    }
  }

  lemma StaleLeavesOnce(s: State, m: State, s': State, t: TripId, before: bool, now: bool)
    requires t in s.trips && StaleLeaves(s, m, t, before) && StaleLeaves(m, s', t, now) && m.now == s.now && !(before && now)
    ensures StaleLeaves(s, s', t, before || now)
  {
    if now {
      WaitingFollows(s, m, t, {}, TimedOut, {});
    }
    forall p: Pair | p.trip == t
      ensures AttemptFollows(s, s', p, if before || now then NotifiedDrivers(s, t) else {}, TimedOut, {})
    {
      assert AttemptFollows(s, m, p, if before then NotifiedDrivers(s, t) else {}, TimedOut, {});
      assert AttemptFollows(m, s', p, if now then NotifiedDrivers(m, t) else {}, TimedOut, {});
    }
  }

  lemma {:induction false} StaleAllLeaves(s: State, stale: seq<TripId>, t: TripId)
    requires Distinct(stale) && t in s.trips && forall u :: u in stale ==> u in s.trips
    ensures var s' := SweepStaleAll(s, stale);
      StaleLeaves(s, s', t, t in stale) && s'.now == s.now && s'.trips.Keys == s.trips.Keys
  {
    if stale != [] {
      var n := |stale| - 1;
      var m := SweepStaleAll(s, stale[..n]);
      DistinctFront(stale);
      StaleAllLeaves(s, stale[..n], t);
      assert stale[n] in s.trips;
      CancelStaleLeaves(m, stale[n], t);
      StaleLeavesOnce(s, m, SweepStaleOne(m, stale[n]), t, t in stale[..n], stale[n] == t);
    }
  }

  /** The stale sweep cancels exactly the stalled trips and ends their waiting attempts; the rest stays. */
  lemma StaleSweepDecides(setup: Setup, s: State, step: Step, t: TripId)
    requires step.StepSweepStale? && Possible(s, step) && t in s.trips
    ensures StaleLeaves(s, Next(setup, s, step), t, HasStalled(s, t))
  {
    forall u | u in step.stale ensures u in s.trips {
      assert IsStale(s, u);
    }
    StaleAllLeaves(s, step.stale, t);
    assert t in step.stale <==> IsStale(s, t);
  }
}
