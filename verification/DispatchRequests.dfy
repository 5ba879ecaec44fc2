/**
 Who may write which status: the verdict on each request, the row and attempts it leaves,
 and, over every run, who asked for each change of a status.
 */
module DispatchRequests {
  import opened Prelude
  import opened TripLifecycle
  import opened DispatchModel
  import opened DispatchConsistency
  import opened DispatchRuns

  /** A driver's account with a driver profile. */
  predicate IsDriver(actor: Actor) {
    actor.role == DriverRole && actor.profile.Some?
  }

  /** The caller is the driver the trip is assigned to. */
  predicate DrivesTrip(s: State, t: TripId, actor: Actor) {
    t in s.trips && IsDriver(actor) && s.trips[t].driver == actor.profile
  }

  /**
   A request is granted if and only if the table has the edge and the caller may ask for it:
   the trip's driver for arriving, starting, completing and the driver's cancellation; a
   driver whose own attempt waits for accepting; a client account or the trip's client for
   the client's cancellation; anybody for the automatic one. A refusal changes nothing.
   */
  lemma RequestIsGrantedIff(s: State, t: TripId, actor: Actor, to: TripStatus)
    ensures var reply := UpdateStatus(s, t, actor, to);
      (reply.outcome == Done <==>
        t in s.trips && CanTransition(s.trips[t].status, to) &&
        (to in {DriverArriving, InProgress, Completed, CancelledByDriver} ==> DrivesTrip(s, t, actor)) &&
        (to == Accepted ==> IsDriver(actor) && Notified(s, Pair(t, actor.profile.value))) &&
        (to == CancelledByClient ==> actor.role == ClientRole || actor.user == s.trips[t].client)) &&
      (reply.outcome == NotFound <==> t !in s.trips) &&
      (reply.outcome == BadRequest <==> t in s.trips && !CanTransition(s.trips[t].status, to)) &&
      (reply.outcome != Done ==> reply.state == s)
  {}

  /** A granted request writes the status, and the driver if it is an accept, on that row only. */
  lemma GrantedRequestWrites(s: State, t: TripId, actor: Actor, to: TripStatus)
    requires UpdateStatus(s, t, actor, to).outcome == Done
    ensures t in s.trips && UpdateStatus(s, t, actor, to).state.trips ==
      s.trips[t := s.trips[t].(status := to, updatedAt := s.now,
                               driver := if to == Accepted then actor.profile else s.trips[t].driver)]
  {
    if to == Accepted {
      AcceptWritesTrips(s, t, actor.profile.value);
    }
  }

  lemma AcceptWritesTrips(s: State, t: TripId, d: DriverId)
    requires t in s.trips
    ensures AssignDriver(HandleDriverAccept(s, t, d), t, d).trips ==
      s.trips[t := s.trips[t].(status := Accepted, driver := Some(d), updatedAt := s.now)]
  {}

  /** The status a granted request gives a waiting attempt of its trip, if it ends the wait. */
  function EndOfWait(s: State, p: Pair, actor: Actor, to: TripStatus): AttemptStatus {
    if to in {CancelledByClient, CancelledAuto} then TimedOut
    else if to == Accepted && actor.profile.Some? && HoldsLockFor(s, p.trip, actor.profile.value) then
      if p.driver == actor.profile.value then DriverAccepted else DriverDeclined
    else DriverNotified
  }

  /**
   A cancellation by the client or the system times every waiting attempt out; an accept with
   its lock accepts its own attempt and declines the others; nothing else touches attempts.
   */
  lemma GrantedRequestEndsWaits(s: State, t: TripId, actor: Actor, to: TripStatus, p: Pair)
    requires UpdateStatus(s, t, actor, to).outcome == Done
    ensures var s' := UpdateStatus(s, t, actor, to).state;
      (p in s'.attempts <==> p in s.attempts) &&
      (p in s.attempts ==>
        s'.attempts[p] == if p.trip == t && s.attempts[p].status == DriverNotified
                          then s.attempts[p].(status := EndOfWait(s, p, actor, to)) else s.attempts[p])
  {
    if to == Accepted {
      AcceptEndsWaits(s, t, actor.profile.value, p);
    } else if to in {CancelledByClient, CancelledAuto} {
      assert Notified(s, p) && p.trip == t ==> p.driver in NotifiedDrivers(s, t);
    }
  }

  lemma AcceptEndsWaits(s: State, t: TripId, d: DriverId, p: Pair)
    requires t in s.trips
    ensures var s' := AssignDriver(HandleDriverAccept(s, t, d), t, d);
      (p in s'.attempts <==> p in s.attempts) &&
      (p in s.attempts ==>
        s'.attempts[p] == if p.trip == t && s.attempts[p].status == DriverNotified && HoldsLockFor(s, t, d)
                          then s.attempts[p].(status := if p.driver == d then DriverAccepted else DriverDeclined)
                          else s.attempts[p])
  {
    if HoldsLockFor(s, t, d) {
      var m := Drop(s, t, {d}, DriverAccepted);
      assert Notified(m, p) && p.trip == t ==> p.driver in NotifiedDrivers(m, t);
    }
  }

  /** Completing, and confirming a cash payment, are granted to the driver of a trip under way. */
  lemma DriverRequestIsGrantedIff(s: State, t: TripId, actor: Actor)
    ensures var done, paid := CompleteTrip(s, t, actor), ConfirmPaymentReceived(s, t, actor);
      (done.outcome == Done <==> DrivesTrip(s, t, actor) && s.trips[t].status == InProgress) &&
      (done.state == if done.outcome == Done
                     then s.(trips := s.trips[t := s.trips[t].(status := Completed, updatedAt := s.now)]) else s) &&
      paid.outcome == done.outcome &&
      (paid.state == if paid.outcome == Done
                     then s.(trips := s.trips[t := s.trips[t].(updatedAt := s.now)]) else s)
  {}

  // ---------------------------------------------------------------------- re-arms

  lemma RearmLocks(s: State, p: Pair)
    requires Consistent(s) && IsLatestRequest(s, p)
    ensures var s' := Rearm(s, p);
      s'.trips == s.trips && s'.now == s.now && Notified(s', p) && p.driver in s'.locks &&
      s'.locks[p.driver] == Lock(p.trip, s.now + 75_000)
  {
    assert !AcceptedByAnother(s, p);
  }

  lemma ClockUnlocksIff(s: State, time: int, p: Pair)
    requires p.driver in s.locks && s.locks[p.driver].trip == p.trip && Notified(s, p) && IsPending(s, p.trip)
    ensures var s' := AdvanceClock(s, time);
      Notified(s', p) && IsPending(s', p.trip) &&
      (HoldsLockFor(s', p.trip, p.driver) <==> time < s.locks[p.driver].expiresAt)
  {}

  /**
   A driver whose latest request is re-armed may accept it for as long as the trip is pending;
   the accept releases the other drivers if and only if it comes within 75 seconds.
   */
  lemma RearmedAcceptReleasesIff(setup: Setup, s: State, p: Pair, time: int, actor: Actor)
    requires Consistent(s) && IsLatestRequest(s, p) && s.now <= time
    requires IsDriver(actor) && actor.profile == Some(p.driver)
    ensures var reply := UpdateStatus(Next(setup, Next(setup, s, StepRearm(p)), StepClock(time)), p.trip, actor, Accepted);
      reply.outcome == Done && (IsReleased(reply.state, p.trip) <==> time - s.now < 75_000)
  {
    var s1 := Next(setup, s, StepRearm(p));
    StepIsSound(setup, s, StepRearm(p));
    RearmLocks(s, p);
    StepIsSound(setup, s1, StepClock(time));
    ClockUnlocksIff(s1, time, p);
    var s2 := Next(setup, s1, StepClock(time));
    RequestIsGrantedIff(s2, p.trip, actor, Accepted);
    AcceptReleasesIffLockMatches(s2, p.trip, actor);
  }

  // --------------------------------------------------------------------- every run

  /** The step is a request, by somebody entitled, that trip `t` become `to`. */
  ghost predicate IsRequested(s: State, step: Step, t: TripId, to: TripStatus)
    requires t in s.trips
  {
    match step
    case StepUpdateStatus(u, actor, x) =>
      u == t && x == to &&
      (if to == Accepted then IsDriver(actor) && Notified(s, Pair(t, actor.profile.value))
       else if to == CancelledByClient then actor.role == ClientRole || actor.user == s.trips[t].client
       else to == CancelledAuto || DrivesTrip(s, t, actor))
    case StepComplete(u, actor) => u == t && to == Completed && DrivesTrip(s, t, actor)
    case _ => false
  }

  lemma GrantedIsRequested(s: State, t: TripId, actor: Actor, to: TripStatus)
    requires UpdateStatus(s, t, actor, to).outcome == Done
    ensures t in s.trips && IsRequested(s, StepUpdateStatus(t, actor, to), t, to)
  {}

  lemma OthersStayOrFail(s: State, s': State, u: TripId, t: TripId)
    requires Within(s, s', u) && t in s.trips
    ensures t in s'.trips && s'.trips[t].status in {s.trips[t].status, CancelledAuto}
  {}

  lemma SweepsOnlyFail(s: State, s': State, order: seq<TripId>, t: TripId)
    requires SweptOnly(s, s', order) && PendingOrFailed(s', order) && t in s.trips
    requires forall u :: u in order ==> IsPending(s, u)
    ensures t in s'.trips && s'.trips[t].status in {s.trips[t].status, CancelledAuto}
  {
    assert t in order ==> IsPending(s, t);
  }

  lemma SweptOnlyFails(setup: Setup, s: State, step: Step, t: TripId)
    requires Consistent(s) && Possible(s, step) && step.StepSweepPending? && t in s.trips
    ensures var s' := Next(setup, s, step); t in s'.trips && s'.trips[t].status in {s.trips[t].status, CancelledAuto}
  {
    SweepAllWithin(setup, s, step.quiet, step.order, step.nearOf);
    SweepsOnlyFail(s, SweepAll(setup, s, step.quiet, step.order, step.nearOf), step.order, t);
  }

  lemma CreationKeepsOthers(setup: Setup, s: State, step: Step, t: TripId)
    requires Consistent(s) && step.StepCreate? && step.trip !in s.trips && t in s.trips
    ensures var s' := Next(setup, s, step); t in s'.trips && s'.trips[t] == s.trips[t]
  {
    var s1 := s.(trips := s.trips[step.trip := Trip(step.client, step.service, Pending, None, s.now, s.now)]);
    NewRowIsLater(s, s1, step.trip);
    AttemptDispatchWithin(setup, s1, step.trip, step.service, step.near);
  }

  lemma UpdateChangesRequested(s: State, u: TripId, actor: Actor, to: TripStatus, t: TripId)
    requires t in s.trips
    ensures var s' := UpdateStatus(s, u, actor, to).state;
      t in s'.trips && (s'.trips[t].status != s.trips[t].status ==>
        u == t && s'.trips[t].status == to && UpdateStatus(s, u, actor, to).outcome == Done)
  {
    if UpdateStatus(s, u, actor, to).outcome == Done {
      GrantedRequestWrites(s, u, actor, to);
    }
  }

  lemma ChangeIsRequested(setup: Setup, s: State, step: Step, t: TripId)
    requires Consistent(s) && Possible(s, step) && t in s.trips
    ensures var s' := Next(setup, s, step);
      t in s'.trips && (s'.trips[t].status in {s.trips[t].status, CancelledAuto} || IsRequested(s, step, t, s'.trips[t].status))
  {
    match step
    case StepCreate(_, _, _, _) => CreationKeepsOthers(setup, s, step, t);
    case StepUpdateStatus(u, actor, to) =>
      UpdateChangesRequested(s, u, actor, to, t);
      if UpdateStatus(s, u, actor, to).outcome == Done { GrantedIsRequested(s, u, actor, to); }
    case StepDecline(u, d, near) =>
      DropThenRetryWithin(setup, s, u, d, DriverDeclined, near);
      OthersStayOrFail(s, CheckAndRetry(setup, Drop(s, u, {d}, DriverDeclined), u, near), u, t);
    case StepWsDecline(u, d, near) =>
      DropThenRetryWithin(setup, s, u, d, DriverDeclined, near);
      OthersStayOrFail(s, CheckAndRetry(setup, Drop(s, u, {d}, DriverDeclined), u, near), u, t);
    case StepJob(j, near) =>
      ProcessJobWithin(setup, s, j, near);
      OthersStayOrFail(s, ProcessJob(setup, s, j, near), s.jobs[j].pair.trip, t);
    case StepComplete(u, actor) => DriverRequestIsGrantedIff(s, u, actor);
    case StepConfirmPayment(u, actor) => DriverRequestIsGrantedIff(s, u, actor);
    case StepSweepPending(_, _, _) => SweptOnlyFails(setup, s, step, t);
    case StepSweepStale(stale) => SweepStaleWithin(s, stale);
    case _ =>
  }

  /**
   In every run each status other than the automatic cancellation was asked for, in the step
   that wrote it, by somebody entitled: the stages of a ride by the trip's own driver.
   */
  lemma StatusesAreRequested(setup: Setup, run: seq<Step>, k: nat, t: TripId)
    requires IsRun(setup, run) && k < |run| && t in After(setup, run[..k]).trips
    ensures var s, s' := After(setup, run[..k]), After(setup, run[..k + 1]);
      t in s'.trips &&
      (s'.trips[t].status != s.trips[t].status && s'.trips[t].status != CancelledAuto ==>
        IsRequested(s, run[k], t, s'.trips[t].status))
  {
    StepOfRun(setup, run, k);
    ChangeIsRequested(setup, After(setup, run[..k]), run[k], t);
  }
}
