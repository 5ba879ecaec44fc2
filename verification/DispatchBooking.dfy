/**
 Two young trips for one driver, in every run: only an accept can bring them about, and
 exactly one that the service could have refused by looking at the driver's trips.
 */
module DispatchBooking {
  import opened Prelude
  import opened TripLifecycle
  import opened DispatchModel
  import opened DispatchConsistency
  import opened DispatchRuns

  ghost predicate OneYoungTripEach(s: State) {
    forall d, t, u :: t in s.trips && u in s.trips && Engages(s.trips[t], d, s.now) && Engages(s.trips[u], d, s.now) ==>
      t == u
  }

  predicate IsYoung(s: State, t: TripId) {
    t in s.trips && s.trips[t].createdAt > s.now - YOUNG_TRIP_MS
  }

  /** The step is an accept the service allows. */
  predicate Accepts(s: State, step: Step) {
    step.StepUpdateStatus? && step.to == Accepted && UpdateStatus(s, step.trip, step.actor, Accepted).outcome == Done
  }

  /** An allowed accept of a young trip by a driver who has one: the check the service does not make. */
  predicate BooksTwice(s: State, step: Step) {
    Accepts(s, step) && IsYoung(s, step.trip) && HasYoungTrip(s, step.actor.profile.value)
  }

  // ------------------------------------------------------------------- accepting

  lemma AcceptWritesRow(s: State, t: TripId, actor: Actor)
    requires UpdateStatus(s, t, actor, Accepted).outcome == Done
    ensures IsPending(s, t) && actor.profile.Some?
    ensures var s' := UpdateStatus(s, t, actor, Accepted).state;
      s'.now == s.now &&
      s'.trips == s.trips[t := s.trips[t].(status := Accepted, driver := actor.profile, updatedAt := s.now)]
  {
    assert CanTransition(s.trips[t].status, Accepted);
  }

  lemma RowWriteBooksIff(s: State, s': State, t: TripId, d: DriverId)
    requires DriversAgree(s) && IsPending(s, t) && OneYoungTripEach(s) && s'.now == s.now
    requires s'.trips == s.trips[t := s.trips[t].(status := Accepted, driver := Some(d), updatedAt := s.now)]
    ensures OneYoungTripEach(s') <==> !(IsYoung(s, t) && HasYoungTrip(s, d))
  {
    if IsYoung(s, t) && HasYoungTrip(s, d) {
      var u :| u in s.trips && Engages(s.trips[u], d, s.now);
      assert u != t && s'.trips[u] == s.trips[u];
      assert Engages(s'.trips[u], d, s'.now) && Engages(s'.trips[t], d, s'.now);
    } else {
      assert forall u, e :: u in s.trips && u != t && Engages(s'.trips[u], e, s'.now) ==> Engages(s.trips[u], e, s.now);
      assert forall e :: Engages(s'.trips[t], e, s'.now) ==> e == d && !HasYoungTrip(s, d);
    }
  }

  /**
   From any state with at most one young trip per driver, an allowed accept keeps it so if
   and only if the trip is no longer young or the driver has no young trip yet.
   */
  lemma AcceptKeepsOneYoungTripIff(s: State, t: TripId, actor: Actor)
    requires Consistent(s) && OneYoungTripEach(s) && UpdateStatus(s, t, actor, Accepted).outcome == Done
    ensures actor.profile.Some?
    ensures OneYoungTripEach(UpdateStatus(s, t, actor, Accepted).state)
       <==> !(IsYoung(s, t) && HasYoungTrip(s, actor.profile.value))
  {
    AcceptWritesRow(s, t, actor);
    RowWriteBooksIff(s, UpdateStatus(s, t, actor, Accepted).state, t, actor.profile.value);
  }

  // ------------------------------------------------------------- every other step

  lemma UpdateEndsOnly(s: State, u: TripId, actor: Actor, to: TripStatus, t: TripId)
    requires IsPending(s, t) && !(u == t && to == Accepted)
    ensures var s' := UpdateStatus(s, u, actor, to).state; t in s'.trips && !IsActive(s'.trips[t].status)
  {
    if u == t {
      assert forall x :: CanTransition(Pending, x) && x != Accepted ==> !IsActive(x);
    }
  }

  lemma CreateActivatesNothing(setup: Setup, s: State, step: Step, t: TripId)
    requires Consistent(s) && step.StepCreate? && Possible(s, step) && IsPending(s, t)
    ensures var s' := Next(setup, s, step); t in s'.trips && !IsActive(s'.trips[t].status)
  {
    var u := step.trip;
    var s1 := s.(trips := s.trips[u := Trip(step.client, step.service, Pending, None, s.now, s.now)]);
    TripWriteStaysConsistent(s, s1.trips);
    AttemptDispatchWithin(setup, s1, u, step.service, step.near);
  }

  lemma AnswerActivatesNothing(setup: Setup, s: State, u: TripId, d: DriverId, to: AttemptStatus, near: seq<DriverId>, t: TripId)
    requires Consistent(s) && to in {DriverDeclined, TimedOut} && IsPending(s, t)
    ensures var s' := CheckAndRetry(setup, Drop(s, u, {d}, to), u, near); t in s'.trips && !IsActive(s'.trips[t].status)
  {
    DropThenRetryWithin(setup, s, u, d, to, near);
  }

  lemma JobActivatesNothing(setup: Setup, s: State, j: JobId, near: seq<DriverId>, t: TripId)
    requires Consistent(s) && j in s.jobs && IsPending(s, t)
    ensures var s' := ProcessJob(setup, s, j, near); t in s'.trips && !IsActive(s'.trips[t].status)
  {
    ProcessJobWithin(setup, s, j, near);
  }

  lemma SweepActivatesNothing(setup: Setup, s: State, step: Step, t: TripId)
    requires Consistent(s) && step.StepSweepPending? && Possible(s, step) && IsPending(s, t)
    ensures var s' := Next(setup, s, step); t in s'.trips && !IsActive(s'.trips[t].status)
  {
    assert t in step.order;
    SweepAllWithin(setup, s, step.quiet, step.order, step.nearOf);
  }

  lemma PendingIsNotActivated(setup: Setup, s: State, step: Step, t: TripId)
    requires Consistent(s) && Possible(s, step) && IsPending(s, t) && !(Accepts(s, step) && step.trip == t)
    ensures var s' := Next(setup, s, step); t in s'.trips && !IsActive(s'.trips[t].status)
  {
    match step
    case StepCreate(_, _, _, _) => CreateActivatesNothing(setup, s, step, t);
    case StepUpdateStatus(u, actor, to) =>
      if !(u == t && to == Accepted) { UpdateEndsOnly(s, u, actor, to, t); }
    case StepDecline(u, d, near) => AnswerActivatesNothing(setup, s, u, d, DriverDeclined, near, t);
    case StepWsDecline(u, d, near) => AnswerActivatesNothing(setup, s, u, d, DriverDeclined, near, t);
    case StepJob(j, near) => JobActivatesNothing(setup, s, j, near, t);
    case StepSweepPending(_, _, _) => SweepActivatesNothing(setup, s, step, t);
    case StepSweepStale(stale) => SweepStaleWithin(s, stale);
    case _ =>
  }

  /** Whoever is engaged by trip `t` afterwards was engaged by it before, unless the step accepts it. */
  lemma EngagementIsOld(setup: Setup, s: State, step: Step, s': State, t: TripId, d: DriverId)
    requires Consistent(s) && Possible(s, step) && s' == Next(setup, s, step) && !(Accepts(s, step) && step.trip == t)
    requires t in s'.trips && Engages(s'.trips[t], d, s'.now)
    ensures t in s.trips && Engages(s.trips[t], d, s.now)
  {
    StepIsSound(setup, s, step);
    if IsPending(s, t) {
      PendingIsNotActivated(setup, s, step, t);
    }
    OldEngagement(s, step, s', t, d);
  }

  lemma OldEngagement(s: State, step: Step, s': State, t: TripId, d: DriverId)
    requires StepSound(s, step, s') && t in s'.trips && Engages(s'.trips[t], d, s'.now)
    requires IsPending(s, t) ==> !IsActive(s'.trips[t].status)
    ensures t in s.trips && Engages(s.trips[t], d, s.now)
  {
    if t in s.trips {
      assert RowFollows(s.trips[t], s'.trips[t]);
    }
  }

  lemma OtherStepsKeepOneYoungTrip(setup: Setup, s: State, step: Step, s': State)
    requires Consistent(s) && Possible(s, step) && s' == Next(setup, s, step)
    requires OneYoungTripEach(s) && !Accepts(s, step)
    ensures OneYoungTripEach(s')
  {
    forall d, t, u | t in s'.trips && u in s'.trips && Engages(s'.trips[t], d, s'.now) && Engages(s'.trips[u], d, s'.now)
      ensures t == u
    {
      EngagementIsOld(setup, s, step, s', t, d);
      EngagementIsOld(setup, s, step, s', u, d);
    }
  }

  lemma StepKeepsOneYoungTripIff(setup: Setup, s: State, step: Step)
    requires Consistent(s) && Possible(s, step) && OneYoungTripEach(s)
    ensures OneYoungTripEach(Next(setup, s, step)) <==> !BooksTwice(s, step)
  {
    if Accepts(s, step) {
      AcceptKeepsOneYoungTripIff(s, step.trip, step.actor);
    } else {
      OtherStepsKeepOneYoungTrip(setup, s, step, Next(setup, s, step));
    }
  }

  // ------------------------------------------------------------------------ runs

  ghost predicate OneYoungTripThroughout(setup: Setup, run: seq<Step>) {
    OneYoungTripEach(After(setup, run)) && (run == [] || OneYoungTripThroughout(setup, run[..|run| - 1]))
  }

  predicate NeverBooksTwice(setup: Setup, run: seq<Step>) {
    run == [] ||
    (NeverBooksTwice(setup, run[..|run| - 1]) && !BooksTwice(After(setup, run[..|run| - 1]), run[|run| - 1]))
  }

  /**
   In every run, with unchecked declines, re-arms, late and lost jobs: no driver ever has two
   active trips that are both under 25 minutes old, if and only if no accept of a young trip
   was allowed to a driver who already had one.
   */
  lemma {:induction false} RunHasOneYoungTripIff(setup: Setup, run: seq<Step>)
    requires IsRun(setup, run)
    ensures OneYoungTripThroughout(setup, run) <==> NeverBooksTwice(setup, run)
  {
    if run != [] {
      var front := run[..|run| - 1];
      RunHasOneYoungTripIff(setup, front);
      RunIsConsistent(setup, front);
      if OneYoungTripThroughout(setup, front) {
        StepKeepsOneYoungTripIff(setup, After(setup, front), run[|run| - 1]);
      }
    }
  }
}
