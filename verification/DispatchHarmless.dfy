/**
 Exactly which steps keep the joint invariant: also most unchecked declines and re-arms do.
 Runs of such harmless steps have everything guarded runs have, and one step outside them
 is one state outside the invariant.
 */
module DispatchHarmless {
  import opened TripLifecycle
  import opened DispatchModel
  import opened DispatchSafety
  import opened DispatchRuns
  import opened DispatchGuarded

  // ------------------------------------------------------- the unchecked decline

  /**
   From a state of a guarded run, a WebSocket decline of (t, d) keeps attempts, locks and
   jobs in agreement if and only if the driver holds no lock, or holds it for that trip.
   */
  lemma WsDeclineAgreesIff(setup: Setup, s: State, t: TripId, d: DriverId, near: seq<DriverId>)
    requires WellConfigured(setup) && GuardedInvariant(setup, s)
    ensures Linked(setup, HandleDriverDeclineAndRetry(setup, s, t, d, near)) <==> d !in s.locks || HoldsLockFor(s, t, d)
  {
    if HoldsLockFor(s, t, d) {
      assert Notified(s, Pair(t, d));
      AnswerKeepsInvariant(setup, s, t, d, DriverDeclined, near);
    } else {
      assert Notified(s, Pair(t, d)) ==> Held(setup, s, Pair(t, d));
      UnaddressedDecline(setup, s, t, d, near);
      LosingALockDisagrees(setup, s, d);
    }
  }

  lemma LosingALockDisagrees(setup: Setup, s: State, d: DriverId)
    requires Linked(setup, s)
    ensures Linked(setup, s.(locks := s.locks - {d})) <==> d !in s.locks
  {
    var s1 := s.(locks := s.locks - {d});
    if d in s.locks {
      var p := Pair(s.locks[d].trip, d);
      assert Notified(s, p) && Notified(s1, p) && !Held(setup, s1, p);
    } else {
      assert s1 == s;
    }
  }

  lemma UnaddressedDecline(setup: Setup, s: State, t: TripId, d: DriverId, near: seq<DriverId>)
    requires GuardedInvariant(setup, s) && !Notified(s, Pair(t, d))
    ensures HandleDriverDeclineAndRetry(setup, s, t, d, near) == s.(locks := s.locks - {d})
  {
    UnaddressedDeclineDropsOnlyLock(setup, s, t, d);
    if IsPending(s, t) {
      assert Awaits(s, t);
    }
  }

  lemma UnaddressedDeclineDropsOnlyLock(setup: Setup, s: State, t: TripId, d: DriverId)
    requires Safe(setup, s) && !Notified(s, Pair(t, d))
    ensures HandleDriverDecline(s, t, d) == s.(locks := s.locks - {d})
    ensures NotifiedDrivers(HandleDriverDecline(s, t, d), t) == NotifiedDrivers(s, t)
  {
    var s1 := HandleDriverDecline(s, t, d);
    assert s1.attempts == s.attempts;
    assert Pair(t, d) !in s.jobKeys;
    assert s1.jobKeys == s.jobKeys;
    assert KeyedJobs(s, t, {d}) == {};
    assert s1.jobs == s.jobs;
  }

  /**
   A re-arm keeps the agreement if and only if the attempt was still waiting and its job
   ends before the lock the re-arm writes: a timed-out attempt comes back without any job.
   */
  lemma RearmAgreesIff(setup: Setup, s: State, p: Pair)
    requires WellConfigured(setup) && GuardedInvariant(setup, s) && IsLatestRequest(s, p)
    ensures Linked(setup, Rearm(s, p)) <==>
      Notified(s, p) && s.jobs[s.jobKeys[p].job].dueAt + setup.slack < s.now + REARM_LOCK_MS
  {
    var s1 := Rearm(s, p);
    assert !AcceptedByAnother(s, p);
    if Notified(s, p) {
      assert Held(setup, s, p);
      RearmOfNotified(setup, s, p);
    } else {
      assert p !in s.jobKeys && Notified(s1, p) && !Held(setup, s1, p);
    }
  }

  lemma RearmOfNotified(setup: Setup, s: State, p: Pair)
    requires GuardedInvariant(setup, s) && Notified(s, p) && Rearmable(s, p) && !AcceptedByAnother(s, p)
    requires p in s.jobKeys && s.jobKeys[p].job in s.jobs
    ensures Linked(setup, Rearm(s, p)) <==> s.jobs[s.jobKeys[p].job].dueAt + setup.slack < s.now + REARM_LOCK_MS
  {
    var lock := Lock(p.trip, s.now + REARM_LOCK_MS);
    var s1 := s.(locks := s.locks[p.driver := lock]);
    RearmOnlyRelocks(s, p);
    assert Notified(s1, p);
    if Held(setup, s1, p) {
      RelockedStaysLinked(setup, s, p, lock);
    }
  }

  lemma RearmOnlyRelocks(s: State, p: Pair)
    requires Notified(s, p) && Rearmable(s, p) && !AcceptedByAnother(s, p)
    ensures Rearm(s, p) == s.(locks := s.locks[p.driver := Lock(p.trip, s.now + REARM_LOCK_MS)])
  {
    assert Rearm(s, p).attempts == s.attempts;
  }

  lemma RelockedStaysLinked(setup: Setup, s: State, p: Pair, lock: Lock)
    requires Linked(setup, s) && Notified(s, p) && lock.trip == p.trip
    requires Held(setup, s.(locks := s.locks[p.driver := lock]), p)
    ensures Linked(setup, s.(locks := s.locks[p.driver := lock]))
  {
    var s1 := s.(locks := s.locks[p.driver := lock]);
    forall q | Notified(s1, q) ensures Held(setup, s1, q) {
      assert Notified(s, q) && Held(setup, s, q) && Held(setup, s, p);
    }
  }

  // ------------------------------------------------------------- harmless steps

  /**
   Known before the step: an unchecked decline hits no lock on another trip, a re-armed
   attempt still waits and its job ends before the new lock, and no job is late or lost.
   */
  ghost predicate Harmless(setup: Setup, s: State, step: Step) {
    match step
    case StepWsDecline(t, d, _) => d !in s.locks || HoldsLockFor(s, t, d)
    case StepRearm(p) =>
      Notified(s, p) && p in s.jobKeys && s.jobKeys[p].job in s.jobs &&
      s.jobs[s.jobKeys[p].job].dueAt + setup.slack < s.now + REARM_LOCK_MS
    case _ => Punctual(setup, s, step)
  }

  lemma DeclineOfUnlockedIsVoid(setup: Setup, s: State, t: TripId, d: DriverId, near: seq<DriverId>)
    requires GuardedInvariant(setup, s) && d !in s.locks
    ensures HandleDriverDeclineAndRetry(setup, s, t, d, near) == s
  {
    UnlockedIsNotNotified(setup, s, t, d);
    UnaddressedDecline(setup, s, t, d, near);
    NothingUnlocked(s, d);
  }

  lemma UnlockedIsNotNotified(setup: Setup, s: State, t: TripId, d: DriverId)
    requires GuardedInvariant(setup, s) && d !in s.locks
    ensures !Notified(s, Pair(t, d))
  {
    assert Notified(s, Pair(t, d)) ==> Held(setup, s, Pair(t, d));
  }

  lemma NothingUnlocked(s: State, d: DriverId)
    requires d !in s.locks
    ensures s.(locks := s.locks - {d}) == s
  {
    assert s.locks - {d} == s.locks;
  }

  lemma HarmlessDeclineKeepsInvariant(setup: Setup, s: State, t: TripId, d: DriverId, near: seq<DriverId>)
    requires WellConfigured(setup) && GuardedInvariant(setup, s) && (d !in s.locks || HoldsLockFor(s, t, d))
    ensures GuardedInvariant(setup, HandleDriverDeclineAndRetry(setup, s, t, d, near))
  {
    if HoldsLockFor(s, t, d) {
      assert Notified(s, Pair(t, d));
      AnswerKeepsInvariant(setup, s, t, d, DriverDeclined, near);
    } else {
      DeclineOfUnlockedIsVoid(setup, s, t, d, near);
    }
  }

  lemma RelockedStaysFree(s: State, d: DriverId, lock: Lock)
    requires DriversFree(s) && d in s.locks
    ensures DriversFree(s.(locks := s.locks[d := lock]))
  {
    var s' := s.(locks := s.locks[d := lock]);
    assert s'.locks.Keys == s.locks.Keys;
    FewerEngagementsStayFree(s, s');
  }

  lemma RelockedStillAwaits(s: State, d: DriverId, lock: Lock, t: TripId)
    requires Awaits(s, t)
    ensures Awaits(s.(locks := s.locks[d := lock]), t)
  {
    assert NotifiedDrivers(s.(locks := s.locks[d := lock]), t) == NotifiedDrivers(s, t);
  }

  lemma HarmlessRearmKeepsInvariant(setup: Setup, s: State, p: Pair)
    requires WellConfigured(setup) && GuardedInvariant(setup, s) && IsLatestRequest(s, p)
    requires Harmless(setup, s, StepRearm(p))
    ensures GuardedInvariant(setup, Rearm(s, p))
  {
    assert Held(setup, s, p);
    RearmKeepsSafe(setup, s, p);
    RearmAgreesIff(setup, s, p);
    RearmOfLatestRelocks(setup, s, p);
    var lock := Lock(p.trip, s.now + REARM_LOCK_MS);
    RelockedStaysFree(s, p.driver, lock);
    forall t | t in s.trips ensures Awaits(Rearm(s, p), t) {
      RelockedStillAwaits(s, p.driver, lock, t);
    }
  }

  lemma RearmOfLatestRelocks(setup: Setup, s: State, p: Pair)
    requires GuardedInvariant(setup, s) && IsLatestRequest(s, p) && Notified(s, p)
    ensures Rearm(s, p) == s.(locks := s.locks[p.driver := Lock(p.trip, s.now + REARM_LOCK_MS)])
  {
    assert !AcceptedByAnother(s, p);
    RearmOnlyRelocks(s, p);
  }

  lemma HarmlessStepKeepsInvariant(setup: Setup, s: State, step: Step)
    requires WellConfigured(setup) && GuardedInvariant(setup, s) && Possible(s, step) && Harmless(setup, s, step)
    ensures GuardedInvariant(setup, Next(setup, s, step))
  {
    match step
    case StepWsDecline(t, d, near) => HarmlessDeclineKeepsInvariant(setup, s, t, d, near);
    case StepRearm(p) => HarmlessRearmKeepsInvariant(setup, s, p);
    case _ => StepKeepsInvariant(setup, s, step);
  }

  lemma LosingAJobDisagrees(setup: Setup, s: State, j: JobId)
    requires GuardedInvariant(setup, s) && j in s.jobs
    ensures !KeysBacked(setup, LoseJob(s, j))
  {
    var s' := LoseJob(s, j);
    var p := s.jobs[j].pair;
    assert p in s'.jobKeys && s'.jobKeys[p].job == j && j !in s'.jobs;
  }

  lemma LatenessDisagrees(setup: Setup, s: State, time: int)
    requires !Punctual(setup, s, StepClock(time))
    ensures !JobsBacked(setup, AdvanceClock(s, time))
  {
    var s' := AdvanceClock(s, time);
    var j :| j in s.jobs && !(time <= s.jobs[j].dueAt + setup.slack);
    assert j in s'.jobs && !(s'.now <= s'.jobs[j].dueAt + setup.slack);
  }

  /** A possible step leads from the joint invariant to the joint invariant if and only if it is harmless. */
  lemma StepKeepsInvariantIff(setup: Setup, s: State, step: Step)
    requires WellConfigured(setup) && GuardedInvariant(setup, s) && Possible(s, step)
    ensures GuardedInvariant(setup, Next(setup, s, step)) <==> Harmless(setup, s, step)
  {
    if Harmless(setup, s, step) {
      HarmlessStepKeepsInvariant(setup, s, step);
    } else {
      HarmBreaksInvariant(setup, s, step);
    }
  }

  lemma HarmBreaksInvariant(setup: Setup, s: State, step: Step)
    requires WellConfigured(setup) && GuardedInvariant(setup, s) && Possible(s, step) && !Harmless(setup, s, step)
    ensures !GuardedInvariant(setup, Next(setup, s, step))
  {
    match step
    case StepWsDecline(t, d, near) => WsDeclineAgreesIff(setup, s, t, d, near);
    case StepRearm(p) =>
      assert Notified(s, p) ==> Held(setup, s, p);
      RearmAgreesIff(setup, s, p);
    case StepLoseJob(j) => LosingAJobDisagrees(setup, s, j);
    case StepClock(time) => LatenessDisagrees(setup, s, time);
  }

  // -------------------------------------------------------------- harmless runs

  ghost predicate IsHarmlessRun(setup: Setup, run: seq<Step>) {
    run == [] ||
    (IsHarmlessRun(setup, run[..|run| - 1]) &&
     Possible(After(setup, run[..|run| - 1]), run[|run| - 1]) &&
     Harmless(setup, After(setup, run[..|run| - 1]), run[|run| - 1]))
  }

  lemma {:induction false} GuardedIsHarmless(setup: Setup, run: seq<Step>)
    requires IsGuardedRun(setup, run)
    ensures IsHarmlessRun(setup, run)
  {
    if run != [] {
      var front := run[..|run| - 1];
      assert forall i :: 0 <= i < |front| ==> front[i] == run[i];
      GuardedIsHarmless(setup, front);
      assert IsGuarded(run[|run| - 1]);
    }
  }

  lemma {:induction false} HarmlessRunKeepsInvariant(setup: Setup, run: seq<Step>)
    requires WellConfigured(setup) && IsHarmlessRun(setup, run)
    ensures GuardedInvariant(setup, After(setup, run))
  {
    if run != [] {
      var front := run[..|run| - 1];
      HarmlessRunKeepsInvariant(setup, front);
      HarmlessStepKeepsInvariant(setup, After(setup, front), run[|run| - 1]);
    }
  }

  /** The joint invariant holds after the run and after each of its prefixes. */
  ghost predicate InvariantThroughout(setup: Setup, run: seq<Step>) {
    GuardedInvariant(setup, After(setup, run)) && (run == [] || InvariantThroughout(setup, run[..|run| - 1]))
  }

  lemma EmptyStateIsGuarded(setup: Setup)
    ensures GuardedInvariant(setup, EMPTY_STATE)
  {}

  /** Of all runs, exactly the harmless ones keep the joint invariant in every state. */
  lemma {:induction false} RunKeepsInvariantIff(setup: Setup, run: seq<Step>)
    requires WellConfigured(setup) && IsRun(setup, run)
    ensures InvariantThroughout(setup, run) <==> IsHarmlessRun(setup, run)
  {
    if run == [] {
      EmptyStateIsGuarded(setup);
    } else {
      var front := run[..|run| - 1];
      RunKeepsInvariantIff(setup, front);
      if InvariantThroughout(setup, front) {
        StepKeepsInvariantIff(setup, After(setup, front), run[|run| - 1]);
      }
    }
  }

  // ------------------------------------------------------------------- theorems

  /**
   In every state of a harmless run an attempt waits for an answer if and only if the
   driver's lock names that trip, if and only if the pair has a job key; the key then names
   the pair's one live job.
   */
  lemma AttemptLockAndJobAgree(setup: Setup, run: seq<Step>, p: Pair)
    requires WellConfigured(setup) && IsHarmlessRun(setup, run)
    ensures var s := After(setup, run);
      (Notified(s, p) <==> HoldsLockFor(s, p.trip, p.driver)) &&
      (Notified(s, p) <==> p in s.jobKeys) &&
      (Notified(s, p) <==> exists j :: j in s.jobs && s.jobs[j].pair == p) &&
      (forall j :: j in s.jobs && s.jobs[j].pair == p <==> p in s.jobKeys && s.jobKeys[p].job == j)
  {
    HarmlessRunKeepsInvariant(setup, run);
    var s := After(setup, run);
    if Notified(s, p) {
      assert Held(setup, s, p);
      assert s.jobKeys[p].job in s.jobs && s.jobs[s.jobKeys[p].job].pair == p;
    }
  }

  /** No driver ever has two active trips that are both under 25 minutes old. */
  lemma NoDriverHasTwoYoungTrips(setup: Setup, run: seq<Step>, d: DriverId, t: TripId, u: TripId)
    requires WellConfigured(setup) && IsHarmlessRun(setup, run)
    requires var s := After(setup, run); t in s.trips && u in s.trips
    requires var s := After(setup, run); Engages(s.trips[t], d, s.now) && Engages(s.trips[u], d, s.now)
    ensures t == u
  {
    HarmlessRunKeepsInvariant(setup, run);
  }

  /** A pending trip always waits on a notified driver whose timeout job is live and not overdue. */
  lemma PendingTripHasLiveJob(setup: Setup, run: seq<Step>, t: TripId)
    requires WellConfigured(setup) && IsHarmlessRun(setup, run) && IsPending(After(setup, run), t)
    ensures exists j :: IsAwaitedJob(setup, After(setup, run), t, j)
  {
    HarmlessRunKeepsInvariant(setup, run);
    var j := AwaitedJob(setup, After(setup, run), t);
  }

  /** The early return of handleDriverAccept is dead in harmless runs: an allowed accept holds the lock. */
  lemma AcceptAlwaysHoldsLock(setup: Setup, run: seq<Step>, t: TripId, actor: Actor)
    requires WellConfigured(setup) && IsHarmlessRun(setup, run)
    requires UpdateStatus(After(setup, run), t, actor, Accepted).outcome == Done
    ensures HoldsLockFor(After(setup, run), t, actor.profile.value)
    ensures IsQuiet(UpdateStatus(After(setup, run), t, actor, Accepted).state, t)
  {
    HarmlessRunKeepsInvariant(setup, run);
    assert Held(setup, After(setup, run), Pair(t, actor.profile.value));
    AcceptQuietensIffLockMatches(setup, After(setup, run), t, actor);
  }
}
