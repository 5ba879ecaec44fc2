/**
 Theorems about every run of the dispatch protocol, unchecked declines, re-arms, late jobs
 and lost jobs included: what locks mean, who a trip belongs to, how its status moves, when
 it has gone quiet. What is said about jobs holds of punctual runs.
 */
module DispatchRuns {
  import opened Prelude
  import opened TripLifecycle
  import opened DispatchModel
  import opened DispatchConsistency
  import opened DispatchSafety

  lemma {:induction false} RunIsConsistent(setup: Setup, run: seq<Step>)
    requires IsRun(setup, run)
    ensures Consistent(After(setup, run))
  {
    if run != [] {
      var front := run[..|run| - 1];
      RunIsConsistent(setup, front);
      StepIsSound(setup, After(setup, front), run[|run| - 1]);
    }
  }

  lemma {:induction false} PunctualIsRun(setup: Setup, run: seq<Step>)
    requires IsPunctualRun(setup, run)
    ensures IsRun(setup, run)
  {
    if run != [] {
      PunctualIsRun(setup, run[..|run| - 1]);
    }
  }

  lemma {:induction false} RunIsSafe(setup: Setup, run: seq<Step>)
    requires KeysOutliveJobs(setup) && IsPunctualRun(setup, run)
    ensures Safe(setup, After(setup, run))
  {
    if run != [] {
      var front := run[..|run| - 1];
      RunIsSafe(setup, front);
      StepIsSafe(setup, After(setup, front), run[|run| - 1]);
    }
  }

  lemma {:induction false} PrefixIsRun(setup: Setup, run: seq<Step>, k: nat)
    requires IsRun(setup, run) && k <= |run|
    ensures IsRun(setup, run[..k])
    decreases |run|
  {
    if k < |run| {
      var front := run[..|run| - 1];
      PrefixIsRun(setup, front, k);
      assert front[..k] == run[..k];
    } else {
      assert run[..k] == run;
    }
  }

  lemma {:induction false} PrefixIsPunctual(setup: Setup, run: seq<Step>, k: nat)
    requires IsPunctualRun(setup, run) && k <= |run|
    ensures IsPunctualRun(setup, run[..k])
    decreases |run|
  {
    if k < |run| {
      var front := run[..|run| - 1];
      PrefixIsPunctual(setup, front, k);
      assert front[..k] == run[..k];
    } else {
      assert run[..k] == run;
    }
  }

  /** Step `k` of a run leads from one consistent state to the next, writing only legal edges. */
  lemma StepOfRun(setup: Setup, run: seq<Step>, k: nat)
    requires IsRun(setup, run) && k < |run|
    ensures var s := After(setup, run[..k]);
      Consistent(s) && Possible(s, run[k]) &&
      After(setup, run[..k + 1]) == Next(setup, s, run[k]) &&
      StepSound(s, run[k], After(setup, run[..k + 1]))
  {
    PrefixIsRun(setup, run, k);
    PrefixIsRun(setup, run, k + 1);
    assert run[..k + 1][..k] == run[..k];
    RunIsConsistent(setup, run[..k]);
    StepIsSound(setup, After(setup, run[..k]), run[k]);
  }

  lemma StepMovesForward(setup: Setup, run: seq<Step>, k: nat, s: State, s': State)
    requires IsRun(setup, run) && k < |run|
    requires s == After(setup, run[..k]) && s' == After(setup, run[..k + 1])
    ensures Later(s, s')
  {
    StepOfRun(setup, run, k);
  }

  lemma RunGrows(setup: Setup, run: seq<Step>, step: Step)
    requires IsRun(setup, run) && Possible(After(setup, run), step)
    ensures IsRun(setup, run + [step]) && After(setup, run + [step]) == Next(setup, After(setup, run), step)
    ensures IsPunctualRun(setup, run) && Punctual(setup, After(setup, run), step) ==> IsPunctualRun(setup, run + [step])
  {
    var longer := run + [step];
    assert longer[..|longer| - 1] == run;
  }

  ghost predicate EachLater(states: seq<State>) {
    forall i :: 0 < i < |states| ==> Later(states[i - 1], states[i])
  }

  lemma {:induction false} LaterAlong(states: seq<State>, k: nat, m: nat)
    requires EachLater(states) && k <= m < |states|
    ensures Later(states[k], states[m])
    decreases m
  {
    if k == m {
      LaterIsReflexive(states[k]);
    } else {
      LaterAlong(states, k, m - 1);
      LaterIsTransitive(states[k], states[m - 1], states[m]);
    }
  }

  /** The state before the first step and after each one. */
  function StatesAlong(setup: Setup, run: seq<Step>): (states: seq<State>)
    ensures |states| == |run| + 1
    ensures forall i :: 0 <= i <= |run| ==> states[i] == After(setup, run[..i])
  {
    seq(|run| + 1, i requires 0 <= i <= |run| => After(setup, run[..i]))
  }

  lemma RunMovesForward(setup: Setup, run: seq<Step>, states: seq<State>)
    requires IsRun(setup, run) && states == StatesAlong(setup, run)
    ensures EachLater(states)
  {
    forall i | 0 < i < |states| ensures Later(states[i - 1], states[i]) {
      StepMovesForward(setup, run, i - 1, states[i - 1], states[i]);
    }
  }

  /** Any later state of a run, `b`, follows from any earlier one, `a`. */
  lemma RunOnlyMovesForward(setup: Setup, run: seq<Step>, k: nat, m: nat, a: State, b: State)
    requires IsRun(setup, run) && k <= m <= |run|
    requires a == After(setup, run[..k]) && b == After(setup, run[..m])
    ensures Later(a, b)
  {
    var states := StatesAlong(setup, run);
    RunMovesForward(setup, run, states);
    LaterAlong(states, k, m);
  }

  /** A live lock always belongs to an attempt that waits for an answer, in every run. */
  lemma LocksNameNotifiedAttempts(setup: Setup, run: seq<Step>)
    requires IsRun(setup, run)
    ensures var s := After(setup, run);
      forall d :: d in s.locks ==> Notified(s, Pair(s.locks[d].trip, d))
  {
    RunIsConsistent(setup, run);
  }

  /**
   In punctual runs the same holds of a live job; a pair has at most one live job, and the
   pair's job key is exactly that job.
   */
  lemma JobsNameNotifiedAttempts(setup: Setup, run: seq<Step>)
    requires KeysOutliveJobs(setup) && IsPunctualRun(setup, run)
    ensures var s := After(setup, run);
      (forall j :: j in s.jobs ==> Notified(s, s.jobs[j].pair)) &&
      (forall i, j :: i in s.jobs && j in s.jobs && s.jobs[i].pair == s.jobs[j].pair ==> i == j) &&
      (forall p, j :: p in s.jobKeys && s.jobKeys[p].job == j <==> j in s.jobs && s.jobs[j].pair == p)
  {
    RunIsSafe(setup, run);
  }

  // ------------------------------------------------------------------ assignment

  /**
   At most one attempt of a trip is ever accepted. From then on, in every later state, it
   is still the accepted one, the trip is not pending and belongs to that driver.
   */
  lemma AcceptanceIsForGood(setup: Setup, run: seq<Step>, k: nat, m: nat, p: Pair, q: Pair)
    requires IsRun(setup, run) && k <= m <= |run| && p.trip == q.trip
    requires var s := After(setup, run[..k]); p in s.attempts && s.attempts[p].status == DriverAccepted
    ensures var s := After(setup, run[..m]);
      p in s.attempts && s.attempts[p].status == DriverAccepted &&
      p.trip in s.trips && s.trips[p.trip].status != Pending && s.trips[p.trip].driver == Some(p.driver) &&
      (q in s.attempts && s.attempts[q].status == DriverAccepted ==> q == p)
  {
    RunOnlyMovesForward(setup, run, k, m, After(setup, run[..k]), After(setup, run[..m]));
    PrefixIsRun(setup, run, m);
    RunIsConsistent(setup, run[..m]);
  }

  /** The driver column is empty while the trip is pending and is never overwritten. */
  lemma DriverIsWrittenOnce(setup: Setup, run: seq<Step>, k: nat, m: nat, t: TripId)
    requires IsRun(setup, run) && k <= m <= |run|
    requires t in After(setup, run[..k]).trips
    ensures t in After(setup, run[..m]).trips
    ensures var a := After(setup, run[..k]).trips[t]; var b := After(setup, run[..m]).trips[t];
      (a.status == Pending ==> a.driver == None) && (a.driver.Some? ==> b.driver == a.driver)
  {
    RunOnlyMovesForward(setup, run, k, m, After(setup, run[..k]), After(setup, run[..m]));
    PrefixIsRun(setup, run, k);
    RunIsConsistent(setup, run[..k]);
  }

  /** The table's edge from pending to cancelled_by_driver is refused in every reachable state. */
  lemma PendingIsNeverCancelledByDriver(setup: Setup, run: seq<Step>, s: State, t: TripId, actor: Actor)
    requires IsRun(setup, run) && s == After(setup, run) && IsPending(s, t)
    ensures CanTransition(Pending, CancelledByDriver)
    ensures UpdateStatus(s, t, actor, CancelledByDriver) == Reply(s, Forbidden)
  {
    RunIsConsistent(setup, run);
    NobodyMayCancelPending(s, t, actor);
  }

  lemma NobodyMayCancelPending(s: State, t: TripId, actor: Actor)
    requires Consistent(s) && IsPending(s, t)
    ensures CanTransition(Pending, CancelledByDriver) && UpdateStatus(s, t, actor, CancelledByDriver) == Reply(s, Forbidden)
  {
    assert s.trips[t].driver == None;
  }

  // ------------------------------------------------------------------- statuses

  /** The statuses of trip `t` after each step of the run, from its creation on. */
  function StatusesOf(setup: Setup, run: seq<Step>, t: TripId): seq<TripStatus> {
    if run == [] then []
    else
      var path := StatusesOf(setup, run[..|run| - 1], t);
      if t in After(setup, run).trips then path + [After(setup, run).trips[t].status] else path
  }

  lemma {:induction false} StatusesFormAPath(setup: Setup, run: seq<Step>, t: TripId)
    requires IsRun(setup, run)
    ensures var path := StatusesOf(setup, run, t);
      IsStatusPath(path) && (path != [] <==> t in After(setup, run).trips) &&
      (path != [] ==> path[|path| - 1] == After(setup, run).trips[t].status)
  {
    if run != [] {
      var front := run[..|run| - 1];
      StatusesFormAPath(setup, front, t);
      RunIsConsistent(setup, front);
      StepIsSound(setup, After(setup, front), run[|run| - 1]);
      var path := StatusesOf(setup, front, t);
      var s := After(setup, front);
      var s' := After(setup, run);
      if t in s'.trips && path != [] {
        assert s'.trips[t].status == s.trips[t].status
            || CanTransition(s.trips[t].status, s'.trips[t].status)
            || StaleEdge(s.trips[t].status, s'.trips[t].status);
      }
    }
  }

  /** In any run a trip changes status at most four times, and never leaves a terminal one. */
  lemma AtMostFourChanges(setup: Setup, run: seq<Step>, t: TripId)
    requires IsRun(setup, run)
    ensures var path := StatusesOf(setup, run, t);
      Changes(path) <= 4 &&
      forall i, j :: 0 <= i <= j < |path| && IsTerminal(path[i]) ==> path[j] == path[i]
  {
    StatusesFormAPath(setup, run, t);
    var path := StatusesOf(setup, run, t);
    if path != [] {
      ChangesAreBoundedByRank(path);
    }
  }

  // ----------------------------------------------------------------- quiescence

  /** No lock, job, job key or notified attempt names trip `t`. */
  ghost predicate IsQuiet(s: State, t: TripId) {
    (forall d :: d in s.locks ==> s.locks[d].trip != t) &&
    (forall j :: j in s.jobs ==> s.jobs[j].pair.trip != t) &&
    (forall p :: p in s.jobKeys ==> p.trip != t) &&
    (forall p :: p in s.attempts && p.trip == t ==> s.attempts[p].status != DriverNotified)
  }

  lemma QuietIsNoNotified(setup: Setup, s: State, t: TripId)
    requires Safe(setup, s)
    ensures IsQuiet(s, t) <==> NotifiedDrivers(s, t) == {}
  {
    assert forall p :: Notified(s, p) && p.trip == t ==> p.driver in NotifiedDrivers(s, t);
    if NotifiedDrivers(s, t) == {} {
      forall d | d in s.locks ensures s.locks[d].trip != t {
        assert Notified(s, Pair(s.locks[d].trip, d));
      }
    } else {
      var d :| d in NotifiedDrivers(s, t);
      var p :| p in s.attempts && p.trip == t && s.attempts[p].status == DriverNotified && p.driver == d;
    }
  }

  /** The set of notified attempts of a trip that is no longer pending only shrinks. */
  lemma SettledTripsOnlyQuieten(setup: Setup, run: seq<Step>, k: nat, m: nat, t: TripId)
    requires IsRun(setup, run) && k <= m <= |run|
    requires t in After(setup, run[..k]).trips && !IsPending(After(setup, run[..k]), t)
    ensures NotifiedDrivers(After(setup, run[..m]), t) <= NotifiedDrivers(After(setup, run[..k]), t)
  {
    RunOnlyMovesForward(setup, run, k, m, After(setup, run[..k]), After(setup, run[..m]));
    var s, s' := After(setup, run[..k]), After(setup, run[..m]);
    forall d | d in NotifiedDrivers(s', t) ensures d in NotifiedDrivers(s, t) {
      var p :| p in s'.attempts && p.trip == t && s'.attempts[p].status == DriverNotified && p.driver == d;
      assert Notified(s', p) && Notified(s, p);
    }
  }

  /** An accepted transition of `t` leaves it quiet at once, for these three requests. */
  ghost predicate Settles(s: State, t: TripId, actor: Actor, to: TripStatus) {
    UpdateStatus(s, t, actor, to).outcome == Done &&
    (to in {CancelledByClient, CancelledAuto} ||
     (to == Accepted && HoldsLockFor(s, t, actor.profile.value)))
  }

  lemma SettlingQuietens(s: State, t: TripId, actor: Actor, to: TripStatus)
    requires Settles(s, t, actor, to)
    ensures var s' := UpdateStatus(s, t, actor, to).state;
      t in s'.trips && !IsPending(s', t) && NotifiedDrivers(s', t) == {}
  {
    if to == Accepted {
      AcceptIsAssignThenDrop(s, t, actor.profile.value);
    }
  }

  /**
   After an accept whose lock matched, or a cancellation by the client or the system, no
   lock and no waiting attempt names the trip: now and in every later state of any run.
   */
  lemma SettledForGood(setup: Setup, run: seq<Step>, k: nat, m: nat, t: TripId, actor: Actor, to: TripStatus)
    requires IsRun(setup, run) && k < m <= |run|
    requires run[k] == StepUpdateStatus(t, actor, to) && Settles(After(setup, run[..k]), t, actor, to)
    ensures IsReleased(After(setup, run[..m]), t)
  {
    StepOfRun(setup, run, k);
    SettlingQuietens(After(setup, run[..k]), t, actor, to);
    SettledTripsOnlyQuieten(setup, run, k + 1, m, t);
    PrefixIsRun(setup, run, m);
    RunIsConsistent(setup, run[..m]);
    NoNotifiedNoLock(After(setup, run[..m]), t);
  }

  /** Nobody waits on trip `t` and no lock names it. */
  ghost predicate IsReleased(s: State, t: TripId) {
    NotifiedDrivers(s, t) == {} && forall d :: d in s.locks ==> s.locks[d].trip != t
  }

  lemma NoNotifiedNoLock(s: State, t: TripId)
    requires Consistent(s) && NotifiedDrivers(s, t) == {}
    ensures IsReleased(s, t)
  {
    assert forall p :: Notified(s, p) && p.trip == t ==> p.driver in NotifiedDrivers(s, t);
    forall d | d in s.locks ensures s.locks[d].trip != t {
      assert Notified(s, Pair(s.locks[d].trip, d));
    }
  }

  /** In punctual runs no job and no job key names it either. */
  lemma SettledWithoutJobs(setup: Setup, run: seq<Step>, k: nat, m: nat, t: TripId, actor: Actor, to: TripStatus)
    requires KeysOutliveJobs(setup) && IsPunctualRun(setup, run) && k < m <= |run|
    requires run[k] == StepUpdateStatus(t, actor, to) && Settles(After(setup, run[..k]), t, actor, to)
    ensures IsQuiet(After(setup, run[..m]), t)
  {
    PunctualIsRun(setup, run);
    SettledForGood(setup, run, k, m, t, actor, to);
    PrefixIsPunctual(setup, run, m);
    RunIsSafe(setup, run[..m]);
    QuietIsNoNotified(setup, After(setup, run[..m]), t);
  }

  lemma AcceptWithoutLockKeepsWaiting(s: State, t: TripId, actor: Actor)
    requires UpdateStatus(s, t, actor, Accepted).outcome == Done && !HoldsLockFor(s, t, actor.profile.value)
    ensures actor.profile.value in NotifiedDrivers(UpdateStatus(s, t, actor, Accepted).state, t)
  {
    assert Notified(UpdateStatus(s, t, actor, Accepted).state, Pair(t, actor.profile.value));
  }

  /**
   In every consistent state an accept goes through with or without the lock; it leaves the
   trip without locks and waiting attempts exactly with it.
   */
  lemma AcceptReleasesIffLockMatches(s: State, t: TripId, actor: Actor)
    requires Consistent(s) && UpdateStatus(s, t, actor, Accepted).outcome == Done
    ensures var s' := UpdateStatus(s, t, actor, Accepted).state;
      s'.trips[t].status == Accepted && s'.trips[t].driver == actor.profile &&
      (IsReleased(s', t) <==> HoldsLockFor(s, t, actor.profile.value))
  {
    UpdateStatusSound(s, t, actor, Accepted);
    if HoldsLockFor(s, t, actor.profile.value) {
      SettlingQuietens(s, t, actor, Accepted);
      NoNotifiedNoLock(UpdateStatus(s, t, actor, Accepted).state, t);
    } else {
      AcceptWithoutLockKeepsWaiting(s, t, actor);
    }
  }

  /** In safe states the same holds of jobs and job keys. */
  lemma AcceptQuietensIffLockMatches(setup: Setup, s: State, t: TripId, actor: Actor)
    requires Safe(setup, s) && UpdateStatus(s, t, actor, Accepted).outcome == Done
    ensures IsQuiet(UpdateStatus(s, t, actor, Accepted).state, t) <==> HoldsLockFor(s, t, actor.profile.value)
  {
    AcceptReleasesIffLockMatches(s, t, actor);
    UpdateStatusKeepsSafe(setup, s, t, actor, Accepted);
    var s' := UpdateStatus(s, t, actor, Accepted).state;
    QuietIsNoNotified(setup, s', t);
    if NotifiedDrivers(s', t) == {} {
      NoNotifiedNoLock(s', t);
    }
  }
}
