/**
 The services as they run: one object whose fields are the shared stores, its methods in
 the order the handlers write them. Every method is proved to do what its function in
 `DispatchModel` says; `history` records the handled steps, so the object's state is at
 all times the state after a run and everything proved of runs holds of it.
 */
module DispatchSystem {
  import opened Prelude
  import opened TripLifecycle
  import opened DispatchModel
  import opened DispatchRuns

  class System {
    const setup: Setup
    var now: int
    var trips: map<TripId, Trip>
    var attempts: map<Pair, Attempt>
    var locks: map<DriverId, Lock>
    var jobs: map<JobId, Job>
    var jobKeys: map<Pair, JobKey>
    var rounds: map<TripId, Rounds>
    var nextJob: JobId
    var lastSweep: int
    ghost var history: seq<Step>

    ghost function View(): State
      reads this
    {
      State(now, trips, attempts, locks, jobs, jobKeys, rounds, nextJob, lastSweep)
    }

    ghost predicate Valid()
      reads this
    {
      IsRun(setup, history) && View() == After(setup, history)
    }

    constructor (setup: Setup)
      ensures Valid() && history == [] && this.setup == setup && View() == EMPTY_STATE
    {
      this.setup := setup;
      now, nextJob, lastSweep := 0, 0, 0;
      trips, attempts, locks, jobs, jobKeys, rounds := map[], map[], map[], map[], map[], map[];
      history := [];
    }

    // ------------------------------------------------------------- queue service

    method ScheduleDispatchTimeout(p: Pair, delay: nat) returns (j: JobId)
      modifies this`jobs, this`nextJob
      ensures j == old(nextJob) && nextJob == j + 1
      ensures jobs == old(jobs)[j := Job(p, now + delay)]
    {
      j := nextJob;
      jobs := jobs[j := Job(p, now + delay)];
      nextJob := nextJob + 1;
    }

    method CancelDispatchTimeout(j: JobId)
      modifies this`jobs
      ensures jobs == old(jobs) - {j}
    {
      jobs := jobs - {j};
    }

    // ---------------------------------------------------------- dispatch service

    method CancelTimeoutJob(t: TripId, d: DriverId)
      modifies this`jobs, this`jobKeys
      ensures View() == DispatchModel.CancelTimeoutJob(old(View()), Pair(t, d))
    {
      var p := Pair(t, d);
      if p in jobKeys {
        CancelDispatchTimeout(jobKeys[p].job);
        jobKeys := jobKeys - {p};
      }
    }

    /** The candidate query: keeps the order of `near`, leaves out drivers with a young trip. */
    method FindNearbyDrivers(near: seq<DriverId>) returns (found: seq<DriverId>)
      ensures found == Candidates(View(), near)
    {
      found := [];
      var i := 0;
      ghost var s := View();
      while i < |near|
        invariant 0 <= i <= |near|
        invariant found + Candidates(s, near[i..]) == Candidates(s, near)
      {
        var engaged := HasYoung(near[i]);
        CandidatesUnfold(s, near, i, found, engaged);
        if !engaged {
          found := found + [near[i]];
        }
        i := i + 1;
      }
      assert near[i..] == [];
    }

    method HasYoung(d: DriverId) returns (engaged: bool)
      ensures engaged <==> HasYoungTrip(View(), d)
    {
      engaged := exists t :: t in trips && Engages(trips[t], d, now);
    }

    method EmitDispatchFailed(t: TripId)
      modifies this`rounds, this`trips
      ensures View() == FailTrip(old(View()), t)
    {
      rounds := rounds - {t};
      var updated := UpdateStatusIfPending(t, CancelledAuto);
    }

    method NotifyDriver(c: DispatchConfig, t: TripId, d: DriverId)
      modifies this`attempts, this`locks, this`jobs, this`jobKeys, this`nextJob
      ensures View() == Notify(c, old(View()), t, d)
    {
      locks := locks[d := Lock(t, now + LockTtlMs(c))];
      attempts := attempts[Pair(t, d) := Attempt(DriverNotified, now)];
      CancelTimeoutJob(t, d);
      var j := ScheduleDispatchTimeout(Pair(t, d), c.timeoutMs);
      jobKeys := jobKeys[Pair(t, d) := JobKey(j, now + JobKeyTtlMs(c))];
    }

    /** Notifies, in order, every driver of the wave whose lock is free. */
    method NotifyWave(c: DispatchConfig, t: TripId, wave: seq<DriverId>) returns (notified: seq<DriverId>)
      modifies this`attempts, this`locks, this`jobs, this`jobKeys, this`nextJob
      ensures WaveResult(View(), notified) == Wave(c, old(View()), t, wave)
    {
      notified := [];
      var i := 0;
      while i < |wave|
        invariant 0 <= i <= |wave|
        invariant WaveResult(View(), notified) == Wave(c, old(View()), t, wave[..i])
      {
        WaveUnfold(c, old(View()), t, wave, i, WaveResult(View(), notified));
        if wave[i] !in locks {
          NotifyDriver(c, t, wave[i]);
          notified := notified + [wave[i]];
        }
        i := i + 1;
      }
      assert wave[..i] == wave;
    }

    method AttemptDispatch(t: TripId, service: Service, near: seq<DriverId>)
      modifies this`trips, this`attempts, this`locks, this`jobs, this`jobKeys, this`rounds, this`nextJob
      ensures View() == DispatchModel.AttemptDispatch(setup, old(View()), t, service, near)
    {
      rounds := rounds[t := Rounds((if t in rounds then rounds[t].count else 0) + 1, now + ROUNDS_TTL_MS)];
      assert View() == BumpRounds(old(View()), t);
      var c := setup.config(service);
      var candidates := FindNearbyDrivers(near);
      if candidates == [] {
        EmitDispatchFailed(t);
      } else {
        var notified := NotifyWave(c, t, Take(candidates, c.maxAttempts));
        if notified == [] {
          EmitDispatchFailed(t);
        }
      }
    }

    method CheckAndRetryDispatch(t: TripId, near: seq<DriverId>)
      modifies this`trips, this`attempts, this`locks, this`jobs, this`jobKeys, this`rounds, this`nextJob
      ensures View() == CheckAndRetry(setup, old(View()), t, near)
    {
      if t !in trips || trips[t].status != Pending {
        return;
      }
      var remaining := FindNotified(t);
      if remaining == {} {
        var soFar := if t in rounds then rounds[t].count else 0;
        if soFar >= setup.config(trips[t].service).maxAttempts {
          EmitDispatchFailed(t);
        } else {
          AttemptDispatch(t, trips[t].service, near);
        }
      }
    }

    method FindNotified(t: TripId) returns (ds: set<DriverId>)
      ensures ds == NotifiedDrivers(View(), t)
    {
      ds := set p | p in attempts && p.trip == t && attempts[p].status == DriverNotified :: p.driver;
    }

    method HandleDriverTimeout(t: TripId, d: DriverId, near: seq<DriverId>)
      modifies this`trips, this`attempts, this`locks, this`jobs, this`jobKeys, this`rounds, this`nextJob
      ensures View() == DispatchModel.HandleDriverTimeout(setup, old(View()), t, d, near)
    {
      var p := Pair(t, d);
      if p in attempts && attempts[p].status == DriverNotified {
        attempts := attempts[p := attempts[p].(status := TimedOut)];
      }
      locks := locks - {d};
      jobKeys := jobKeys - {p};
      CheckAndRetryDispatch(t, near);
    }

    method HandleDriverDecline(t: TripId, d: DriverId)
      modifies this`attempts, this`locks, this`jobs, this`jobKeys
      ensures View() == DispatchModel.HandleDriverDecline(old(View()), t, d)
    {
      var p := Pair(t, d);
      SingleDrop(View(), t, d, DriverDeclined);
      if p in attempts && attempts[p].status == DriverNotified {
        attempts := attempts[p := attempts[p].(status := DriverDeclined)];
      }
      locks := locks - {d};
      CancelTimeoutJob(t, d);
    }

    method HandleDriverAccept(t: TripId, d: DriverId)
      requires t in trips
      modifies this`trips, this`attempts, this`locks, this`jobs, this`jobKeys, this`rounds
      ensures View() == DispatchModel.HandleDriverAccept(old(View()), t, d)
    {
      if d !in locks || locks[d].trip != t {
        return;
      }
      AcceptAttempt(t, d);
      ghost var m := View();
      var others := FindNotified(t);
      others := others - {d};
      DeclineOthers(t, others);
      LockRemovalCommutes(m, t, d, others);
      locks := locks - {d};
      rounds := rounds - {t};
      AssignDriver(t, d);
    }

    /** All of the drop but for the lock, which goes last. */
    method AcceptAttempt(t: TripId, d: DriverId)
      modifies this`attempts, this`jobs, this`jobKeys
      ensures View().(locks := locks - {d}) == Drop(old(View()), t, {d}, DriverAccepted)
    {
      SingleDrop(View(), t, d, DriverAccepted);
      var p := Pair(t, d);
      if p in attempts && attempts[p].status == DriverNotified {
        attempts := attempts[p := attempts[p].(status := DriverAccepted)];
      }
      CancelTimeoutJob(t, d);
    }

    method DeclineOther(t: TripId, d: DriverId)
      modifies this`attempts, this`locks, this`jobs, this`jobKeys
      ensures View() == Drop(old(View()), t, {d}, DriverDeclined)
    {
      SingleDrop(View(), t, d, DriverDeclined);
      locks := locks - {d};
      CancelTimeoutJob(t, d);
      var p := Pair(t, d);
      if p in attempts && attempts[p].status == DriverNotified {
        attempts := attempts[p := attempts[p].(status := DriverDeclined)];
      }
    }

    method DeclineOthers(t: TripId, others: set<DriverId>)
      modifies this`attempts, this`locks, this`jobs, this`jobKeys
      ensures View() == Drop(old(View()), t, others, DriverDeclined)
    {
      var todo := others;
      NothingDropped(View(), t, DriverDeclined);
      while todo != {}
        invariant todo <= others
        invariant View() == Drop(old(View()), t, others - todo, DriverDeclined)
        decreases todo
      {
        var d :| d in todo;
        DeclineOther(t, d);
        DropsAddUp(old(View()), t, others - todo, {d}, DriverDeclined);
        assert others - todo + {d} == others - (todo - {d});
        todo := todo - {d};
      }
      assert others - todo == others;
    }

    method ReleaseLocksForTrip(t: TripId)
      modifies this`attempts, this`locks, this`jobs, this`jobKeys
      ensures View() == DispatchModel.ReleaseLocksForTrip(old(View()), t)
    {
      var found := FindNotified(t);
      Unlock(t, found);
      attempts := map p | p in attempts ::
        if p.trip == t && attempts[p].status == DriverNotified
        then attempts[p].(status := TimedOut) else attempts[p];
      BulkTimeout(old(View()), t);
    }

    /** The loop of the release: lock and timeout job of each driver, attempts untouched. */
    method Unlock(t: TripId, ds: set<DriverId>)
      modifies this`locks, this`jobs, this`jobKeys
      ensures View() == Unlocked(old(View()), t, ds)
    {
      var todo := ds;
      NothingDropped(View(), t, TimedOut);
      while todo != {}
        invariant todo <= ds
        invariant View() == Unlocked(old(View()), t, ds - todo)
        decreases todo
      {
        var d :| d in todo;
        UnlockOne(t, d);
        UnlocksAddUp(old(View()), t, ds - todo, d);
        assert ds - todo + {d} == ds - (todo - {d});
        todo := todo - {d};
      }
      assert ds - todo == ds;
    }

    method UnlockOne(t: TripId, d: DriverId)
      modifies this`locks, this`jobs, this`jobKeys
      ensures View() == Unlocked(old(View()), t, {d})
    {
      locks := locks - {d};
      CancelTimeoutJob(t, d);
      SingleDrop(old(View()), t, d, TimedOut);
    }

    // --------------------------------------------------------------- trip repository

    method UpdateStatusIfPending(t: TripId, to: TripStatus) returns (count: nat)
      modifies this`trips
      ensures count == if IsPending(old(View()), t) then 1 else 0
      ensures View() == if IsPending(old(View()), t) then SetStatus(old(View()), t, to) else old(View())
    {
      count := 0;
      if t in trips && trips[t].status == Pending {
        trips := trips[t := trips[t].(status := to, updatedAt := now)];
        count := 1;
      }
    }

    method AssignDriver(t: TripId, d: DriverId)
      requires t in trips
      modifies this`trips
      ensures View() == DispatchModel.AssignDriver(old(View()), t, d)
    {
      trips := trips[t := trips[t].(status := Accepted, driver := Some(d), updatedAt := now)];
    }

    // ----------------------------------------------------------------- entry points

    ghost method Record(step: Step, before: State)
      requires IsRun(setup, history) && before == After(setup, history)
      requires Possible(before, step) && View() == Next(setup, before, step)
      modifies this`history
      ensures Valid() && history == old(history) + [step]
    {
      RunGrows(setup, history, step);
      history := history + [step];
    }

    method CreateTrip(t: TripId, client: UserId, service: Service, near: seq<DriverId>)
      requires Valid() && t !in trips
      modifies this
      ensures Valid() && history == old(history) + [StepCreate(t, client, service, near)]
      ensures View() == DispatchModel.CreateTrip(setup, old(View()), t, client, service, near)
    {
      ghost var s := View();
      trips := trips[t := Trip(client, service, Pending, None, now, now)];
      AttemptDispatch(t, service, near);
      Record(StepCreate(t, client, service, near), s);
    }

    method UpdateStatus(t: TripId, actor: Actor, to: TripStatus) returns (outcome: Outcome)
      requires Valid()
      modifies this
      ensures Valid() && history == old(history) + [StepUpdateStatus(t, actor, to)]
      ensures Reply(View(), outcome) == DispatchModel.UpdateStatus(old(View()), t, actor, to)
    {
      ghost var s := View();
      outcome := TryUpdateStatus(t, actor, to);
      Record(StepUpdateStatus(t, actor, to), s);
    }

    method TryUpdateStatus(t: TripId, actor: Actor, to: TripStatus) returns (outcome: Outcome)
      modifies this`trips, this`attempts, this`locks, this`jobs, this`jobKeys, this`rounds
      ensures Reply(View(), outcome) == DispatchModel.UpdateStatus(old(View()), t, actor, to)
    {
      if t !in trips {
        return NotFound;
      }
      if !CanTransition(trips[t].status, to) {
        return BadRequest;
      }
      match to {
        case Accepted =>
          if actor.role != DriverRole || actor.profile.None? {
            return Forbidden;
          }
          var d := actor.profile.value;
          if !(Pair(t, d) in attempts && attempts[Pair(t, d)].status == DriverNotified) {
            return Forbidden;
          }
          HandleDriverAccept(t, d);
          AssignDriver(t, d);
        case CancelledByClient =>
          if actor.role != ClientRole && actor.user != trips[t].client {
            return Forbidden;
          }
          ReleaseLocksForTrip(t);
          WriteStatus(t, to);
        case CancelledAuto =>
          ReleaseLocksForTrip(t);
          WriteStatus(t, to);
        case _ =>
          if actor.role != DriverRole || actor.profile.None? || trips[t].driver != actor.profile {
            return Forbidden;
          }
          WriteStatus(t, to);
      }
      outcome := Done;
    }

    method WriteStatus(t: TripId, to: TripStatus)
      requires t in trips
      modifies this`trips
      ensures View() == SetStatus(old(View()), t, to)
    {
      trips := trips[t := trips[t].(status := to, updatedAt := now)];
    }

    method DeclineTrip(t: TripId, d: DriverId, near: seq<DriverId>) returns (outcome: Outcome)
      requires Valid()
      modifies this
      ensures Valid() && history == old(history) + [StepDecline(t, d, near)]
      ensures View() == DispatchModel.DeclineTrip(setup, old(View()), t, d, near)
      ensures outcome == if t !in old(trips) then NotFound else if Notified(old(View()), Pair(t, d)) then Done else Forbidden
    {
      ghost var s := View();
      outcome := Done;
      if t !in trips {
        outcome := NotFound;
      } else if !(Pair(t, d) in attempts && attempts[Pair(t, d)].status == DriverNotified) {
        outcome := Forbidden;
      } else {
        HandleDriverDecline(t, d);
        CheckAndRetryDispatch(t, near);
      }
      Record(StepDecline(t, d, near), s);
    }

    method HandleWsDriverDecline(t: TripId, d: DriverId, near: seq<DriverId>)
      requires Valid()
      modifies this
      ensures Valid() && history == old(history) + [StepWsDecline(t, d, near)]
      ensures View() == HandleDriverDeclineAndRetry(setup, old(View()), t, d, near)
    {
      ghost var s := View();
      HandleDriverDecline(t, d);
      CheckAndRetryDispatch(t, near);
      Record(StepWsDecline(t, d, near), s);
    }

    method ProcessJob(j: JobId, near: seq<DriverId>)
      requires Valid() && Possible(View(), StepJob(j, near))
      modifies this
      ensures Valid() && history == old(history) + [StepJob(j, near)]
      ensures View() == DispatchModel.ProcessJob(setup, old(View()), j, near)
    {
      ghost var s := View();
      var p := jobs[j].pair;
      CancelDispatchTimeout(j);
      HandleDriverTimeout(p.trip, p.driver, near);
      Record(StepJob(j, near), s);
    }

    method CompleteTrip(t: TripId, actor: Actor) returns (outcome: Outcome)
      requires Valid()
      modifies this
      ensures Valid() && history == old(history) + [StepComplete(t, actor)]
      ensures Reply(View(), outcome) == DispatchModel.CompleteTrip(old(View()), t, actor)
    {
      ghost var s := View();
      outcome := CheckOwner(t, actor);
      if outcome == Done {
        WriteStatus(t, Completed);
      }
      Record(StepComplete(t, actor), s);
    }

    method ConfirmPaymentReceived(t: TripId, actor: Actor) returns (outcome: Outcome)
      requires Valid()
      modifies this
      ensures Valid() && history == old(history) + [StepConfirmPayment(t, actor)]
      ensures Reply(View(), outcome) == DispatchModel.ConfirmPaymentReceived(old(View()), t, actor)
    {
      ghost var s := View();
      outcome := CheckOwner(t, actor);
      if outcome == Done {
        trips := trips[t := trips[t].(updatedAt := now)];
      }
      Record(StepConfirmPayment(t, actor), s);
    }

    method CheckOwner(t: TripId, actor: Actor) returns (verdict: Outcome)
      ensures verdict == DriverOwns(View(), t, actor)
    {
      if actor.role != DriverRole {
        return Forbidden;
      }
      if t !in trips {
        return NotFound;
      }
      if actor.profile.None? || trips[t].driver != actor.profile {
        return Forbidden;
      }
      if trips[t].status != InProgress {
        return BadRequest;
      }
      return Done;
    }

    // ------------------------------------------------------------- recovery service

    /** The sweep's query: pending trips, oldest first. */
    method FindPending() returns (order: seq<TripId>)
      ensures IsPendingList(View(), order)
    {
      order := [];
      var todo := set t | t in trips && trips[t].status == Pending;
      ghost var all := todo;
      while todo != {}
        invariant todo <= all && Distinct(order)
        invariant forall t :: t in order <==> t in all && t !in todo
        invariant forall t, u :: t in order && u in todo ==> trips[t].createdAt <= trips[u].createdAt
        invariant forall i, j :: 0 <= i < j < |order| && order[i] in trips && order[j] in trips ==>
          trips[order[i]].createdAt <= trips[order[j]].createdAt
        decreases todo
      {
        var oldest := FindOldest(todo);
        order := order + [oldest];
        todo := todo - {oldest};
      }
    }

    method FindOldest(ids: set<TripId>) returns (oldest: TripId)
      requires ids != {} && ids <= trips.Keys
      ensures oldest in ids && forall t :: t in ids ==> trips[oldest].createdAt <= trips[t].createdAt
    {
      oldest :| oldest in ids;
      var todo := ids - {oldest};
      while todo != {}
        invariant oldest in ids && todo <= ids
        invariant forall t :: t in ids && t !in todo ==> trips[oldest].createdAt <= trips[t].createdAt
        decreases todo
      {
        var t :| t in todo;
        if trips[t].createdAt < trips[oldest].createdAt {
          oldest := t;
        }
        todo := todo - {t};
      }
    }

    /** One round of the orphan sweep; `quiet` is the periodic one, otherwise the boot-time one. */
    method Run(quiet: bool, near: map<TripId, seq<DriverId>>) returns (ghost order: seq<TripId>)
      requires Valid()
      modifies this
      ensures Valid() && history == old(history) + [StepSweepPending(quiet, order, near)]
      ensures IsPendingList(old(View()), order)
      ensures View() == SweepPending(setup, old(View()), quiet, order, near)
    {
      ghost var s := View();
      var pending := FindPending();
      order := pending;
      RecoverAll(quiet, pending, near);
      if quiet {
        SweepKeepsClock(setup, s, quiet, pending, near);
        lastSweep := now;
      }
      Record(StepSweepPending(quiet, order, near), s);
    }

    /** The loop of the sweep. */
    method RecoverAll(quiet: bool, pending: seq<TripId>, near: map<TripId, seq<DriverId>>)
      modifies this`trips, this`attempts, this`locks, this`jobs, this`jobKeys, this`rounds, this`nextJob
      ensures View() == SweepAll(setup, old(View()), quiet, pending, near)
    {
      var i := 0;
      while i < |pending|
        invariant 0 <= i <= |pending|
        invariant View() == SweepAll(setup, old(View()), quiet, pending[..i], near)
      {
        SweepUnfold(setup, old(View()), quiet, pending, near, i);
        RecoverTrip(quiet, pending[i], near);
        i := i + 1;
      }
      assert pending[..i] == pending;
    }

    method RecoverTrip(quiet: bool, t: TripId, near: map<TripId, seq<DriverId>>)
      modifies this`trips, this`attempts, this`locks, this`jobs, this`jobKeys, this`rounds, this`nextJob
      ensures View() == SweepOne(setup, old(View()), quiet, t, near)
    {
      if t !in trips {
        return;
      }
      var age := now - trips[t].createdAt;
      if quiet && age < REDISPATCH_MIN_AGE_MS {
        return;
      }
      if age > REDISPATCH_MAX_AGE_MS {
        EmitDispatchFailed(t);
        return;
      }
      var service := trips[t].service;
      ReleaseLocksForTrip(t);
      if t !in near {
        EmitDispatchFailed(t);
      } else {
        AttemptDispatch(t, service, near[t]);
      }
    }

    method SweepStaleAssigned() returns (ghost stale: seq<TripId>)
      requires Valid()
      modifies this
      ensures Valid() && history == old(history) + [StepSweepStale(stale)]
      ensures forall t :: t in stale <==> IsStale(old(View()), t)
      ensures View() == SweepStaleAll(old(View()), stale)
    {
      ghost var s := View();
      var todo := set t | t in trips && trips[t].status in {Accepted, DriverArriving} &&
                          trips[t].updatedAt < now - STALE_ASSIGNED_MS;
      ghost var all := todo;
      stale := [];
      while todo != {}
        invariant todo <= all && Distinct(stale) && history == old(history)
        invariant forall t :: t in stale <==> t in all && t !in todo
        invariant View() == SweepStaleAll(s, stale)
        decreases todo
      {
        var t :| t in todo;
        ghost var longer := stale + [t];
        assert longer[..|longer| - 1] == stale;
        CancelStale(t);
        stale := longer;
        todo := todo - {t};
      }
      Record(StepSweepStale(stale), s);
    }

    method CancelStale(t: TripId)
      modifies this`trips, this`attempts, this`locks, this`jobs, this`jobKeys
      ensures View() == SweepStaleOne(old(View()), t)
    {
      if t in trips {
        WriteStatus(t, CancelledAuto);
        ReleaseLocksForTrip(t);
      }
    }

    // ------------------------------------------------------------ pending request

    /** The latest open request of driver `d`, re-armed; nothing changes when there is none. */
    method GetPendingRequestForDriver(d: DriverId) returns (request: Option<TripId>)
      requires Valid()
      modifies this
      ensures Valid()
      ensures request.None? ==> View() == old(View()) && history == old(history)
      ensures request.None? ==>
        (forall p :: Rearmable(old(View()), p) ==> p.driver != d) ||
        (exists p :: IsLatestRequest(old(View()), p) && p.driver == d && AcceptedByAnother(old(View()), p))
      ensures request.Some? ==> var p := Pair(request.value, d);
        IsLatestRequest(old(View()), p) && View() == Rearm(old(View()), p) && history == old(history) + [StepRearm(p)]
    {
      ghost var s := View();
      var latest := FindLatestRequest(d);
      if latest == None {
        return None;
      }
      var rearmed := RearmRequest(latest.value);
      if !rearmed {
        return None;
      }
      Record(StepRearm(latest.value), s);
      request := Some(latest.value.trip);
    }

    /** The query: the driver's notified or timed-out attempt on a pending trip, the latest first. */
    method FindLatestRequest(d: DriverId) returns (latest: Option<Pair>)
      ensures latest.None? ==> forall p :: Rearmable(View(), p) ==> p.driver != d
      ensures latest.Some? ==> IsLatestRequest(View(), latest.value) && latest.value.driver == d
    {
      var todo := set p | p in attempts && p.driver == d && Offerable(p);
      ghost var all := todo;
      assert forall p :: p in all <==> Rearmable(View(), p) && p.driver == d;
      if todo == {} {
        return None;
      }
      var p0 :| p0 in todo;
      var best := p0;
      todo := todo - {best};
      while todo != {}
        invariant best in all && todo <= all
        invariant forall p :: p in all && p !in todo ==> attempts[p].notifiedAt <= attempts[best].notifiedAt
        decreases todo
      {
        var p :| p in todo;
        if attempts[p].notifiedAt > attempts[best].notifiedAt {
          best := p;
        }
        todo := todo - {p};
      }
      latest := Some(best);
    }

    /** False, and no change, when another driver has accepted the trip. */
    method RearmRequest(p: Pair) returns (ok: bool)
      requires Rearmable(View(), p)
      modifies this`attempts, this`locks
      ensures ok <==> !AcceptedByAnother(old(View()), p)
      ensures View() == Rearm(old(View()), p)
    {
      if exists q :: q in attempts && q.trip == p.trip && q != p && attempts[q].status == DriverAccepted {
        return false;
      }
      attempts := attempts[p := attempts[p].(status := DriverNotified)];
      locks := locks[p.driver := Lock(p.trip, now + REARM_LOCK_MS)];
      ok := true;
    }

    predicate Offerable(p: Pair)
      reads this
      requires p in attempts
    {
      attempts[p].status in {DriverNotified, TimedOut} &&
      p.trip in trips && trips[p.trip].status == Pending && trips[p.trip].driver == None
    }

    // ------------------------------------------------------------ faults and time

    /** The queue loses a job, as in a crash. */
    method LoseJob(j: JobId)
      requires Valid() && j in jobs
      modifies this
      ensures Valid() && history == old(history) + [StepLoseJob(j)]
      ensures View() == DispatchModel.LoseJob(old(View()), j)
    {
      ghost var s := View();
      jobs := jobs - {j};
      Record(StepLoseJob(j), s);
    }

    /** Time passes: entries whose time to live is over are gone. */
    method AdvanceClock(to: int)
      requires Valid() && Possible(View(), StepClock(to))
      modifies this
      ensures Valid() && history == old(history) + [StepClock(to)]
      ensures View() == DispatchModel.AdvanceClock(old(View()), to)
    {
      ghost var s := View();
      ExpireEntries(to);
      Record(StepClock(to), s);
    }

    method ExpireEntries(to: int)
      modifies this`now, this`locks, this`jobKeys, this`rounds
      ensures View() == DispatchModel.AdvanceClock(old(View()), to)
    {
      ghost var s' := DispatchModel.AdvanceClock(View(), to);
      var liveLocks := map d | d in locks && locks[d].expiresAt > to :: locks[d];
      var liveKeys := map p | p in jobKeys && jobKeys[p].expiresAt > to :: jobKeys[p];
      var liveRounds := map t | t in rounds && rounds[t].expiresAt > to :: rounds[t];
      assert liveLocks == s'.locks;
      assert liveKeys == s'.jobKeys;
      assert liveRounds == s'.rounds;
      now, locks, jobKeys, rounds := to, liveLocks, liveKeys, liveRounds;
    }
  }

  // ----------------------------------------------------------------------- lemmas

  lemma CandidatesUnfold(s: State, near: seq<DriverId>, i: nat, found: seq<DriverId>, engaged: bool)
    requires i < |near| && found + Candidates(s, near[i..]) == Candidates(s, near)
    requires engaged == HasYoungTrip(s, near[i])
    ensures (if engaged then found else found + [near[i]]) + Candidates(s, near[i + 1..]) == Candidates(s, near)
  {
    assert near[i..][1..] == near[i + 1..];
    var rest := Candidates(s, near[i + 1..]);
    if engaged {
      assert found + ([] + rest) == found + rest;
    } else {
      assert found + ([near[i]] + rest) == found + [near[i]] + rest;
    }
  }

  lemma WaveUnfold(c: DispatchConfig, s: State, t: TripId, wave: seq<DriverId>, i: nat, r: WaveResult)
    requires i < |wave| && r == Wave(c, s, t, wave[..i])
    ensures Wave(c, s, t, wave[..i + 1]) ==
      if wave[i] in r.state.locks then r
      else WaveResult(Notify(c, r.state, t, wave[i]), r.notified + [wave[i]])
  {
    assert wave[..i + 1][..i] == wave[..i];
  }

  /** One driver's three writes, as the handlers do them, are `Drop` of that driver. */
  lemma SingleDrop(s: State, t: TripId, d: DriverId, to: AttemptStatus)
    ensures var p := Pair(t, d);
      var s1 := s.(attempts := if Notified(s, p) then s.attempts[p := s.attempts[p].(status := to)] else s.attempts,
                   locks := s.locks - {d});
      DispatchModel.CancelTimeoutJob(s1, p) == Drop(s, t, {d}, to)
  {
    var p := Pair(t, d);
    var s1 := s.(attempts := if Notified(s, p) then s.attempts[p := s.attempts[p].(status := to)] else s.attempts,
                 locks := s.locks - {d});
    var a, b := DispatchModel.CancelTimeoutJob(s1, p), Drop(s, t, {d}, to);
    assert a.attempts == b.attempts;
    assert a.jobKeys == b.jobKeys;
    assert KeyedJobs(s, t, {d}) == if p in s.jobKeys then {s.jobKeys[p].job} else {} by {
      forall j | j in KeyedJobs(s, t, {d}) ensures p in s.jobKeys && j == s.jobKeys[p].job {
        var q :| q in s.jobKeys && q.trip == t && q.driver in {d} && s.jobKeys[q].job == j;
        assert q == p;
      }
    }
    assert a.jobs == b.jobs;
  }

  lemma DropsAddUp(s: State, t: TripId, a: set<DriverId>, b: set<DriverId>, to: AttemptStatus)
    requires to != DriverNotified
    ensures Drop(Drop(s, t, a, to), t, b, to) == Drop(s, t, a + b, to)
  {
    var m := Drop(s, t, a, to);
    var x, y := Drop(m, t, b, to), Drop(s, t, a + b, to);
    assert x.attempts == y.attempts;
    assert x.locks == y.locks;
    assert x.jobKeys == y.jobKeys;
    var early, late, both := KeyedJobs(s, t, a), KeyedJobs(m, t, b), KeyedJobs(s, t, a + b);
    forall q | q in s.jobKeys && q.trip == t && q.driver in a + b
      ensures s.jobKeys[q].job in early + late
    {
      assert q.driver in a || q in m.jobKeys;
    }
    assert both == early + late;
    assert x.jobs == y.jobs;
  }

  /** A drop that leaves the attempts as they are. */
  function Unlocked(s: State, t: TripId, ds: set<DriverId>): State {
    Drop(s, t, ds, TimedOut).(attempts := s.attempts)
  }

  lemma UnlocksAddUp(s: State, t: TripId, a: set<DriverId>, d: DriverId)
    ensures Unlocked(Unlocked(s, t, a), t, {d}) == Unlocked(s, t, a + {d})
  {
    DropsAddUp(s, t, a, {d}, TimedOut);
    var m := Drop(s, t, a, TimedOut);
    assert KeyedJobs(Unlocked(s, t, a), t, {d}) == KeyedJobs(m, t, {d});
  }

  lemma NothingDropped(s: State, t: TripId, to: AttemptStatus)
    ensures Drop(s, t, {}, to) == s
  {
    assert Drop(s, t, {}, to).attempts == s.attempts;
    assert Drop(s, t, {}, to).jobKeys == s.jobKeys;
    assert KeyedJobs(s, t, {}) == {};
    assert Drop(s, t, {}, to).jobs == s.jobs;
  }

  lemma LockRemovalCommutes(s: State, t: TripId, d: DriverId, ds: set<DriverId>)
    ensures var s' := s.(locks := s.locks - {d}); var m := Drop(s, t, ds, DriverDeclined);
      Drop(s', t, ds, DriverDeclined) == m.(locks := m.locks - {d})
  {
    assert (s.locks - {d}) - ds == (s.locks - ds) - {d};
  }

  lemma BulkTimeout(s: State, t: TripId)
    ensures Drop(s, t, NotifiedDrivers(s, t), TimedOut).attempts ==
      map p | p in s.attempts ::
        if p.trip == t && s.attempts[p].status == DriverNotified
        then s.attempts[p].(status := TimedOut) else s.attempts[p]
  {
    forall p | p in s.attempts && p.trip == t && s.attempts[p].status == DriverNotified
      ensures p.driver in NotifiedDrivers(s, t) {}
  }

  lemma SweepUnfold(setup: Setup, s: State, quiet: bool, order: seq<TripId>,
                    near: map<TripId, seq<DriverId>>, i: nat)
    requires i < |order|
    ensures SweepAll(setup, s, quiet, order[..i + 1], near)
         == SweepOne(setup, SweepAll(setup, s, quiet, order[..i], near), quiet, order[i], near)
  {
    assert order[..i + 1][..i] == order[..i];
  }

  lemma {:induction false} SweepKeepsClock(setup: Setup, s: State, quiet: bool, order: seq<TripId>,
                                           near: map<TripId, seq<DriverId>>)
    ensures SweepAll(setup, s, quiet, order, near).now == s.now
  {
    if order != [] {
      SweepKeepsClock(setup, s, quiet, order[..|order| - 1], near);
      SweepOneKeepsClock(setup, SweepAll(setup, s, quiet, order[..|order| - 1], near), quiet, order[|order| - 1], near);
    }
  }

  lemma SweepOneKeepsClock(setup: Setup, s: State, quiet: bool, t: TripId, near: map<TripId, seq<DriverId>>)
    ensures SweepOne(setup, s, quiet, t, near).now == s.now
  {
    if t in s.trips && t in near {
      var s1 := BumpRounds(DispatchModel.ReleaseLocksForTrip(s, t), t);
      var c := setup.config(s.trips[t].service);
      WaveKeepsClock(c, s1, t, Take(Candidates(s1, near[t]), c.maxAttempts));
    }
  }

  lemma {:induction false} WaveKeepsClock(c: DispatchConfig, s: State, t: TripId, ds: seq<DriverId>)
    ensures Wave(c, s, t, ds).state.now == s.now
  {
    if ds != [] {
      WaveKeepsClock(c, s, t, ds[..|ds| - 1]);
    }
  }
}
