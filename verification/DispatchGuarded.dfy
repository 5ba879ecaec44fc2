/**
 The joint invariant of punctual steps that check for an active attempt and re-arm nothing:
 a notified attempt, the driver's lock and one live timeout job are the same fact, no driver
 is given two young trips, and a pending trip always waits on somebody.
 */
module DispatchGuarded {
  import opened Prelude
  import opened TripLifecycle
  import opened DispatchModel
  import opened DispatchConsistency
  import opened DispatchSafety
  import opened DispatchRecovery

  /** A notified attempt has its driver's lock and a keyed job, and the lock outlives the job. */
  ghost predicate Held(setup: Setup, s: State, p: Pair) {
    HoldsLockFor(s, p.trip, p.driver) && p in s.jobKeys && s.jobKeys[p].job in s.jobs &&
    s.jobs[s.jobKeys[p].job].dueAt + setup.slack < s.locks[p.driver].expiresAt
  }

  ghost predicate Linked(setup: Setup, s: State) {
    LocksBacked(s) && JobsBacked(setup, s) && KeysBacked(setup, s) &&
    forall p :: Notified(s, p) ==> Held(setup, s, p)
  }

  /** A locked driver has no young active trip, and no driver has two. */
  ghost predicate DriversFree(s: State) {
    (forall d, t :: d in s.locks && t in s.trips ==> !Engages(s.trips[t], d, s.now)) &&
    (forall d, t, u :: t in s.trips && u in s.trips && t != u ==>
      !(Engages(s.trips[t], d, s.now) && Engages(s.trips[u], d, s.now)))
  }

  ghost predicate Awaits(s: State, t: TripId) {
    IsPending(s, t) ==> NotifiedDrivers(s, t) != {}
  }

  /** The guarded invariant, but for the promise that every pending trip waits on somebody. */
  ghost predicate GuardedCore(setup: Setup, s: State) {
    Safe(setup, s) && Linked(setup, s) && DriversFree(s)
  }

  ghost predicate GuardedInvariant(setup: Setup, s: State) {
    GuardedCore(setup, s) && forall t :: t in s.trips ==> Awaits(s, t)
  }

  // ---------------------------------------------------------------- single writes

  lemma SameStoresStayLinked(setup: Setup, s: State, s': State)
    requires Linked(setup, s)
    requires s' == s.(trips := s'.trips, rounds := s'.rounds, lastSweep := s'.lastSweep)
    ensures Linked(setup, s')
    ensures forall t :: NotifiedDrivers(s', t) == NotifiedDrivers(s, t)
  {
    forall p | Notified(s', p) ensures Held(setup, s', p) {
      assert Notified(s, p) && Held(setup, s, p);
    }
    assert LocksBacked(s') && JobsBacked(setup, s') && KeysBacked(setup, s');
  }

  /** Nobody is newly locked, no trip newly engages anybody. */
  lemma FewerEngagementsStayFree(s: State, s': State)
    requires DriversFree(s) && s'.locks.Keys <= s.locks.Keys
    requires forall t, d :: t in s'.trips && Engages(s'.trips[t], d, s'.now) ==>
      t in s.trips && Engages(s.trips[t], d, s.now)
    ensures DriversFree(s')
  {}

  lemma DropKeepsLinked(setup: Setup, s: State, t: TripId, ds: set<DriverId>, to: AttemptStatus)
    requires Linked(setup, s) && to != DriverNotified
    requires forall d :: d in ds && d in s.locks ==> s.locks[d].trip == t
    ensures Linked(setup, Drop(s, t, ds, to))
  {
    var s' := Drop(s, t, ds, to);
    forall p | Notified(s', p) ensures Held(setup, s', p) {
      assert Notified(s, p) && Held(setup, s, p);
      assert p.driver !in ds;
    }
  }

  lemma DropKeepsFree(s: State, t: TripId, ds: set<DriverId>, to: AttemptStatus)
    requires DriversFree(s)
    ensures DriversFree(Drop(s, t, ds, to))
  {}

  lemma DropKeepsCore(setup: Setup, s: State, t: TripId, ds: set<DriverId>, to: AttemptStatus)
    requires GuardedCore(setup, s) && to in {DriverDeclined, TimedOut}
    requires forall d :: d in ds ==> Notified(s, Pair(t, d))
    ensures GuardedCore(setup, Drop(s, t, ds, to))
  {
    forall d | d in ds && d in s.locks ensures s.locks[d].trip == t {
      assert Held(setup, s, Pair(t, d));
    }
    DropKeepsSafe(setup, s, t, ds, to);
    DropKeepsLinked(setup, s, t, ds, to);
    DropKeepsFree(s, t, ds, to);
  }

  lemma NotifyKeepsLinked(setup: Setup, c: DispatchConfig, s: State, t: TripId, d: DriverId)
    requires Linked(setup, s) && Safe(setup, s) && IsPending(s, t) && d !in s.locks
    requires setup.slack < JOB_KEY_MARGIN_SECONDS * 1000 && c.timeoutMs + setup.slack < LockTtlMs(c)
    ensures Linked(setup, Notify(c, s, t, d))
  {
    var s' := Notify(c, s, t, d);
    NotifyKeepsSafe(setup, c, s, t, d);
    assert !Notified(s, Pair(t, d));
    assert Pair(t, d) !in s.jobKeys;
    forall p | Notified(s', p) ensures Held(setup, s', p) {
      if p != Pair(t, d) {
        assert Notified(s, p);
        NotifyKeepsHeld(setup, c, s, t, d, p);
      }
    }
  }

  lemma NotifyKeepsHeld(setup: Setup, c: DispatchConfig, s: State, t: TripId, d: DriverId, p: Pair)
    requires Held(setup, s, p) && p != Pair(t, d) && d !in s.locks && Pair(t, d) !in s.jobKeys
    requires s.jobKeys[p].job < s.nextJob
    ensures Held(setup, Notify(c, s, t, d), p)
  {}

  lemma NotifyKeepsFree(c: DispatchConfig, s: State, t: TripId, d: DriverId)
    requires DriversFree(s) && !HasYoungTrip(s, d)
    ensures DriversFree(Notify(c, s, t, d))
  {}

  lemma FailTripKeepsCore(setup: Setup, s: State, t: TripId)
    requires GuardedCore(setup, s)
    ensures GuardedCore(setup, FailTrip(s, t)) && Awaits(FailTrip(s, t), t)
  {
    FailTripFacts(setup, s, t);
    SameStoresStayLinked(setup, s, FailTrip(s, t));
    FewerEngagementsStayFree(s, FailTrip(s, t));
  }

  // --------------------------------------------------------------------- waves

  lemma {:induction false} CandidatesAreFree(s: State, near: seq<DriverId>)
    ensures forall d :: d in Candidates(s, near) <==> d in near && !HasYoungTrip(s, d)
  {
    if near != [] {
      CandidatesAreFree(s, near[1..]);
      assert near == [near[0]] + near[1..];
    }
  }

  ghost predicate AllFree(s: State, ds: seq<DriverId>) {
    forall d :: d in ds ==> !HasYoungTrip(s, d)
  }

  /** Exactly the drivers the wave reports become notified. */
  lemma {:induction false} WaveNotifies(c: DispatchConfig, s: State, t: TripId, ds: seq<DriverId>)
    ensures var r := Wave(c, s, t, ds);
      NotifiedDrivers(r.state, t) == NotifiedDrivers(s, t) + Members(r.notified) && |r.notified| <= |ds|
  {
    if ds != [] {
      var n := |ds| - 1;
      var r := Wave(c, s, t, ds[..n]);
      WaveNotifies(c, s, t, ds[..n]);
      if ds[n] !in r.state.locks {
        NotifyAddsDriver(c, r.state, t, ds[n]);
        assert Members(r.notified + [ds[n]]) == Members(r.notified) + {ds[n]};
      }
    }
  }

  ghost predicate Enough(setup: Setup, c: DispatchConfig) {
    setup.slack < JOB_KEY_MARGIN_SECONDS * 1000 && c.timeoutMs + setup.slack < LockTtlMs(c)
  }

  lemma {:induction false} WaveKeepsCore(setup: Setup, c: DispatchConfig, s: State, t: TripId, ds: seq<DriverId>)
    requires GuardedCore(setup, s) && IsPending(s, t) && AllFree(s, ds) && Enough(setup, c)
    ensures GuardedCore(setup, Wave(c, s, t, ds).state) && Wave(c, s, t, ds).state.trips == s.trips
    ensures Wave(c, s, t, ds).state.now == s.now
  {
    if ds != [] {
      var n := |ds| - 1;
      var m := Wave(c, s, t, ds[..n]).state;
      assert AllFree(s, ds[..n]);
      WaveKeepsCore(setup, c, s, t, ds[..n]);
      if ds[n] !in m.locks {
        assert !HasYoungTrip(s, ds[n]);
        NotifyKeepsCore(setup, c, m, t, ds[n]);
      }
    }
  }

  lemma NotifyKeepsCore(setup: Setup, c: DispatchConfig, s: State, t: TripId, d: DriverId)
    requires GuardedCore(setup, s) && IsPending(s, t) && d !in s.locks && !HasYoungTrip(s, d) && Enough(setup, c)
    ensures GuardedCore(setup, Notify(c, s, t, d))
  {
    NotifyKeepsSafe(setup, c, s, t, d);
    NotifyKeepsLinked(setup, c, s, t, d);
    NotifyKeepsFree(c, s, t, d);
  }

  lemma NotifyAddsDriver(c: DispatchConfig, s: State, t: TripId, d: DriverId)
    ensures NotifiedDrivers(Notify(c, s, t, d), t) == NotifiedDrivers(s, t) + {d}
  {
    var s' := Notify(c, s, t, d);
    forall x ensures x in NotifiedDrivers(s', t) <==> x in NotifiedDrivers(s, t) || x == d {
      assert x in NotifiedDrivers(s', t) <==> Notified(s', Pair(t, x));
      assert x in NotifiedDrivers(s, t) <==> Notified(s, Pair(t, x));
    }
  }

  lemma BumpRoundsKeepsCore(setup: Setup, s: State, t: TripId)
    requires GuardedCore(setup, s) && t in s.trips
    ensures GuardedCore(setup, BumpRounds(s, t)) && NotifiedDrivers(BumpRounds(s, t), t) == NotifiedDrivers(s, t)
  {
    BumpRoundsFacts(setup, s, t);
    SameStoresStayLinked(setup, s, BumpRounds(s, t));
    FewerEngagementsStayFree(s, BumpRounds(s, t));
  }

  /** A dispatch from nobody notified leaves the trip failed, or waiting on 1 to `max` drivers. */
  lemma AttemptDispatchKeepsCore(setup: Setup, s: State, t: TripId, service: Service, near: seq<DriverId>)
    requires WellConfigured(setup) && GuardedCore(setup, s) && IsPending(s, t) && NotifiedDrivers(s, t) == {}
    ensures var s' := AttemptDispatch(setup, s, t, service, near);
      GuardedCore(setup, s') && Within(s, s', t) && Awaits(s', t) &&
      |NotifiedDrivers(s', t)| <= setup.config(service).maxAttempts
  {
    AttemptDispatchFacts(setup, s, t, service, near);
    var s1 := BumpRounds(s, t);
    BumpRoundsKeepsCore(setup, s, t);
    var c := setup.config(service);
    var candidates := Candidates(s1, near);
    if candidates == [] {
      FailAfterWave(setup, s1, t);
    } else {
      WaveOutcome(setup, c, s1, t, near);
      var r := Wave(c, s1, t, Take(candidates, c.maxAttempts));
      if r.notified == [] {
        FailAfterWave(setup, r.state, t);
      }
    }
  }

  lemma WaveOutcome(setup: Setup, c: DispatchConfig, s: State, t: TripId, near: seq<DriverId>)
    requires GuardedCore(setup, s) && IsPending(s, t) && NotifiedDrivers(s, t) == {} && Enough(setup, c)
    ensures var r := Wave(c, s, t, Take(Candidates(s, near), c.maxAttempts));
      GuardedCore(setup, r.state) && (r.notified == [] <==> NotifiedDrivers(r.state, t) == {}) &&
      |NotifiedDrivers(r.state, t)| <= c.maxAttempts
  {
    var ds := Take(Candidates(s, near), c.maxAttempts);
    TakenAreFree(s, near, c.maxAttempts);
    WaveKeepsCore(setup, c, s, t, ds);
    WaveNotifies(c, s, t, ds);
    MembersAreFew(Wave(c, s, t, ds).notified);
    NoMembersIsEmpty(Wave(c, s, t, ds).notified);
  }

  lemma NoMembersIsEmpty(ds: seq<DriverId>)
    ensures Members(ds) == {} <==> ds == []
  {
    if ds != [] {
      assert ds[0] in Members(ds);
    }
  }

  lemma TakenAreFree(s: State, near: seq<DriverId>, n: nat)
    ensures AllFree(s, Take(Candidates(s, near), n)) && |Take(Candidates(s, near), n)| <= n
  {
    CandidatesAreFree(s, near);
    assert forall d :: d in Take(Candidates(s, near), n) ==> d in Candidates(s, near);
  }

  lemma FailAfterWave(setup: Setup, s: State, t: TripId)
    requires GuardedCore(setup, s) && NotifiedDrivers(s, t) == {}
    ensures var s' := FailTrip(s, t); GuardedCore(setup, s') && Awaits(s', t) && NotifiedDrivers(s', t) == {}
  {
    FailTripKeepsCore(setup, s, t);
    SameStoresStayLinked(setup, s, FailTrip(s, t));
  }

  function Members(ds: seq<DriverId>): set<DriverId> {
    set d | d in ds
  }

  lemma {:induction false} MembersAreFew(ds: seq<DriverId>)
    ensures |Members(ds)| <= |ds|
  {
    if ds != [] {
      MembersAreFew(ds[1..]);
      assert ds == [ds[0]] + ds[1..];
      assert Members(ds) == Members(ds[1..]) + {ds[0]};
      if ds[0] in Members(ds[1..]) {
        assert Members(ds) == Members(ds[1..]);
      }
    }
  }

  lemma CheckAndRetryKeepsCore(setup: Setup, s: State, t: TripId, near: seq<DriverId>)
    requires WellConfigured(setup) && GuardedCore(setup, s)
    ensures var s' := CheckAndRetry(setup, s, t, near);
      GuardedCore(setup, s') && Within(s, s', t) && Awaits(s', t)
  {
    CheckAndRetryFacts(setup, s, t, near);
    if IsPending(s, t) && NotifiedDrivers(s, t) == {} {
      FailTripKeepsCore(setup, s, t);
      AttemptDispatchKeepsCore(setup, s, t, s.trips[t].service, near);
    }
  }

  // ------------------------------------------------------------------ every step

  lemma OthersStillAwait(s: State, s': State, t: TripId)
    requires OthersKept(s, s', t) && Awaits(s', t)
    requires forall u :: u in s.trips && u != t ==> Awaits(s, u)
    ensures forall u :: u in s'.trips ==> Awaits(s', u)
  {
    forall u | u in s'.trips && u != t ensures Awaits(s', u) {
      OthersKeptIsSameTrip(s, s', t, u);
    }
  }

  lemma AnswerKeepsInvariant(setup: Setup, s: State, t: TripId, d: DriverId, to: AttemptStatus, near: seq<DriverId>)
    requires WellConfigured(setup) && GuardedInvariant(setup, s) && to in {DriverDeclined, TimedOut}
    requires Notified(s, Pair(t, d))
    ensures GuardedInvariant(setup, CheckAndRetry(setup, Drop(s, t, {d}, to), t, near))
  {
    AnswerKeepsCore(setup, s, t, d, to, near);
    OthersStillAwait(s, CheckAndRetry(setup, Drop(s, t, {d}, to), t, near), t);
  }

  lemma AnswerKeepsCore(setup: Setup, s: State, t: TripId, d: DriverId, to: AttemptStatus, near: seq<DriverId>)
    requires WellConfigured(setup) && GuardedCore(setup, s) && to in {DriverDeclined, TimedOut}
    requires Notified(s, Pair(t, d))
    ensures var s' := CheckAndRetry(setup, Drop(s, t, {d}, to), t, near);
      GuardedCore(setup, s') && OthersKept(s, s', t) && Awaits(s', t)
  {
    DropKeepsCore(setup, s, t, {d}, to);
    CheckAndRetryKeepsCore(setup, Drop(s, t, {d}, to), t, near);
    DropThenRetryWithin(setup, s, t, d, to, near);
  }

  lemma ReleaseKeepsCore(setup: Setup, s: State, t: TripId)
    requires GuardedCore(setup, s)
    ensures var s' := ReleaseLocksForTrip(s, t);
      GuardedCore(setup, s') && Within(s, s', t) && NotifiedDrivers(s', t) == {}
  {
    DropKeepsCore(setup, s, t, NotifiedDrivers(s, t), TimedOut);
    DropWithin(s, t, NotifiedDrivers(s, t), TimedOut);
  }

  lemma NewRowKeepsCore(setup: Setup, s: State, t: TripId, row: Trip)
    requires GuardedInvariant(setup, s) && t !in s.trips && row.status == Pending && row.driver == None
    ensures var s1 := s.(trips := s.trips[t := row]);
      GuardedCore(setup, s1) && NotifiedDrivers(s1, t) == {} &&
      forall u :: u in s1.trips && u != t ==> Awaits(s1, u)
  {
    var s1 := s.(trips := s.trips[t := row]);
    TripWriteKeepsSafe(setup, s, s1.trips);
    SameStoresStayLinked(setup, s, s1);
    FewerEngagementsStayFree(s, s1);
    forall u | u in s1.trips && u != t ensures Awaits(s1, u) {
      assert Awaits(s, u);
    }
  }

  lemma CreateKeepsInvariant(setup: Setup, s: State, step: Step)
    requires WellConfigured(setup) && GuardedInvariant(setup, s) && step.StepCreate? && step.trip !in s.trips
    ensures GuardedInvariant(setup, Next(setup, s, step))
  {
    var t := step.trip;
    var row := Trip(step.client, step.service, Pending, None, s.now, s.now);
    var s1 := s.(trips := s.trips[t := row]);
    NewRowKeepsCore(setup, s, t, row);
    AttemptDispatchKeepsCore(setup, s1, t, step.service, step.near);
    var s' := AttemptDispatch(setup, s1, t, step.service, step.near);
    assert s' == Next(setup, s, step);
    OthersStillAwait(s1, s', t);
  }

  lemma StatusWriteKeepsInvariant(setup: Setup, s: State, t: TripId, to: TripStatus)
    requires GuardedCore(setup, s) && t in s.trips && to != Pending
    requires forall u :: u in s.trips && u != t ==> Awaits(s, u)
    requires IsActive(to) ==> s.trips[t].driver.Some? && IsActive(s.trips[t].status)
    requires to == Completed ==> s.trips[t].driver.Some?
    ensures GuardedInvariant(setup, SetStatus(s, t, to))
  {
    SetStatusKeepsSafe(setup, s, t, to);
    var s' := SetStatus(s, t, to);
    SameStoresStayLinked(setup, s, s');
    FewerEngagementsStayFree(s, s');
    forall u | u in s'.trips ensures Awaits(s', u) {
      assert u != t ==> Awaits(s, u);
    }
  }

  lemma CancelKeepsInvariant(setup: Setup, s: State, t: TripId, to: TripStatus)
    requires GuardedInvariant(setup, s) && t in s.trips && to in {CancelledByClient, CancelledAuto}
    ensures GuardedInvariant(setup, SetStatus(ReleaseLocksForTrip(s, t), t, to))
  {
    ReleaseKeepsCore(setup, s, t);
    var s1 := ReleaseLocksForTrip(s, t);
    forall u | u in s1.trips && u != t ensures Awaits(s1, u) {
      OthersKeptIsSameTrip(s, s1, t, u);
    }
    StatusWriteKeepsInvariant(setup, s1, t, to);
  }

  lemma AcceptKeepsInvariant(setup: Setup, s: State, t: TripId, d: DriverId)
    requires WellConfigured(setup) && GuardedInvariant(setup, s) && IsPending(s, t) && Notified(s, Pair(t, d))
    ensures GuardedInvariant(setup, AssignDriver(HandleDriverAccept(s, t, d), t, d))
  {
    assert Held(setup, s, Pair(t, d));
    AcceptKeepsSafe(setup, s, t, d);
    AcceptDropsKeepLinked(setup, s, t, d);
    AcceptIsDropThenAssign(s, t, d);
    AssignKeepsGuarded(setup, s, DropOthers(Drop(s, t, {d}, DriverAccepted), t, d),
                       AssignDriver(HandleDriverAccept(s, t, d), t, d), t, d);
  }

  lemma AcceptIsDropThenAssign(s: State, t: TripId, d: DriverId)
    requires t in s.trips && HoldsLockFor(s, t, d)
    ensures var m := DropOthers(Drop(s, t, {d}, DriverAccepted), t, d);
      t in m.trips && AssignDriver(HandleDriverAccept(s, t, d), t, d) == AssignDriver(m.(rounds := m.rounds - {t}), t, d)
  {}

  lemma AcceptDropsKeepLinked(setup: Setup, s: State, t: TripId, d: DriverId)
    requires Linked(setup, s) && HoldsLockFor(s, t, d)
    ensures var m := DropOthers(Drop(s, t, {d}, DriverAccepted), t, d);
      Linked(setup, m) && OthersKept(s, m, t) && m.trips == s.trips &&
      d !in m.locks && m.locks.Keys <= s.locks.Keys
  {
    var s1 := Drop(s, t, {d}, DriverAccepted);
    DropKeepsLinked(setup, s, t, {d}, DriverAccepted);
    DropWithin(s, t, {d}, DriverAccepted);
    DropOthersKeepsLinked(setup, s1, t, d);
    WithinIsTransitive(s, s1, DropOthers(s1, t, d), t);
  }

  function DropOthers(s: State, t: TripId, d: DriverId): State {
    Drop(s, t, NotifiedDrivers(s, t) - {d}, DriverDeclined)
  }

  lemma DropOthersKeepsLinked(setup: Setup, s: State, t: TripId, d: DriverId)
    requires Linked(setup, s)
    ensures Linked(setup, DropOthers(s, t, d)) && Within(s, DropOthers(s, t, d), t)
  {
    var others := NotifiedDrivers(s, t) - {d};
    forall x | x in others && x in s.locks ensures s.locks[x].trip == t {
      assert Notified(s, Pair(t, x)) && Held(setup, s, Pair(t, x));
    }
    DropKeepsLinked(setup, s, t, others, DriverDeclined);
    DropWithin(s, t, others, DriverDeclined);
  }

  /** The driver's lock is gone before the trip becomes the driver's only young one. */
  lemma AssignKeepsGuarded(setup: Setup, s: State, m: State, s': State, t: TripId, d: DriverId)
    requires GuardedInvariant(setup, s) && d in s.locks && t in s.trips && Safe(setup, s')
    requires Linked(setup, m) && OthersKept(s, m, t) && m.trips == s.trips && d !in m.locks && m.locks.Keys <= s.locks.Keys
    requires s' == AssignDriver(m.(rounds := m.rounds - {t}), t, d)
    ensures GuardedInvariant(setup, s')
  {
    AssignStaysLinked(setup, m, s', t, d);
    AssignStaysFree(s, s', t, d);
    AssignStillAwaits(s, m, s', t);
  }

  lemma AssignStaysLinked(setup: Setup, m: State, s': State, t: TripId, d: DriverId)
    requires Linked(setup, m) && t in m.trips && s' == AssignDriver(m.(rounds := m.rounds - {t}), t, d)
    ensures Linked(setup, s') && s'.attempts == m.attempts && s'.locks == m.locks && s'.now == m.now
    ensures s'.trips.Keys == m.trips.Keys && !IsPending(s', t) && s'.trips[t].driver == Some(d)
    ensures forall u :: u in m.trips && u != t ==> s'.trips[u] == m.trips[u]
  {
    SameStoresStayLinked(setup, m, s');
  }

  lemma AssignStillAwaits(s: State, m: State, s': State, t: TripId)
    requires OthersKept(s, m, t) && m.trips == s.trips && s'.attempts == m.attempts && t in s.trips
    requires s'.trips.Keys == s.trips.Keys && !IsPending(s', t)
    requires forall u :: u in s.trips && u != t ==> s'.trips[u] == s.trips[u] && Awaits(s, u)
    ensures forall u :: u in s'.trips ==> Awaits(s', u)
  {
    forall u | u in s'.trips && u != t ensures Awaits(s', u) {
      OthersKeptIsSameTrip(s, m, t, u);
      assert Awaits(s, u) && NotifiedDrivers(s', u) == NotifiedDrivers(m, u);
    }
  }

  lemma AssignStaysFree(s: State, s': State, t: TripId, d: DriverId)
    requires DriversFree(s) && d in s.locks && t in s.trips && s'.now == s.now
    requires s'.trips.Keys == s.trips.Keys && d !in s'.locks && s'.locks.Keys <= s.locks.Keys
    requires s'.trips[t].driver == Some(d) && forall u :: u in s.trips && u != t ==> s'.trips[u] == s.trips[u]
    ensures DriversFree(s')
  {}

  lemma TouchKeepsInvariant(setup: Setup, s: State, t: TripId)
    requires GuardedInvariant(setup, s) && t in s.trips
    ensures GuardedInvariant(setup, Touch(s, t))
  {
    TouchKeepsSafe(setup, s, t);
    var s' := Touch(s, t);
    SameStoresStayLinked(setup, s, s');
    FewerEngagementsStayFree(s, s');
    forall u | u in s'.trips ensures Awaits(s', u) {
      assert Awaits(s, u);
    }
  }

  lemma ClockKeepsInvariant(setup: Setup, s: State, time: int)
    requires GuardedInvariant(setup, s) && s.now <= time && Punctual(setup, s, StepClock(time))
    ensures GuardedInvariant(setup, AdvanceClock(s, time))
  {
    var s' := AdvanceClock(s, time);
    ClockKeepsSafe(setup, s, time);
    ClockKeepsLinked(setup, s, time);
    FewerEngagementsStayFree(s, s');
    forall u | u in s'.trips ensures Awaits(s', u) {
      assert NotifiedDrivers(s', u) == NotifiedDrivers(s, u) && Awaits(s, u);
    }
  }

  lemma ClockKeepsLinked(setup: Setup, s: State, time: int)
    requires Linked(setup, s) && Safe(setup, AdvanceClock(s, time))
    requires s.now <= time && Punctual(setup, s, StepClock(time))
    ensures Linked(setup, AdvanceClock(s, time))
  {
    var s' := AdvanceClock(s, time);
    forall p | Notified(s', p) ensures Held(setup, s', p) {
      assert Notified(s, p) && Held(setup, s, p);
    }
  }

  lemma UpdateStatusKeepsInvariant(setup: Setup, s: State, t: TripId, actor: Actor, to: TripStatus, reply: Reply)
    requires WellConfigured(setup) && GuardedInvariant(setup, s) && reply == UpdateStatus(s, t, actor, to)
    ensures GuardedInvariant(setup, reply.state)
  {
    if reply.outcome == Done {
      if to == Accepted {
        AcceptReplyKeepsInvariant(setup, s, t, actor, reply);
      } else if to in {CancelledByClient, CancelledAuto} {
        CancelKeepsInvariant(setup, s, t, to);
      } else {
        AdvanceKeepsInvariant(setup, s, t, to);
      }
    }
  }

  lemma AcceptReplyKeepsInvariant(setup: Setup, s: State, t: TripId, actor: Actor, reply: Reply)
    requires WellConfigured(setup) && GuardedInvariant(setup, s)
    requires reply == UpdateStatus(s, t, actor, Accepted) && reply.outcome == Done
    ensures GuardedInvariant(setup, reply.state)
  {
    AcceptReplyIs(s, t, actor, reply);
    AcceptKeepsInvariant(setup, s, t, actor.profile.value);
  }

  lemma AcceptReplyIs(s: State, t: TripId, actor: Actor, reply: Reply)
    requires reply == UpdateStatus(s, t, actor, Accepted) && reply.outcome == Done
    ensures actor.profile.Some? && IsPending(s, t) && Notified(s, Pair(t, actor.profile.value))
    ensures reply.state == AssignDriver(HandleDriverAccept(s, t, actor.profile.value), t, actor.profile.value)
  {}

  lemma AdvanceKeepsInvariant(setup: Setup, s: State, t: TripId, to: TripStatus)
    requires GuardedInvariant(setup, s) && t in s.trips && CanTransition(s.trips[t].status, to)
    requires to != Accepted && s.trips[t].driver.Some?
    ensures GuardedInvariant(setup, SetStatus(s, t, to))
  {
    StatusWriteKeepsInvariant(setup, s, t, to);
  }

  lemma SweepOneKeepsInvariant(setup: Setup, s: State, quiet: bool, t: TripId, near: map<TripId, seq<DriverId>>)
    requires WellConfigured(setup) && GuardedInvariant(setup, s) && IsPending(s, t)
    ensures GuardedInvariant(setup, SweepOne(setup, s, quiet, t, near))
  {
    var s' := SweepOne(setup, s, quiet, t, near);
    SweepOneFacts(setup, s, quiet, t, near);
    var age := s.now - s.trips[t].createdAt;
    if quiet && age < REDISPATCH_MIN_AGE_MS {
    } else if age > REDISPATCH_MAX_AGE_MS {
      FailTripKeepsCore(setup, s, t);
      OthersStillAwait(s, s', t);
    } else {
      RedispatchKeepsCore(setup, s, t, near);
      OthersStillAwait(s, s', t);
    }
  }

  lemma RedispatchKeepsCore(setup: Setup, s: State, t: TripId, near: map<TripId, seq<DriverId>>)
    requires WellConfigured(setup) && GuardedCore(setup, s) && IsPending(s, t)
    ensures var s' := Redispatch(setup, s, t, near);
      GuardedCore(setup, s') && Awaits(s', t) &&
      |NotifiedDrivers(s', t)| <= MaxAttempts(setup, s, t)
  {
    ReleaseKeepsCore(setup, s, t);
    var s1 := ReleaseLocksForTrip(s, t);
    if t !in near {
      FailAfterWave(setup, s1, t);
    } else {
      AttemptDispatchKeepsCore(setup, s1, t, s.trips[t].service, near[t]);
    }
  }

  lemma {:induction false} SweepAllKeepsInvariant(setup: Setup, s: State, quiet: bool, order: seq<TripId>,
                                                  near: map<TripId, seq<DriverId>>)
    requires WellConfigured(setup) && GuardedInvariant(setup, s) && Distinct(order)
    requires forall t :: t in order ==> IsPending(s, t)
    ensures GuardedInvariant(setup, SweepAll(setup, s, quiet, order, near))
  {
    if order != [] {
      var n := |order| - 1;
      DistinctFront(order);
      SweepAllKeepsInvariant(setup, s, quiet, order[..n], near);
      SweepAllFacts(setup, s, quiet, order[..n], near);
      var m := SweepAll(setup, s, quiet, order[..n], near);
      assert IsPending(s, order[n]) && m.trips[order[n]] == s.trips[order[n]];
      SweepOneKeepsInvariant(setup, m, quiet, order[n], near);
    }
  }

  lemma {:induction false} SweepStaleKeepsInvariant(setup: Setup, s: State, stale: seq<TripId>)
    requires WellConfigured(setup) && GuardedInvariant(setup, s) && Distinct(stale)
    requires forall t :: t in stale ==> IsStale(s, t)
    ensures GuardedInvariant(setup, SweepStaleAll(s, stale))
  {
    if stale != [] {
      var n := |stale| - 1;
      var t := stale[n];
      DistinctFront(stale);
      SweepStaleKeepsInvariant(setup, s, stale[..n]);
      SweepStaleFacts(setup, s, stale[..n]);
      var m := SweepStaleAll(s, stale[..n]);
      assert IsStale(s, t) && m.trips[t] == s.trips[t];
      var m1 := SetStatus(m, t, CancelledAuto);
      StatusWriteKeepsInvariant(setup, m, t, CancelledAuto);
      ReleaseKeepsCore(setup, m1, t);
      OthersStillAwait(m1, ReleaseLocksForTrip(m1, t), t);
    }
  }

  lemma SweepPendingKeepsInvariant(setup: Setup, s: State, step: Step)
    requires WellConfigured(setup) && GuardedInvariant(setup, s) && step.StepSweepPending?
    requires Possible(s, step)
    ensures GuardedInvariant(setup, Next(setup, s, step))
  {
    SweepAllKeepsInvariant(setup, s, step.quiet, step.order, step.nearOf);
    SweepPendingKeepsSafe(setup, s, step);
    var m := SweepAll(setup, s, step.quiet, step.order, step.nearOf);
    var s' := Next(setup, s, step);
    SameStoresStayLinked(setup, m, s');
    FewerEngagementsStayFree(m, s');
    forall t | t in s'.trips ensures Awaits(s', t) {
      assert Awaits(m, t);
    }
  }

  lemma StepKeepsInvariant(setup: Setup, s: State, step: Step)
    requires WellConfigured(setup) && GuardedInvariant(setup, s) && IsGuarded(step)
    requires Possible(s, step) && Punctual(setup, s, step)
    ensures GuardedInvariant(setup, Next(setup, s, step))
  {
    match step
    case StepCreate(_, _, _, _) => CreateKeepsInvariant(setup, s, step);
    case StepUpdateStatus(t, actor, to) =>
      UpdateStatusKeepsInvariant(setup, s, t, actor, to, UpdateStatus(s, t, actor, to));
    case StepDecline(t, d, near) =>
      if t in s.trips && Notified(s, Pair(t, d)) { AnswerKeepsInvariant(setup, s, t, d, DriverDeclined, near); }
    case StepJob(j, near) =>
      TimeoutIsDrop(setup, s, j, near);
      AnswerKeepsInvariant(setup, s, s.jobs[j].pair.trip, s.jobs[j].pair.driver, TimedOut, near);
    case StepComplete(t, actor) =>
      if DriverOwns(s, t, actor) == Done { StatusWriteKeepsInvariant(setup, s, t, Completed); }
    case StepConfirmPayment(t, actor) =>
      if DriverOwns(s, t, actor) == Done { TouchKeepsInvariant(setup, s, t); }
    case StepSweepPending(_, _, _) => SweepPendingKeepsInvariant(setup, s, step);
    case StepSweepStale(stale) => SweepStaleKeepsInvariant(setup, s, stale);
    case StepClock(time) => ClockKeepsInvariant(setup, s, time);
  }

  ghost predicate IsAwaitedJob(setup: Setup, s: State, t: TripId, j: JobId) {
    j in s.jobs && s.jobs[j].pair.trip == t && Notified(s, s.jobs[j].pair) &&
    s.now <= s.jobs[j].dueAt + setup.slack
  }

  lemma AwaitedJob(setup: Setup, s: State, t: TripId) returns (j: JobId)
    requires GuardedInvariant(setup, s) && IsPending(s, t)
    ensures IsAwaitedJob(setup, s, t, j)
  {
    assert Awaits(s, t);
    var d :| d in NotifiedDrivers(s, t);
    assert Notified(s, Pair(t, d)) && Held(setup, s, Pair(t, d));
    j := s.jobKeys[Pair(t, d)].job;
  }
}
