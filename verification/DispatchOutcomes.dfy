/**
 What becomes of a trip: after its creation, an answer of one of its drivers, and a sweep.
 Each outcome is stated on rows, attempts, locks and counters alone: the trip goes on with
 new drivers exactly when the counter leaves room and a driver is free, and is given up
 exactly otherwise.
 */
module DispatchOutcomes {
  import opened Prelude
  import opened TripLifecycle
  import opened DispatchModel
  import opened DispatchConsistency
  import opened DispatchRecovery
  import opened DispatchGuarded
  import opened DispatchWaves

  // ------------------------------------------------------------- who is in a wave

  /** The trip is the driver's, assigned but not over, and was created in the last 25 minutes. */
  predicate IsYoungTripOf(trip: Trip, d: DriverId, now: int) {
    trip.driver == Some(d) && now - trip.createdAt < 25 * 60 * 1000 &&
    (trip.status == Accepted || trip.status == DriverArriving || trip.status == InProgress)
  }

  lemma YoungTripIff(s: State, d: DriverId)
    ensures HasYoungTrip(s, d) <==> exists t :: t in s.trips && IsYoungTripOf(s.trips[t], d, s.now)
  {
    assert forall t :: t in s.trips ==> (Engages(s.trips[t], d, s.now) <==> IsYoungTripOf(s.trips[t], d, s.now));
  }

  /** How many of the first `i` drivers have no young trip. */
  function FreeAhead(s: State, near: seq<DriverId>, i: nat): nat
    requires i <= |near|
  {
    if i == 0 then 0 else FreeAhead(s, near, i - 1) + if HasYoungTrip(s, near[i - 1]) then 0 else 1
  }

  /** Among the first `n`, driver `d` has no young trip and fewer than `max` such drivers ahead. */
  predicate IsTaken(s: State, near: seq<DriverId>, n: nat, max: nat, d: DriverId)
    requires n <= |near|
  {
    !HasYoungTrip(s, d) && exists i :: 0 <= i < n && near[i] == d && FreeAhead(s, near, i) < max
  }

  /** The drivers of a wave: those with no young trip and fewer than `max` such drivers nearer. */
  function InWave(s: State, near: seq<DriverId>, max: nat): set<DriverId> {
    set d | d in near && IsTaken(s, near, |near|, max, d)
  }

  lemma {:induction false} CandidatesOfFront(s: State, near: seq<DriverId>)
    requires near != []
    ensures var n := |near| - 1;
      Candidates(s, near) == Candidates(s, near[..n]) + if HasYoungTrip(s, near[n]) then [] else [near[n]]
  {
    var n := |near| - 1;
    if n > 0 {
      CandidatesOfFront(s, near[1..]);
      assert near[1..][..n - 1] == near[..n][1..];
    }
  }

  lemma {:induction false} CandidatesAreCounted(s: State, near: seq<DriverId>, n: nat)
    requires n <= |near|
    ensures |Candidates(s, near[..n])| == FreeAhead(s, near, n)
  {
    if n > 0 {
      CandidatesAreCounted(s, near, n - 1);
      assert near[..n][..n - 1] == near[..n - 1];
      CandidatesOfFront(s, near[..n]);
    }
  }

  lemma {:induction false} TakenOfFront(s: State, near: seq<DriverId>, n: nat, max: nat, d: DriverId)
    requires n <= |near|
    ensures d in Take(Candidates(s, near[..n]), max) <==> IsTaken(s, near, n, max, d)
  {
    if n > 0 {
      TakenOfFront(s, near, n - 1, max, d);
      CandidatesAreCounted(s, near, n - 1);
      assert near[..n][..n - 1] == near[..n - 1];
      CandidatesOfFront(s, near[..n]);
      TakeOneMore(Candidates(s, near[..n - 1]), near[n - 1], max, d);
      TakenOneMore(s, near, n, max, d);
    }
  }

  lemma TakenOneMore(s: State, near: seq<DriverId>, n: nat, max: nat, d: DriverId)
    requires 0 < n <= |near|
    ensures IsTaken(s, near, n, max, d) <==>
      IsTaken(s, near, n - 1, max, d) ||
      (d == near[n - 1] && !HasYoungTrip(s, d) && FreeAhead(s, near, n - 1) < max)
  {}

  lemma TakeOneMore(front: seq<DriverId>, last: DriverId, max: nat, d: DriverId)
    ensures d in Take(front + [last], max) <==> d in Take(front, max) || (d == last && |front| < max)
  {
    if |front| >= max {
      assert (front + [last])[..max] == front[..max];
    }
  }

  lemma WaveMembers(s: State, near: seq<DriverId>, max: nat)
    ensures Members(Take(Candidates(s, near), max)) == InWave(s, near, max)
  {
    assert near[..|near|] == near;
    forall d ensures d in Take(Candidates(s, near), max) <==> d in InWave(s, near, max) {
      TakenOfFront(s, near, |near|, max, d);
    }
  }

  lemma {:induction false} SameFreeAhead(s: State, s': State, near: seq<DriverId>, i: nat)
    requires i <= |near| && forall d :: HasYoungTrip(s', d) <==> HasYoungTrip(s, d)
    ensures FreeAhead(s', near, i) == FreeAhead(s, near, i)
  {
    if i > 0 {
      SameFreeAhead(s, s', near, i - 1);
    }
  }

  lemma SameInWave(s: State, s': State, near: seq<DriverId>, max: nat)
    requires forall d :: HasYoungTrip(s', d) <==> HasYoungTrip(s, d)
    ensures InWave(s', near, max) == InWave(s, near, max)
  {
    forall i | 0 <= i <= |near| ensures FreeAhead(s', near, i) == FreeAhead(s, near, i) {
      SameFreeAhead(s, s', near, i);
    }
  }

  lemma SameRowsSameYoung(s: State, s': State)
    requires s'.trips == s.trips && s'.now == s.now
    ensures forall d :: HasYoungTrip(s', d) <==> HasYoungTrip(s, d)
  {}

  // ------------------------------------------------------------------- outcomes

  /** The drivers of `offered` now hold the lock; every other lock is as it was. */
  function LockedFor(locks: map<DriverId, Lock>, offered: set<DriverId>, lock: Lock): map<DriverId, Lock> {
    map d | d in locks.Keys + offered :: if d in offered then lock else locks[d]
  }

  /** What `s'` holds of the attempt of `p`: a new offer, an ended wait, or what was there. */
  ghost predicate AttemptFollows(s: State, s': State, p: Pair, ended: set<DriverId>, to: AttemptStatus,
                                 offered: set<DriverId>) {
    if p.driver in offered then
      p in s'.attempts && s'.attempts[p] == Attempt(DriverNotified, s.now)
    else
      (p in s'.attempts <==> p in s.attempts) &&
      (p in s.attempts ==>
        s'.attempts[p] == if p.driver in ended && s.attempts[p].status == DriverNotified
                          then s.attempts[p].(status := to) else s.attempts[p])
  }

  ghost predicate AttemptsFollow(s: State, s': State, t: TripId, ended: set<DriverId>, to: AttemptStatus,
                                 offered: set<DriverId>) {
    forall p: Pair :: p.trip == t ==> AttemptFollows(s, s', p, ended, to, offered)
  }

  /** The trip goes on, one round later, and waits on exactly these drivers. */
  ghost predicate IsOffered(s: State, s': State, t: TripId, offered: set<DriverId>) {
    t in s.trips && t in s'.trips && s'.trips[t] == s.trips[t] && NotifiedDrivers(s', t) == offered &&
    t in s'.rounds && s'.rounds[t] == Rounds(RoundsOf(s, t) + 1, s.now + ROUNDS_TTL_MS)
  }

  /** The trip is cancelled by the system, now, and its counter is gone. */
  ghost predicate IsGivenUp(s: State, s': State, t: TripId) {
    t in s.trips && t in s'.trips && t !in s'.rounds &&
    s'.trips[t] == s.trips[t].(status := CancelledAuto, updatedAt := s.now)
  }

  /** Row and counter are as they were. */
  ghost predicate IsLeftAlone(s: State, s': State, t: TripId) {
    t in s.trips && t in s'.trips && s'.trips[t] == s.trips[t] &&
    (t in s'.rounds <==> t in s.rounds) && (t in s.rounds ==> s'.rounds[t] == s.rounds[t])
  }

  lemma WaitingFollows(s: State, s': State, t: TripId, ended: set<DriverId>, to: AttemptStatus, offered: set<DriverId>)
    requires AttemptsFollow(s, s', t, ended, to, offered) && to != DriverNotified
    ensures NotifiedDrivers(s', t) == NotifiedDrivers(s, t) - ended + offered
  {
    forall d ensures d in NotifiedDrivers(s', t) <==> d in NotifiedDrivers(s, t) - ended + offered {
      WaitsIffNotified(s, t, d);
      WaitsIffNotified(s', t, d);
      assert AttemptFollows(s, s', Pair(t, d), ended, to, offered);
    }
  }

  // --------------------------------------------------------------- one dispatch

  /** What a wave given `ds` leaves: those without a lock get an attempt and a lock. */
  ghost predicate WaveLeaves(s: State, s': State, t: TripId, ttl: nat, offered: set<DriverId>) {
    s'.now == s.now && s'.trips == s.trips && s'.rounds == s.rounds &&
    s'.locks == LockedFor(s.locks, offered, Lock(t, s.now + ttl)) &&
    AttemptsFollow(s, s', t, {}, TimedOut, offered)
  }

  lemma NothingOffered(s: State, t: TripId, ttl: nat)
    ensures WaveLeaves(s, s, t, ttl, {})
  {
    assert LockedFor(s.locks, {}, Lock(t, s.now + ttl)) == s.locks;
  }

  lemma NotifyOffersOneMore(c: DispatchConfig, s: State, m: State, t: TripId, offered: set<DriverId>, d: DriverId)
    requires WaveLeaves(s, m, t, LockTtlMs(c), offered)
    ensures WaveLeaves(s, Notify(c, m, t, d), t, LockTtlMs(c), offered + {d})
  {
    var s' := Notify(c, m, t, d);
    assert s'.locks == m.locks[d := Lock(t, s.now + LockTtlMs(c))];
    assert s'.attempts == m.attempts[Pair(t, d) := Attempt(DriverNotified, s.now)];
    NotifyKeepsFollowing(s, m, s', t, offered, d);
  }

  lemma NotifyKeepsFollowing(s: State, m: State, s': State, t: TripId, offered: set<DriverId>, d: DriverId)
    requires AttemptsFollow(s, m, t, {}, TimedOut, offered)
    requires s'.attempts == m.attempts[Pair(t, d) := Attempt(DriverNotified, s.now)]
    ensures AttemptsFollow(s, s', t, {}, TimedOut, offered + {d})
  {
    forall p: Pair | p.trip == t ensures AttemptFollows(s, s', p, {}, TimedOut, offered + {d}) {
      assert AttemptFollows(s, m, p, {}, TimedOut, offered);
    }
  }

  lemma {:induction false} WaveOffers(c: DispatchConfig, s: State, t: TripId, ds: seq<DriverId>)
    ensures var r := Wave(c, s, t, ds);
      var offered := Members(ds) - s.locks.Keys;
      WaveLeaves(s, r.state, t, LockTtlMs(c), offered) && (r.notified == [] <==> offered == {})
  {
    if ds == [] {
      NothingOffered(s, t, LockTtlMs(c));
    } else {
      var n := |ds| - 1;
      WaveOffers(c, s, t, ds[..n]);
      OneMoreMember(s, ds);
      if ds[n] !in Wave(c, s, t, ds[..n]).state.locks {
        NotifyOffersOneMore(c, s, Wave(c, s, t, ds[..n]).state, t, Members(ds[..n]) - s.locks.Keys, ds[n]);
      }
    }
  }

  lemma OneMoreMember(s: State, ds: seq<DriverId>)
    requires ds != []
    ensures var n := |ds| - 1; var before := Members(ds[..n]) - s.locks.Keys;
      Members(ds) - s.locks.Keys == if ds[n] in s.locks.Keys + before then before else before + {ds[n]}
  {
    var n := |ds| - 1;
    assert ds == ds[..n] + [ds[n]];
    assert Members(ds) == Members(ds[..n]) + {ds[n]};
  }

  /** What `AttemptDispatch` makes of trip `t`, when the drivers of `offered` are free. */
  ghost predicate DispatchLeaves(s: State, s': State, t: TripId, ttl: nat, offered: set<DriverId>) {
    s'.now == s.now && s'.locks == LockedFor(s.locks, offered, Lock(t, s.now + ttl)) &&
    AttemptsFollow(s, s', t, {}, TimedOut, offered) &&
    if offered != {} then IsOffered(s, s', t, offered) else IsGivenUp(s, s', t)
  }

  lemma DispatchDecides(setup: Setup, s: State, t: TripId, near: seq<DriverId>)
    requires IsPending(s, t) && NotifiedDrivers(s, t) == {}
    ensures var c := setup.config(s.trips[t].service);
      DispatchLeaves(s, AttemptDispatch(setup, s, t, s.trips[t].service, near), t, LockTtlMs(c),
                     InWave(s, near, c.maxAttempts) - s.locks.Keys)
  {
    var c := setup.config(s.trips[t].service);
    var s1 := BumpRounds(s, t);
    var ds := Take(Candidates(s1, near), c.maxAttempts);
    WaveMembers(s1, near, c.maxAttempts);
    SameRowsSameYoung(s, s1);
    SameInWave(s, s1, near, c.maxAttempts);
    WaveOffers(c, s1, t, ds);
    NoMembersIsEmpty(ds);
    var offered := Members(ds) - s.locks.Keys;
    if Candidates(s1, near) == [] {
      NothingOffered(s1, t, LockTtlMs(c));
      FailDecides(s, s1, t, LockTtlMs(c));
    } else if offered == {} {
      FailDecides(s, Wave(c, s1, t, ds).state, t, LockTtlMs(c));
    } else {
      OfferDecides(s, Wave(c, s1, t, ds).state, t, LockTtlMs(c), offered);
    }
  }

  lemma SameAttemptsFollow(s: State, s1: State, m: State, m': State, t: TripId, offered: set<DriverId>)
    requires s1.attempts == s.attempts && s1.now == s.now && m'.attempts == m.attempts
    requires AttemptsFollow(s1, m, t, {}, TimedOut, offered)
    ensures AttemptsFollow(s, m', t, {}, TimedOut, offered)
  {
    forall p: Pair | p.trip == t ensures AttemptFollows(s, m', p, {}, TimedOut, offered) {
      assert AttemptFollows(s1, m, p, {}, TimedOut, offered);
    }
  }

  lemma FailDecides(s: State, m: State, t: TripId, ttl: nat)
    requires IsPending(s, t) && WaveLeaves(BumpRounds(s, t), m, t, ttl, {})
    ensures DispatchLeaves(s, FailTrip(m, t), t, ttl, {})
  {
    SameAttemptsFollow(s, BumpRounds(s, t), m, FailTrip(m, t), t, {});
  }

  lemma OfferDecides(s: State, m: State, t: TripId, ttl: nat, offered: set<DriverId>)
    requires IsPending(s, t) && NotifiedDrivers(s, t) == {} && offered != {}
    requires WaveLeaves(BumpRounds(s, t), m, t, ttl, offered)
    ensures DispatchLeaves(s, m, t, ttl, offered)
  {
    SameAttemptsFollow(s, BumpRounds(s, t), m, m, t, offered);
    WaitingFollows(s, m, t, {}, TimedOut, offered);
  }

  // ------------------------------------------------------------------ an answer

  /** The status an answer gives the attempt. */
  function EndsAs(step: Step): AttemptStatus {
    if step.StepJob? then TimedOut else DriverDeclined
  }

  /** The drivers the retry after an answer asks: nobody while others wait or at the maximum. */
  function AskedNext(setup: Setup, s: State, t: TripId, d: DriverId, near: seq<DriverId>): set<DriverId>
    requires t in s.trips
  {
    var max := MaxAttempts(setup, s, t);
    if IsPending(s, t) && NotifiedDrivers(s, t) <= {d} && RoundsOf(s, t) < max
    then InWave(s, near, max) - (s.locks.Keys - {d}) else {}
  }

  /** Everything an answer of driver `d` leaves of trip `t`. */
  ghost predicate AnswerLeaves(s: State, s': State, t: TripId, d: DriverId, to: AttemptStatus, ttl: nat,
                               asked: set<DriverId>) {
    s'.locks == LockedFor(s.locks - {d}, asked, Lock(t, s.now + ttl)) &&
    AttemptsFollow(s, s', t, {d}, to, asked) &&
    if asked != {} then IsOffered(s, s', t, asked)
    else if IsPending(s, t) && NotifiedDrivers(s, t) <= {d} then IsGivenUp(s, s', t)
    else IsLeftAlone(s, s', t)
  }

  /** The state between an answer and the retry check. */
  ghost predicate IsAnswered(s: State, m: State, t: TripId, d: DriverId, to: AttemptStatus) {
    m.now == s.now && m.trips == s.trips && m.rounds == s.rounds && m.locks == s.locks - {d} &&
    AttemptsFollow(s, m, t, {d}, to, {})
  }

  lemma DropIsAnswer(s: State, t: TripId, d: DriverId)
    ensures IsAnswered(s, Drop(s, t, {d}, DriverDeclined), t, d, DriverDeclined)
  {}

  lemma TimeoutIsAnswer(s: State, j: JobId)
    requires j in s.jobs
    ensures IsAnswered(s, TimedOutBy(s, j), s.jobs[j].pair.trip, s.jobs[j].pair.driver, TimedOut)
  {}

  lemma AnswerThenOffer(s: State, m: State, s': State, t: TripId, d: DriverId, to: AttemptStatus, offered: set<DriverId>)
    requires AttemptsFollow(s, m, t, {d}, to, {}) && AttemptsFollow(m, s', t, {}, TimedOut, offered) && m.now == s.now
    ensures AttemptsFollow(s, s', t, {d}, to, offered)
  {
    forall p: Pair | p.trip == t ensures AttemptFollows(s, s', p, {d}, to, offered) {
      assert AttemptFollows(s, m, p, {d}, to, {}) && AttemptFollows(m, s', p, {}, TimedOut, offered);
    }
  }

  lemma NothingLocked(locks: map<DriverId, Lock>, lock: Lock)
    ensures LockedFor(locks, {}, lock) == locks
  {}

  lemma RetryDecides(setup: Setup, s: State, m: State, t: TripId, d: DriverId, to: AttemptStatus, near: seq<DriverId>)
    requires IsAnswered(s, m, t, d, to) && to != DriverNotified && t in s.trips
    ensures AnswerLeaves(s, CheckAndRetry(setup, m, t, near), t, d, to,
                         LockTtlMs(setup.config(s.trips[t].service)), AskedNext(setup, s, t, d, near))
  {
    var ttl := LockTtlMs(setup.config(s.trips[t].service));
    WaitingFollows(s, m, t, {d}, to, {});
    if Retries(setup, m, t) {
      SameRowsSameYoung(s, m);
      SameInWave(s, m, near, MaxAttempts(setup, s, t));
      DispatchDecides(setup, m, t, near);
      ThenDispatched(s, m, CheckAndRetry(setup, m, t, near), t, d, to, ttl, AskedNext(setup, s, t, d, near));
    } else {
      ThenStopped(s, m, CheckAndRetry(setup, m, t, near), t, d, to, ttl);
    }
  }

  lemma ThenDispatched(s: State, m: State, s': State, t: TripId, d: DriverId, to: AttemptStatus, ttl: nat,
                       asked: set<DriverId>)
    requires IsAnswered(s, m, t, d, to) && DispatchLeaves(m, s', t, ttl, asked)
    requires IsPending(s, t) && NotifiedDrivers(s, t) <= {d}
    ensures AnswerLeaves(s, s', t, d, to, ttl, asked)
  {
    AnswerThenOffer(s, m, s', t, d, to, asked);
  }

  lemma ThenStopped(s: State, m: State, s': State, t: TripId, d: DriverId, to: AttemptStatus, ttl: nat)
    requires IsAnswered(s, m, t, d, to) && t in s.trips
    requires s' == if IsPending(s, t) && NotifiedDrivers(s, t) <= {d} then FailTrip(m, t) else m
    ensures AnswerLeaves(s, s', t, d, to, ttl, {})
  {
    NothingLocked(m.locks, Lock(t, s.now + ttl));
    SameAttempts(s, m, s', t, d, to);
  }

  lemma SameAttempts(s: State, m: State, s': State, t: TripId, d: DriverId, to: AttemptStatus)
    requires AttemptsFollow(s, m, t, {d}, to, {}) && s'.attempts == m.attempts
    ensures AttemptsFollow(s, s', t, {d}, to, {})
  {
    forall p: Pair | p.trip == t ensures AttemptFollows(s, s', p, {d}, to, {}) {
      assert AttemptFollows(s, m, p, {d}, to, {});
    }
  }

  /**
   A decline that is not refused, or a job, of driver `d` for trip `t`. While others wait, or
   when the trip is settled, only the attempt ends and the driver's lock goes. Otherwise the
   trip is offered to the drivers of `AskedNext`, each locked for it, or given up when there
   are none. Declines without an attempt, late jobs and foreign locks are included.
   */
  lemma AnswerDecides(setup: Setup, s: State, step: Step, t: TripId, d: DriverId)
    requires AnsweredPair(s, step) == Some(Pair(t, d)) && t in s.trips
    requires step.StepDecline? ==> Notified(s, Pair(t, d))
    ensures AnswerLeaves(s, Next(setup, s, step), t, d, EndsAs(step), LockTtlMs(setup.config(s.trips[t].service)),
                         AskedNext(setup, s, t, d, step.near))
  {
    if step.StepJob? {
      TimeoutIsAnswer(s, step.job);
      JobIsTimeoutThenRetry(setup, s, step.job, step.near);
      RetryDecides(setup, s, TimedOutBy(s, step.job), t, d, TimedOut, step.near);
    } else {
      DropIsAnswer(s, t, d);
      RetryDecides(setup, s, Drop(s, t, {d}, DriverDeclined), t, d, DriverDeclined, step.near);
    }
  }

  /** Driver near[i] can be asked next: no young trip, no lock but the answering driver's own, near enough. */
  predicate CanBeAsked(s: State, near: seq<DriverId>, max: nat, d: DriverId, i: nat)
    requires i < |near|
  {
    !HasYoungTrip(s, near[i]) && FreeAhead(s, near, i) < max && (near[i] in s.locks ==> near[i] == d)
  }

  /**
   The last driver waiting on a pending trip declines, by REST or WebSocket, or times out: the
   trip goes on if and only if the counter is below the maximum and somebody can be asked.
   Then it waits on somebody, one round later; otherwise it is cancelled by the system.
   */
  lemma LastAnswerGoesOnIff(setup: Setup, s: State, step: Step, t: TripId, d: DriverId)
    requires AnsweredPair(s, step) == Some(Pair(t, d)) && IsPending(s, t) && NotifiedDrivers(s, t) == {d}
    ensures var s' := Next(setup, s, step);
      t in s'.trips && (s'.trips[t].status == Pending || s'.trips[t].status == CancelledAuto) &&
      (IsPending(s', t) ==> NotifiedDrivers(s', t) != {} && RoundsOf(s', t) == RoundsOf(s, t) + 1)
    ensures IsPending(Next(setup, s, step), t) <==>
      RoundsOf(s, t) < MaxAttempts(setup, s, t) &&
      exists i :: 0 <= i < |step.near| && CanBeAsked(s, step.near, MaxAttempts(setup, s, t), d, i)
  {
    WaitsIffNotified(s, t, d);
    AnswerDecides(setup, s, step, t, d);
    AskedIff(s, step.near, MaxAttempts(setup, s, t), d);
  }

  lemma AskedIff(s: State, near: seq<DriverId>, max: nat, d: DriverId)
    ensures InWave(s, near, max) - (s.locks.Keys - {d}) != {} <==>
      exists i :: 0 <= i < |near| && CanBeAsked(s, near, max, d, i)
  {
    var asked := InWave(s, near, max) - (s.locks.Keys - {d});
    if asked != {} {
      var x :| x in asked;
      var i :| 0 <= i < |near| && near[i] == x && FreeAhead(s, near, i) < max;
      assert CanBeAsked(s, near, max, d, i);
    }
    if i :| 0 <= i < |near| && CanBeAsked(s, near, max, d, i) {
      assert IsTaken(s, near, |near|, max, near[i]) && near[i] in asked;
    }
  }

  /** The REST decline without an active attempt changes nothing. */
  lemma UnaskedDeclineIsRefused(setup: Setup, s: State, t: TripId, d: DriverId, near: seq<DriverId>)
    requires !Notified(s, Pair(t, d))
    ensures Next(setup, s, StepDecline(t, d, near)) == s
  {}

  // ---------------------------------------------------------------- a creation

  lemma NewRowIsNobodys(s: State, t: TripId, row: Trip)
    requires t !in s.trips && row.status == Pending
    ensures forall d :: HasYoungTrip(s.(trips := s.trips[t := row]), d) <==> HasYoungTrip(s, d)
  {
    var s1 := s.(trips := s.trips[t := row]);
    forall d | HasYoungTrip(s, d) ensures HasYoungTrip(s1, d) {
      var u :| u in s.trips && Engages(s.trips[u], d, s.now);
      assert u in s1.trips && Engages(s1.trips[u], d, s1.now);
    }
    forall d | HasYoungTrip(s1, d) ensures HasYoungTrip(s, d) {
      var u :| u in s1.trips && Engages(s1.trips[u], d, s1.now);
      assert u in s.trips && Engages(s.trips[u], d, s.now);
    }
  }

  /** A new trip is offered to the free drivers of its first wave, or cancelled when there are none. */
  lemma CreationDecides(setup: Setup, s: State, step: Step)
    requires Consistent(s) && step.StepCreate? && step.trip !in s.trips
    ensures var c := setup.config(step.service);
      var row := Trip(step.client, step.service, Pending, None, s.now, s.now);
      DispatchLeaves(s.(trips := s.trips[step.trip := row]), Next(setup, s, step), step.trip, LockTtlMs(c),
                     InWave(s, step.near, c.maxAttempts) - s.locks.Keys)
  {
    var row := Trip(step.client, step.service, Pending, None, s.now, s.now);
    var s1 := s.(trips := s.trips[step.trip := row]);
    NewRowAwaitsNobody(s, step.trip);
    assert NotifiedDrivers(s1, step.trip) == NotifiedDrivers(s, step.trip);
    NewRowIsNobodys(s, step.trip, row);
    SameInWave(s, s1, step.near, setup.config(step.service).maxAttempts);
    DispatchDecides(setup, s1, step.trip, step.near);
  }
}
