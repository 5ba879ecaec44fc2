/**
 The dispatch protocol on values. `State` holds the four stores the handlers share (trip
 rows, attempt rows, driver locks, timeout jobs with their job keys), the rounds counters
 and the clock. Each handler of the services is one function from state to state; a run
 is a sequence of steps. An expired Redis entry is dropped when the clock advances, so an
 entry is live exactly when it is in its map.
 */
module DispatchModel {
  import opened Prelude
  import opened TripLifecycle

  type TripId = nat
  type DriverId = nat
  type UserId = nat
  type JobId = nat

  datatype Service = Ride | Delivery | Food | Assistance | Intercity

  datatype DispatchConfig = DispatchConfig(maxAttempts: nat, lockTtlSeconds: nat, timeoutMs: nat)

  /** The per-service configuration, and the longest delay with which a due job still starts. */
  datatype Setup = Setup(config: Service -> DispatchConfig, slack: nat)

  datatype Trip = Trip(client: UserId, service: Service, status: TripStatus,
                       driver: Option<DriverId>, createdAt: int, updatedAt: int)

  datatype AttemptStatus = DriverNotified | DriverAccepted | DriverDeclined | TimedOut

  datatype Pair = Pair(trip: TripId, driver: DriverId)
  datatype Attempt = Attempt(status: AttemptStatus, notifiedAt: int)
  datatype Lock = Lock(trip: TripId, expiresAt: int)
  datatype Job = Job(pair: Pair, dueAt: int)
  datatype JobKey = JobKey(job: JobId, expiresAt: int)
  datatype Rounds = Rounds(count: nat, expiresAt: int)

  datatype State = State(
    now: int,
    trips: map<TripId, Trip>,
    attempts: map<Pair, Attempt>,
    locks: map<DriverId, Lock>,
    jobs: map<JobId, Job>,
    jobKeys: map<Pair, JobKey>,
    rounds: map<TripId, Rounds>,
    nextJob: JobId,
    lastSweep: int)

  const JOB_KEY_MARGIN_SECONDS := 30
  const ROUNDS_TTL_MS := 3_600_000
  const REARM_LOCK_MS := 75_000
  const YOUNG_TRIP_MS := 1_500_000
  const REDISPATCH_MIN_AGE_MS := 90_000
  const REDISPATCH_MAX_AGE_MS := 120_000
  const STALE_ASSIGNED_MS := 2_700_000
  const SWEEP_INTERVAL_MS := 30_000

  const EMPTY_STATE := State(0, map[], map[], map[], map[], map[], map[], 0, 0)

  // ---------------------------------------------------------------- queries

  predicate Notified(s: State, p: Pair) {
    p in s.attempts && s.attempts[p].status == DriverNotified
  }

  /** The drivers whose attempt on trip `t` waits for an answer. */
  function NotifiedDrivers(s: State, t: TripId): set<DriverId> {
    set p | p in s.attempts && p.trip == t && s.attempts[p].status == DriverNotified :: p.driver
  }

  predicate IsPending(s: State, t: TripId) {
    t in s.trips && s.trips[t].status == Pending
  }

  /** Trip row `trip` still keeps driver `d` out of the candidate list at time `now`. */
  predicate Engages(trip: Trip, d: DriverId, now: int) {
    trip.driver == Some(d) && IsActive(trip.status) && trip.createdAt > now - YOUNG_TRIP_MS
  }

  predicate HasYoungTrip(s: State, d: DriverId) {
    exists t :: t in s.trips && Engages(s.trips[t], d, s.now)
  }

  /**
   The candidates among `near`, which is the position query's answer (validated, online,
   in range, right vehicle, nearest first): drivers without a young active trip.
   */
  function Candidates(s: State, near: seq<DriverId>): seq<DriverId> {
    if near == [] then []
    else (if HasYoungTrip(s, near[0]) then [] else [near[0]]) + Candidates(s, near[1..])
  }

  function Take(ds: seq<DriverId>, n: nat): seq<DriverId> {
    if |ds| <= n then ds else ds[..n]
  }

  function RoundsOf(s: State, t: TripId): nat {
    if t in s.rounds then s.rounds[t].count else 0
  }

  // ------------------------------------------------------- writes on one store

  function CancelTimeoutJob(s: State, p: Pair): State {
    if p in s.jobKeys then s.(jobs := s.jobs - {s.jobKeys[p].job}, jobKeys := s.jobKeys - {p})
    else s
  }

  function SetStatus(s: State, t: TripId, status: TripStatus): State
    requires t in s.trips
  {
    s.(trips := s.trips[t := s.trips[t].(status := status, updatedAt := s.now)])
  }

  /** A write that leaves the status alone still moves the row's update time. */
  function Touch(s: State, t: TripId): State
    requires t in s.trips
  {
    s.(trips := s.trips[t := s.trips[t].(updatedAt := s.now)])
  }

  /** The dispatch-failed event and its handler: drop the counter, cancel a trip still pending. */
  function FailTrip(s: State, t: TripId): State {
    var s1 := s.(rounds := s.rounds - {t});
    if IsPending(s1, t) then SetStatus(s1, t, CancelledAuto) else s1
  }

  /**
   The notified attempts of trip `t` among drivers `ds` get status `to`; every driver of
   `ds` loses the lock, whatever trip it names; the timeout jobs of (t, ds) are cancelled.
   */
  function Drop(s: State, t: TripId, ds: set<DriverId>, to: AttemptStatus): State {
    s.(attempts := map p | p in s.attempts ::
         if p.trip == t && p.driver in ds && s.attempts[p].status == DriverNotified
         then s.attempts[p].(status := to) else s.attempts[p],
       locks := s.locks - ds,
       jobs := s.jobs - KeyedJobs(s, t, ds),
       jobKeys := map p | p in s.jobKeys && !(p.trip == t && p.driver in ds) :: s.jobKeys[p])
  }

  function KeyedJobs(s: State, t: TripId, ds: set<DriverId>): set<JobId> {
    set p | p in s.jobKeys && p.trip == t && p.driver in ds :: s.jobKeys[p].job
  }

  // -------------------------------------------------------------- dispatching

  function LockTtlMs(c: DispatchConfig): nat { c.lockTtlSeconds * 1000 }

  function JobKeyTtlMs(c: DispatchConfig): nat {
    ((c.timeoutMs + 999) / 1000 + JOB_KEY_MARGIN_SECONDS) * 1000
  }

  function MarkNotified(s: State, p: Pair, ttl: nat): State {
    s.(locks := s.locks[p.driver := Lock(p.trip, s.now + ttl)],
       attempts := s.attempts[p := Attempt(DriverNotified, s.now)])
  }

  function ArmTimeout(s: State, p: Pair, timeout: nat, keyTtl: nat): State {
    s.(jobs := s.jobs[s.nextJob := Job(p, s.now + timeout)],
       jobKeys := s.jobKeys[p := JobKey(s.nextJob, s.now + keyTtl)],
       nextJob := s.nextJob + 1)
  }

  /** Lock, attempt row, job and job key for one driver whose lock is free. */
  function Notify(c: DispatchConfig, s: State, t: TripId, d: DriverId): State {
    var p := Pair(t, d);
    ArmTimeout(CancelTimeoutJob(MarkNotified(s, p, LockTtlMs(c)), p), p, c.timeoutMs, JobKeyTtlMs(c))
  }

  datatype WaveResult = WaveResult(state: State, notified: seq<DriverId>)

  function Wave(c: DispatchConfig, s: State, t: TripId, ds: seq<DriverId>): WaveResult {
    if ds == [] then WaveResult(s, [])
    else
      var r := Wave(c, s, t, ds[..|ds| - 1]);
      var d := ds[|ds| - 1];
      if d in r.state.locks then r
      else WaveResult(Notify(c, r.state, t, d), r.notified + [d])
  }

  function BumpRounds(s: State, t: TripId): State {
    s.(rounds := s.rounds[t := Rounds(RoundsOf(s, t) + 1, s.now + ROUNDS_TTL_MS)])
  }

  function AttemptDispatch(setup: Setup, s: State, t: TripId, service: Service, near: seq<DriverId>): State {
    var s1 := BumpRounds(s, t);
    var c := setup.config(service);
    var candidates := Candidates(s1, near);
    if candidates == [] then FailTrip(s1, t)
    else
      var r := Wave(c, s1, t, Take(candidates, c.maxAttempts));
      if r.notified == [] then FailTrip(r.state, t) else r.state
  }

  function CheckAndRetry(setup: Setup, s: State, t: TripId, near: seq<DriverId>): State {
    if !IsPending(s, t) || NotifiedDrivers(s, t) != {} then s
    else
      var service := s.trips[t].service;
      if RoundsOf(s, t) >= setup.config(service).maxAttempts then FailTrip(s, t)
      else AttemptDispatch(setup, s, t, service, near)
  }

  // ----------------------------------------------------------- driver answers

  function HandleDriverTimeout(setup: Setup, s: State, t: TripId, d: DriverId, near: seq<DriverId>): State {
    var p := Pair(t, d);
    var s1 := s.(attempts := if Notified(s, p)
                             then s.attempts[p := s.attempts[p].(status := TimedOut)] else s.attempts,
                 locks := s.locks - {d},
                 jobKeys := s.jobKeys - {p});
    CheckAndRetry(setup, s1, t, near)
  }

  /** The queue hands job `j` to its processor. */
  function ProcessJob(setup: Setup, s: State, j: JobId, near: seq<DriverId>): State {
    if j !in s.jobs then s
    else
      var p := s.jobs[j].pair;
      HandleDriverTimeout(setup, s.(jobs := s.jobs - {j}), p.trip, p.driver, near)
  }

  function HandleDriverDecline(s: State, t: TripId, d: DriverId): State {
    Drop(s, t, {d}, DriverDeclined)
  }

  function HandleDriverDeclineAndRetry(setup: Setup, s: State, t: TripId, d: DriverId, near: seq<DriverId>): State {
    CheckAndRetry(setup, HandleDriverDecline(s, t, d), t, near)
  }

  /** The REST decline: refused (no change) without an active attempt. */
  function DeclineTrip(setup: Setup, s: State, t: TripId, d: DriverId, near: seq<DriverId>): State {
    if t !in s.trips || !Notified(s, Pair(t, d)) then s
    else HandleDriverDeclineAndRetry(setup, s, t, d, near)
  }

  function ReleaseLocksForTrip(s: State, t: TripId): State {
    Drop(s, t, NotifiedDrivers(s, t), TimedOut)
  }

  function AssignDriver(s: State, t: TripId, d: DriverId): State
    requires t in s.trips
  {
    s.(trips := s.trips[t := s.trips[t].(status := Accepted, driver := Some(d), updatedAt := s.now)])
  }

  predicate HoldsLockFor(s: State, t: TripId, d: DriverId) {
    d in s.locks && s.locks[d].trip == t
  }

  /** On a lock mismatch the handler returns early and only its caller's write happens. */
  function HandleDriverAccept(s: State, t: TripId, d: DriverId): State
    requires t in s.trips
  {
    if !HoldsLockFor(s, t, d) then s
    else
      var s1 := Drop(s, t, {d}, DriverAccepted);
      var s2 := Drop(s1, t, NotifiedDrivers(s1, t) - {d}, DriverDeclined);
      AssignDriver(s2.(rounds := s2.rounds - {t}), t, d)
  }

  // -------------------------------------------------------------- trip updates

  datatype Role = ClientRole | DriverRole | AdminRole

  /** The authenticated caller, with the driver profile of the account if it has one. */
  datatype Actor = Actor(user: UserId, role: Role, profile: Option<DriverId>)

  datatype Outcome = Done | NotFound | BadRequest | Forbidden

  datatype Reply = Reply(state: State, outcome: Outcome)

  /** The checks of updateStatus after the transition table, per requested status. */
  function Permission(s: State, t: TripId, actor: Actor, to: TripStatus): Outcome
    requires t in s.trips
  {
    var trip := s.trips[t];
    match to
    case Accepted =>
      if actor.role == DriverRole && actor.profile.Some? && Notified(s, Pair(t, actor.profile.value))
      then Done else Forbidden
    case CancelledByClient =>
      if actor.role != ClientRole && actor.user != trip.client then Forbidden else Done
    case CancelledAuto => Done
    case _ =>
      if actor.role == DriverRole && actor.profile.Some? && trip.driver == actor.profile
      then Done else Forbidden
  }

  function UpdateStatus(s: State, t: TripId, actor: Actor, to: TripStatus): Reply {
    if t !in s.trips then Reply(s, NotFound)
    else if !CanTransition(s.trips[t].status, to) then Reply(s, BadRequest)
    else if Permission(s, t, actor, to) != Done then Reply(s, Forbidden)
    else match to
      case Accepted =>
        Reply(AssignDriver(HandleDriverAccept(s, t, actor.profile.value), t, actor.profile.value), Done)
      case CancelledByClient => Reply(SetStatus(ReleaseLocksForTrip(s, t), t, to), Done)
      case CancelledAuto => Reply(SetStatus(ReleaseLocksForTrip(s, t), t, to), Done)
      case _ => Reply(SetStatus(s, t, to), Done)
  }

  function DriverOwns(s: State, t: TripId, actor: Actor): Outcome {
    if actor.role != DriverRole then Forbidden
    else if t !in s.trips then NotFound
    else if actor.profile.None? || s.trips[t].driver != actor.profile then Forbidden
    else if s.trips[t].status != InProgress then BadRequest
    else Done
  }

  function CompleteTrip(s: State, t: TripId, actor: Actor): Reply {
    var verdict := DriverOwns(s, t, actor);
    if verdict != Done then Reply(s, verdict) else Reply(SetStatus(s, t, Completed), Done)
  }

  function ConfirmPaymentReceived(s: State, t: TripId, actor: Actor): Reply {
    var verdict := DriverOwns(s, t, actor);
    if verdict != Done then Reply(s, verdict) else Reply(Touch(s, t), Done)
  }

  /** The new trip row, then the dispatch its creation event starts. */
  function CreateTrip(setup: Setup, s: State, t: TripId, client: UserId, service: Service, near: seq<DriverId>): State {
    var row := Trip(client, service, Pending, None, s.now, s.now);
    AttemptDispatch(setup, s.(trips := s.trips[t := row]), t, service, near)
  }

  // -------------------------------------------------------------------- sweeps

  ghost predicate Distinct(ids: seq<TripId>) {
    forall i, j :: 0 <= i < j < |ids| ==> ids[i] != ids[j]
  }

  /** `order` is the sweep's query: the pending trips, oldest first. */
  ghost predicate IsPendingList(s: State, order: seq<TripId>) {
    Distinct(order) &&
    (forall t :: t in order <==> IsPending(s, t)) &&
    (forall i, j :: 0 <= i < j < |order| && order[i] in s.trips && order[j] in s.trips ==>
      s.trips[order[i]].createdAt <= s.trips[order[j]].createdAt)
  }

  function Redispatch(setup: Setup, s: State, t: TripId, near: map<TripId, seq<DriverId>>): State
    requires t in s.trips
  {
    var s1 := ReleaseLocksForTrip(s, t);
    if t !in near then FailTrip(s1, t)
    else AttemptDispatch(setup, s1, t, s.trips[t].service, near[t])
  }

  /** One trip of the sweep; a trip absent from `near` has no pickup coordinates. */
  function SweepOne(setup: Setup, s: State, quiet: bool, t: TripId, near: map<TripId, seq<DriverId>>): State {
    if t !in s.trips then s
    else
      var age := s.now - s.trips[t].createdAt;
      if quiet && age < REDISPATCH_MIN_AGE_MS then s
      else if age > REDISPATCH_MAX_AGE_MS then FailTrip(s, t)
      else Redispatch(setup, s, t, near)
  }

  function SweepAll(setup: Setup, s: State, quiet: bool, order: seq<TripId>, near: map<TripId, seq<DriverId>>): State {
    if order == [] then s
    else SweepOne(setup, SweepAll(setup, s, quiet, order[..|order| - 1], near), quiet, order[|order| - 1], near)
  }

  function SweepPending(setup: Setup, s: State, quiet: bool, order: seq<TripId>, near: map<TripId, seq<DriverId>>): State {
    var s1 := SweepAll(setup, s, quiet, order, near);
    if quiet then s1.(lastSweep := s.now) else s1
  }

  predicate IsStale(s: State, t: TripId) {
    t in s.trips && s.trips[t].status in {Accepted, DriverArriving} &&
    s.trips[t].updatedAt < s.now - STALE_ASSIGNED_MS
  }

  function SweepStaleOne(s: State, t: TripId): State {
    if t !in s.trips then s else ReleaseLocksForTrip(SetStatus(s, t, CancelledAuto), t)
  }

  function SweepStaleAll(s: State, stale: seq<TripId>): State {
    if stale == [] then s
    else SweepStaleOne(SweepStaleAll(s, stale[..|stale| - 1]), stale[|stale| - 1])
  }

  // ----------------------------------------------------- re-arm and the clock

  /** The attempts a driver who opens the application is offered again. */
  predicate Rearmable(s: State, p: Pair) {
    p in s.attempts && s.attempts[p].status in {DriverNotified, TimedOut} &&
    IsPending(s, p.trip) && s.trips[p.trip].driver == None
  }

  ghost predicate IsLatestRequest(s: State, p: Pair) {
    Rearmable(s, p) &&
    forall q :: Rearmable(s, q) && q.driver == p.driver ==>
      s.attempts[q].notifiedAt <= s.attempts[p].notifiedAt
  }

  predicate AcceptedByAnother(s: State, p: Pair) {
    exists q :: q in s.attempts && q.trip == p.trip && q != p && s.attempts[q].status == DriverAccepted
  }

  /** The lock is written without NX and no job is armed. */
  function Rearm(s: State, p: Pair): State {
    if !Rearmable(s, p) || AcceptedByAnother(s, p) then s
    else s.(attempts := s.attempts[p := s.attempts[p].(status := DriverNotified)],
            locks := s.locks[p.driver := Lock(p.trip, s.now + REARM_LOCK_MS)])
  }

  /** The queue loses a job: it will never fire. */
  function LoseJob(s: State, j: JobId): State {
    s.(jobs := s.jobs - {j})
  }

  function AdvanceClock(s: State, to: int): State {
    s.(now := to,
       locks := map d | d in s.locks && s.locks[d].expiresAt > to :: s.locks[d],
       jobKeys := map p | p in s.jobKeys && s.jobKeys[p].expiresAt > to :: s.jobKeys[p],
       rounds := map t | t in s.rounds && s.rounds[t].expiresAt > to :: s.rounds[t])
  }

  // ---------------------------------------------------------------------- runs

  datatype Step =
    | StepCreate(trip: TripId, client: UserId, service: Service, near: seq<DriverId>)
    | StepUpdateStatus(trip: TripId, actor: Actor, to: TripStatus)
    | StepDecline(trip: TripId, driver: DriverId, near: seq<DriverId>)
    | StepWsDecline(trip: TripId, driver: DriverId, near: seq<DriverId>)
    | StepJob(job: JobId, near: seq<DriverId>)
    | StepComplete(trip: TripId, actor: Actor)
    | StepConfirmPayment(trip: TripId, actor: Actor)
    | StepSweepPending(quiet: bool, order: seq<TripId>, nearOf: map<TripId, seq<DriverId>>)
    | StepSweepStale(stale: seq<TripId>)
    | StepRearm(pair: Pair)
    | StepLoseJob(job: JobId)
    | StepClock(time: int)

  function Next(setup: Setup, s: State, step: Step): State {
    match step
    case StepCreate(t, client, service, near) => CreateTrip(setup, s, t, client, service, near)
    case StepUpdateStatus(t, actor, to) => UpdateStatus(s, t, actor, to).state
    case StepDecline(t, d, near) => DeclineTrip(setup, s, t, d, near)
    case StepWsDecline(t, d, near) => HandleDriverDeclineAndRetry(setup, s, t, d, near)
    case StepJob(j, near) => ProcessJob(setup, s, j, near)
    case StepComplete(t, actor) => CompleteTrip(s, t, actor).state
    case StepConfirmPayment(t, actor) => ConfirmPaymentReceived(s, t, actor).state
    case StepSweepPending(quiet, order, near) => SweepPending(setup, s, quiet, order, near)
    case StepSweepStale(stale) => SweepStaleAll(s, stale)
    case StepRearm(p) => Rearm(s, p)
    case StepLoseJob(j) => LoseJob(s, j)
    case StepClock(time) => AdvanceClock(s, time)
  }

  /**
   What the environment guarantees in every run: fresh ids, true query answers, a clock
   that moves forward. Jobs may start late, and may be lost.
   */
  ghost predicate Possible(s: State, step: Step) {
    match step
    case StepCreate(t, _, _, _) => t !in s.trips
    case StepJob(j, _) => j in s.jobs && s.jobs[j].dueAt <= s.now
    case StepSweepPending(_, order, _) => IsPendingList(s, order)
    case StepSweepStale(stale) =>
      Distinct(stale) &&
      (forall t :: t in stale <==> IsStale(s, t))
    case StepRearm(p) => IsLatestRequest(s, p)
    case StepLoseJob(j) => j in s.jobs
    case StepClock(time) => s.now <= time
    case _ => true
  }

  /** No due job waits longer than the slack, and none is lost. */
  ghost predicate Punctual(setup: Setup, s: State, step: Step) {
    match step
    case StepLoseJob(_) => false
    case StepClock(time) => forall j :: j in s.jobs ==> time <= s.jobs[j].dueAt + setup.slack
    case _ => true
  }

  /** The steps that check for an active attempt, or need none. */
  predicate IsGuarded(step: Step) {
    !step.StepWsDecline? && !step.StepRearm?
  }

  /** A job key outlives its job. */
  predicate KeysOutliveJobs(setup: Setup) {
    setup.slack < JOB_KEY_MARGIN_SECONDS * 1000
  }

  /** Holds of the built-in defaults and of every seeded service. */
  ghost predicate WellConfigured(setup: Setup) {
    KeysOutliveJobs(setup) &&
    forall service: Service ::
      var c := setup.config(service);
      c.timeoutMs + setup.slack < LockTtlMs(c) && c.timeoutMs + setup.slack < ROUNDS_TTL_MS
  }

  function After(setup: Setup, run: seq<Step>): State {
    if run == [] then EMPTY_STATE
    else Next(setup, After(setup, run[..|run| - 1]), run[|run| - 1])
  }

  ghost predicate IsRun(setup: Setup, run: seq<Step>) {
    run == [] ||
    (IsRun(setup, run[..|run| - 1]) && Possible(After(setup, run[..|run| - 1]), run[|run| - 1]))
  }

  ghost predicate IsPunctualRun(setup: Setup, run: seq<Step>) {
    run == [] ||
    (IsPunctualRun(setup, run[..|run| - 1]) &&
     Possible(After(setup, run[..|run| - 1]), run[|run| - 1]) &&
     Punctual(setup, After(setup, run[..|run| - 1]), run[|run| - 1]))
  }

  /** A punctual run without unchecked declines and re-arms. */
  ghost predicate IsGuardedRun(setup: Setup, run: seq<Step>) {
    IsPunctualRun(setup, run) && forall i :: 0 <= i < |run| ==> IsGuarded(run[i])
  }
}
