# Telima backend: dispatch protocol, money ledger, pricing and authentication in Dafny

This project models the hard core of the Telima backend and proves what the code keeps in
every run. `dafny verify dfyconfig.toml` checks all of it.

**Dispatch and trips.** A trip is created and offered to drivers in waves. A wave takes a
Redis lock per driver, upserts an attempt row and arms a delayed timeout job whose id sits
under a key of its own. Drivers accept, decline or let the job fire; the client or the system
cancels; a sweep every 30 seconds dispatches orphans again or gives them up, another one
cancels assigned trips that stopped moving.

- `TripLifecycle.dfy`: the transition table, the stale sweep's extra edges, status paths.
- `DispatchModel.dfy`: the state (trips, attempts, locks, jobs, job keys, rounds, clock), one
  function per handler, steps and runs.
- `DispatchSystem.dfy`: the services as a class that writes those stores in the handlers'
  order; each method is proved to do what its function says, and the object's state is at all
  times the state after a run.
- `DispatchConsistency.dfy`, `DispatchRuns.dfy`: what every run keeps: unchecked WebSocket
  declines, re-arms, late jobs and lost jobs included. What locks mean, assignment, statuses,
  quiescence.
- `DispatchSafety.dfy`: the timeout jobs, in punctual runs: no due job waits longer than the
  slack and none is lost.
- `DispatchOutcomes.dfy`, `DispatchSweeps.dfy`, `DispatchArming.dfy`: what becomes of a trip after
  its creation, an answer or a sweep: exactly when it goes on, who is asked, what they hold.
- `DispatchRequests.dfy`: who may write which status, and who did.
- `DispatchOrder.dfy`: a wave takes the nearest candidates first and passes over nobody who was free.
- `DispatchRecovery.dfy`: what the sweeps bound in every run: rounds, re-dispatches, the age of a
  pending trip.
- `DispatchWaves.dfy`: dispatching terminates, in every run: what an answer uses up, and how
  many waves, notices and answers a trip can have.
- `DispatchBooking.dfy`: two young trips for one driver, in every run, and the one check that
  would rule them out.
- `DispatchGuarded.dfy`, `DispatchHarmless.dfy`, `DispatchProgress.dfy`: the joint invariant of
  attempts, locks, jobs and drivers; exactly which steps keep it ("harmless" steps, among them
  every step of a "guarded" run: punctual, without unchecked declines and re-arms); and what
  follows: attempt, lock and job are one fact, no driver has two young trips, a pending trip
  always waits on a live job, the age of a pending trip is bounded by its waves.
- `DispatchLimits.dfy`, `DispatchWitnesses.dfy`: which configurations meet the assumptions, what
  the code does at the edges, and runs that reach them.

**Money.** `Ledger.dfy`, `LedgerRuns.dfy`, `LedgerSystem.dfy`: the commission accrues inside
the step that completes a trip of the dispatch model; payments are started, recorded,
confirmed by webhook and polled in any order and number. `LedgerReports.dfy`: payments follow
the provider's word and nothing else. `LedgerCover.dfy`: when the
commission due can go negative. `Rounding.dfy` and `Pricing.dfy`: the
priority-ordered pricing rules, the two roundings, the commission. `Surge.dfy`: the dynamic
multiplier behind its cache. Arithmetic is exact, over `real`, with the code's rounding
(nearest whole, halves up) written out.

**Authentication.** `Otp.dfy`, `OtpCodes.dfy`, `OtpPhones.dfy`: one-time codes, what they decide,
attempts and locks per code and per phone. `RefreshTokens.dfy`, `RefreshRevocation.dfy`:
rotation of refresh tokens.

## What the proofs show about the code

Most of the promises hold in every run. Where one does not, the exact boundary is proved:

- *Unchecked decline and re-arm.* Both keep "a lock implies a waiting attempt", in every run.
  The whole joint invariant is kept by a step if and only if the step is harmless
  (`StepKeepsInvariantIff`, `RunKeepsInvariantIff`): a decline must not hit a lock on another
  trip, a re-armed attempt must still wait with a job that ends before the new lock, and no job
  may be late or lost. Either kind alone can otherwise give a driver two young trips
  (`UncheckedDeclineGivesTwoTrips`, `RearmGivesTwoTrips`).
- *Two young trips.* In every run, whatever steps it has, they come about if and only if an
  accept of a young trip is allowed to a driver who already has one (`RunHasOneYoungTripIff`).
  The accept does not look at the driver's other trips.
- *Lock mismatch on accept.* `docs/ARCHITECTURE.md:756` calls the check a refusal. The code
  returns early and the caller still writes `accepted`; the model follows the code. An accept
  leaves the trip without locks and waiting attempts if and only if the lock matched
  (`AcceptReleasesIffLockMatches`), and in safe states without jobs too
  (`AcceptQuietensIffLockMatches`); in harmless runs it always does (`AcceptAlwaysHoldsLock`).
- *Two accepts read before either writes.* The last write wins while the accepted attempt is
  that of the first driver whose lock matched; `RacingAcceptsAgreeIff` says for each order of
  the writes when the two agree. `docs/ARCHITECTURE.md:804` concedes the race; every other
  theorem takes a handler as one step.
- *Rounds.* A rounds counter lives an hour. Should it expire while its trip is pending the
  trip may have as many waves again (`WavesAreBounded`, `LapseSendsAnotherWave`); sweeps that
  keep up rule that out (`NoCounterLapses`), and then dispatching terminates
  (`DispatchTerminates`). Each re-arm of a timed-out attempt allows one answer more.
- *Aged orphans and cancellations.* The sweep fails an aged trip without releasing anything
  (`AgedFailureReleasesNothing`), also while its driver still waits
  (`GivenUpTripIsStillAwaited`); a cancellation looks for drivers to tell after the release and
  finds none (`CancellationTellsNobody`).
- *Margins.* With the seeded or the default configuration the assumptions on lock and counter
  lifetimes hold if and only if due jobs start within 15 seconds (`ConfiguredMargins`). The
  documented lock lifetime of 30 seconds (`docs/ARCHITECTURE.md:751`) is one of several.
- *Overpayment.* Payment amounts have no upper bound (`OverpaymentIsAccepted`). The commission
  due is safe from everything under way if and only if it covers the payments that can still
  succeed (`DuesStaySafeIff`), so a new payment is safe if and only if it fits under the due
  together with them (`StartIsSafeIff`). The percentage has no upper bound either:
  `CommissionWithinPriceIff` says when a commission stays within the price.
- *One-time codes.* At most `max(1, maxAttempts)` wrong codes meet one row in every run if and
  only if the lock lasts longer than the code (`AttemptBoundIff`). The lock sits on the row:
  while it lasts a code of the phone is compared if and only if it meets an open row requested
  meanwhile (`ComparedDuringLockIff`, `LockHoldsUnlessRequested`, `RequestReopens`), so what one
  phone can try in a given time is bounded through the cooldown (`WrongCodesPerPhone`).
- *Refresh.* The old token is revoked before the new one is stored, so a rotation for a missing
  user or with a hash already stored closes the session for good
  (`RotationKeepsOrClosesSession`, `ClosedForGood`).
- *Overlapping zones.* The multiplier is independent of the order in which the store lists the
  zones if and only if all zones around the pickup yield the same one
  (`ZoneOrderIsIrrelevantIff`).

## Model

| member | source | states |
|---|---|---|
| `TripLifecycle.ChangesAreBoundedByRank` | src/modules/trips/interfaces/trip-lifecycle.interface.ts:3-20 | any path along table and stale-sweep edges has at most four changes and never leaves a terminal status |
| `TripLifecycle.TableAllowsIff` | src/modules/trips/interfaces/trip-lifecycle.interface.ts:3-16 | the table allows exactly: one stage further, a client's or driver's cancellation before the ride, the system's only while pending |
| `DispatchSystem.System.ScheduleDispatchTimeout` | src/modules/queue/queue.service.ts:20-30 | adds one job under a new id, due after the delay |
| `DispatchSystem.System.CancelDispatchTimeout` | src/modules/queue/queue.service.ts:32-38 | removes that job if it is there, nothing else |
| `DispatchSystem.System.CancelTimeoutJob` | src/modules/dispatch/dispatch.service.ts:336-343 | the pair's keyed job and its key are gone, all other stores unchanged |
| `DispatchSystem.System.FindNearbyDrivers` | src/modules/geolocation/geolocation.service.ts:58-71 | the in-range drivers, in order, without those engaged on a young active trip |
| `DispatchGuarded.CandidatesAreFree` | src/modules/geolocation/geolocation.service.ts:63-68 | a driver is a candidate if and only if in range and without an active trip created in the last 25 minutes |
| `DispatchSystem.System.NotifyDriver` | src/modules/dispatch/dispatch.service.ts:105-162 | lock, attempt row, fresh job and job key for one driver, the pair's older job cancelled |
| `DispatchSystem.System.NotifyWave` | src/modules/dispatch/dispatch.service.ts:95-177 | the loop over the wave notifies exactly the drivers whose lock was free, in order |
| `DispatchSystem.System.AttemptDispatch` | src/modules/dispatch/dispatch.service.ts:33-183 | rounds counted, wave sent, dispatch failed when there is no candidate or no free lock |
| `DispatchGuarded.WaveNotifies` | src/modules/dispatch/dispatch.service.ts:95-177 | the drivers waiting on the trip after a wave are those waiting before plus exactly those the wave reports, at most one each |
| `DispatchOrder.WaveTakesTheFree` | src/modules/dispatch/dispatch.service.ts:96-103 | of the drivers it is given a wave notifies exactly those whose lock was free, and afterwards all of them are locked |
| `DispatchOrder.NearestFirst` | src/modules/geolocation/geolocation.service.ts:63-71 | when a driver is notified, so is every nearer one without a lock and without a young active trip |
| `DispatchOutcomes.YoungTripIff` | src/modules/geolocation/geolocation.service.ts:63-68 | the trip that excludes a driver is the driver's own, assigned and not over, and was created within 25 minutes |
| `DispatchOutcomes.WaveMembers` | src/modules/geolocation/geolocation.service.ts:63-71 | a wave is given exactly the drivers with no young trip and with fewer than the maximum of such drivers nearer |
| `DispatchOutcomes.WaveOffers` | src/modules/dispatch/dispatch.service.ts:95-177 | of these the ones without a lock get a fresh attempt and a lock of the service's lifetime; nothing else of trip or locks changes |
| `DispatchSystem.System.HandleDriverTimeout` | src/modules/dispatch/dispatch.service.ts:185-196 | attempt timed out, the driver's lock deleted whatever trip it names, key deleted, then the retry check |
| `DispatchSystem.System.CheckAndRetryDispatch` | src/modules/dispatch/dispatch.service.ts:213-252 | nothing while somebody waits or the trip is settled; else a new wave, or failure at the maximum of rounds |
| `DispatchSystem.System.HandleDriverAccept` | src/modules/dispatch/dispatch.service.ts:254-289 | with a matching lock: accepted, the others declined with locks and jobs removed, driver assigned; with any other lock no change |
| `DispatchSystem.System.HandleDriverDecline` | src/modules/dispatch/dispatch.service.ts:291-300 | attempt declined, lock deleted whatever trip it names, job cancelled |
| `DispatchSystem.System.ReleaseLocksForTrip` | src/modules/dispatch/dispatch.service.ts:302-317 | the loop and the bulk write together time out every waiting attempt and drop its lock, job and key |
| `DispatchSystem.System.EmitDispatchFailed` | src/modules/dispatch/dispatch.service.ts:345-350 | counter dropped, a trip still pending becomes cancelled_auto, any other is untouched |
| `DispatchSystem.System.GetPendingRequestForDriver` | src/modules/dispatch/dispatch.service.ts:359-413 | offers the latest notified or timed-out attempt on a pending trip and re-arms it with a lock and no job; otherwise no change |
| `DispatchSystem.System.FindLatestRequest` | src/modules/dispatch/dispatch.service.ts:369-391 | returns none only if there is no such attempt, else one that no other is later than |
| `DispatchSystem.System.UpdateStatusIfPending` | src/modules/trips/trip.repository.ts:220-234 | writes the status exactly if the trip is pending and counts the rows written |
| `DispatchSystem.System.AssignDriver` | src/modules/trips/trip.repository.ts:236-246 | driver and accepted are written to that row only |
| `DispatchSystem.System.CreateTrip` | src/modules/trips/trips.service.ts:50-118 | the new pending row, then the dispatch that its creation event starts |
| `DispatchSystem.System.UpdateStatus` | src/modules/trips/trips.service.ts:137-219 | refused in the order of the checks, else the handler calls and the row write of the requested status |
| `DispatchSystem.System.DeclineTrip` | src/modules/trips/trips.service.ts:419-434 | refused without an active attempt, else decline and retry |
| `DispatchSystem.System.HandleWsDriverDecline` | src/modules/dispatch/handlers/ws-driver-decline.handler.ts:17-20 | decline and retry without any check |
| `DispatchSystem.System.ProcessJob` | src/modules/queue/processors/dispatch/dispatch-timeout.processor.ts:19-23 | the due job is consumed and its timeout handled |
| `DispatchSystem.System.LoseJob` | src/modules/dispatch/dispatch-recovery.service.ts:20-23 | a job the queue loses is gone, and nothing else changes |
| `DispatchSystem.System.CompleteTrip` | src/modules/trips/trips.service.ts:463-502 | completes a trip in progress for its driver, else the error of the first failing check and no change |
| `DispatchSystem.System.ConfirmPaymentReceived` | src/modules/trips/trips.service.ts:442-461 | same checks; the status stays, only the row's update time moves |
| `DispatchSystem.System.Run` | src/modules/dispatch/dispatch-recovery.service.ts:135-197 | the sweep over the pending trips, oldest first: skipped, failed or dispatched again by age |
| `DispatchSystem.System.FindPending` | src/modules/dispatch/dispatch-recovery.service.ts:145-149 | every pending trip once, ascending by creation |
| `DispatchSystem.System.SweepStaleAssigned` | src/modules/dispatch/dispatch-recovery.service.ts:90-128 | every accepted or arriving trip untouched for 45 minutes is cancelled and its locks released, no other |
| `DispatchSystem.System.AdvanceClock` | src/modules/dispatch/dispatch.service.ts:40-41 | counters, locks and keys whose time to live is over are gone, nothing else changes |
| `DispatchSafety.TimeoutIsDrop` | src/modules/dispatch/dispatch.service.ts:185-196 | in punctual runs a firing job is always the one its pair's key names: timing out is the same drop as declining, with another status |
| `DispatchConsistency.StepIsSound` | src/modules/dispatch/dispatch.service.ts:185-317 | every step of every handler, jobs late or lost included, keeps locks backed by waiting attempts and drivers agreeing with accepted attempts, moves rows forward only and writes only legal edges |
| `DispatchSafety.StepIsSafe` | src/modules/dispatch/dispatch.service.ts:138-153 | every punctual step keeps jobs, job keys and waiting attempts backing one another, as long as keys outlive jobs |
| `DispatchRuns.LocksNameNotifiedAttempts` | src/modules/dispatch/dispatch.service.ts:188-194 | in every run a live lock belongs to a waiting attempt on the trip it names |
| `DispatchRuns.JobsNameNotifiedAttempts` | src/modules/dispatch/dispatch.service.ts:138-153 | in punctual runs so does a live job; a pair has at most one, and its key is exactly that job |
| `DispatchRuns.AcceptanceIsForGood` | src/modules/trips/trips.service.ts:147-163 | at most one attempt per trip is ever accepted, for good, and the trip belongs to that driver in every later state |
| `DispatchRuns.DriverIsWrittenOnce` | src/modules/trips/trip.repository.ts:236-246 | the driver column is empty while pending and never changes afterwards |
| `DispatchRuns.PendingIsNeverCancelledByDriver` | src/modules/trips/trips.service.ts:194-202 | the table allows the edge, every reachable state refuses it |
| `DispatchRuns.StatusesFormAPath` | src/modules/trips/trips.service.ts:137-219 | the statuses of a trip over any run follow the table plus the two stale-sweep edges |
| `DispatchRequests.RequestIsGrantedIff` | src/modules/trips/trips.service.ts:137-210 | a status request is granted if and only if the table has the edge and the caller is the trip's driver (stages, driver's cancellation), a driver whose own attempt waits (accept), a client account or the trip's client (client's cancellation), anybody (automatic); which error otherwise, and a refusal changes nothing |
| `DispatchRequests.GrantedRequestWrites` | src/modules/trips/trips.service.ts:161-212 | a granted request writes status and update time, and the driver on an accept, on that row only |
| `DispatchRequests.GrantedRequestEndsWaits` | src/modules/dispatch/dispatch.service.ts:254-317 | what it does to each attempt: cancellations time the waiting ones out, an accept with its lock accepts its own and declines the others, nothing else |
| `DispatchRequests.DriverRequestIsGrantedIff` | src/modules/trips/trips.service.ts:442-502 | completing and confirming cash are granted exactly to the trip's own driver while it is under way, and write that row only |
| `DispatchRequests.StatusesAreRequested` | src/modules/trips/trips.service.ts:137-219 | in every run each status other than cancelled_auto was asked for, in the step that wrote it, by somebody entitled to it |
| `DispatchRequests.RearmedAcceptReleasesIff` | src/modules/dispatch/dispatch.service.ts:402-413 | a re-armed driver may accept a pending trip at any time; the accept releases the other drivers if and only if it comes within 75 seconds |
| `DispatchRuns.AtMostFourChanges` | src/modules/trips/interfaces/trip-lifecycle.interface.ts:3-12 | in any run a trip changes status at most four times and terminal statuses absorb |
| `DispatchRuns.SettledTripsOnlyQuieten` | src/modules/dispatch/dispatch.service.ts:219-222 | the waiting attempts of a trip that is not pending only become fewer, over any stretch of any run |
| `DispatchRuns.SettledForGood` | src/modules/trips/trips.service.ts:185-209 | in every run, after a matching accept or a cancellation no lock and no waiting attempt names the trip, now or later |
| `DispatchRuns.SettledWithoutJobs` | src/modules/trips/trips.service.ts:185-209 | in punctual runs no job and no job key names it either |
| `DispatchRuns.AcceptReleasesIffLockMatches` | src/modules/dispatch/dispatch.service.ts:254-261 | in every consistent state an allowed accept assigns the trip, and leaves it without locks and waiting attempts if and only if the lock matched |
| `DispatchRuns.AcceptQuietensIffLockMatches` | src/modules/dispatch/dispatch.service.ts:254-261 | in safe states no job and no job key is left either, again if and only if the lock matched |
| `DispatchRecovery.SweepFocus` | src/modules/dispatch/dispatch-recovery.service.ts:169-196 | a whole sweep does to one trip what its own loop body does, wherever it comes in the list |
| `DispatchSweeps.SweepDecides` | src/modules/dispatch/dispatch-recovery.service.ts:169-196 | what a sweep leaves of each pending trip: untouched under 90 s (periodic), cancelled past 120 s; else its waits end and it is offered to exactly the drivers of its wave that are free at its turn, or cancelled |
| `DispatchSweeps.SweepCancelsIff` | src/modules/dispatch/dispatch-recovery.service.ts:167-192 | a sweep cancels a pending trip if and only if it is older than 120 s, or due and without coordinates or a free driver; any other due trip waits on somebody afterwards; other trips are untouched |
| `DispatchSweeps.StaleSweepDecides` | src/modules/dispatch/dispatch-recovery.service.ts:90-128 | the stale sweep cancels exactly the accepted and arriving trips untouched for 45 minutes, and times out what still waited on them |
| `DispatchRecovery.RoundsAreBounded` | src/modules/dispatch/dispatch.service.ts:230-241 | waves counted for a trip never exceed the maximum plus its re-dispatches by the sweep |
| `DispatchRecovery.AtMostTwoRedispatches` | src/modules/dispatch/dispatch-recovery.service.ts:167-192 | periodic sweeps at least 30 s apart dispatch one trip again at most twice |
| `DispatchRecovery.SweepCullsOldTrips` | src/modules/dispatch/dispatch-recovery.service.ts:174-180 | whatever is pending after a sweep is at most two minutes old |
| `DispatchRecovery.NoTripStaysPending` | src/modules/dispatch/dispatch-recovery.service.ts:12-32 | in every run, jobs late or lost and downtime included, a pending trip is at most 120 s older than the last sweep; so when a sweep ended within 30 s nothing is pending past 150 s |
| `DispatchGuarded.StepKeepsInvariant` | src/modules/dispatch/dispatch.service.ts:95-177 | every guarded, punctual step keeps the joint invariant of locks, jobs, free drivers and waiting trips |
| `DispatchHarmless.StepKeepsInvariantIff` | src/modules/dispatch/dispatch.service.ts:291-413 | a possible step of any kind keeps the joint invariant if and only if it is harmless: no decline of a foreign lock, no re-arm without a job that ends in time, no job late or lost |
| `DispatchHarmless.RunKeepsInvariantIff` | src/modules/dispatch/dispatch.service.ts:95-413 | of all runs exactly the harmless ones, guarded ones among them, keep the joint invariant in every state |
| `DispatchHarmless.AttemptLockAndJobAgree` | src/modules/dispatch/dispatch.service.ts:95-177 | in harmless runs: waiting attempt if and only if the lock names the trip, if and only if one live keyed job exists |
| `DispatchHarmless.NoDriverHasTwoYoungTrips` | src/modules/geolocation/geolocation.service.ts:58-68 | in harmless runs two active trips of one driver, both under 25 minutes old, are the same trip |
| `DispatchBooking.AcceptKeepsOneYoungTripIff` | src/modules/trips/trips.service.ts:147-163 | from any consistent state with at most one young trip per driver an allowed accept keeps it so if and only if the trip is no longer young or the driver has no young trip |
| `DispatchBooking.RunHasOneYoungTripIff` | src/modules/trips/trips.service.ts:147-163 | in every run no driver ever has two young active trips, if and only if no accept of a young trip was allowed to a driver who had one |
| `DispatchHarmless.PendingTripHasLiveJob` | src/modules/dispatch/dispatch.service.ts:224-250 | in harmless runs a pending trip always has a waiting driver with a live job that is not overdue |
| `DispatchHarmless.AcceptAlwaysHoldsLock` | src/modules/dispatch/dispatch.service.ts:258-261 | in harmless runs the early return on a lock mismatch is never taken |
| `DispatchWaves.AnswerLowersMeasure` | src/modules/dispatch/dispatch.service.ts:185-250 | in every consistent state each decline, checked or not, and each job, late or not, of an attempt that waits on a pending trip lowers (max - rounds, waiting drivers) or settles the trip |
| `DispatchOutcomes.AnswerDecides` | src/modules/dispatch/dispatch.service.ts:185-300 | what any handled answer leaves of row, counter, attempts and locks: its own wait ends and its lock goes; with nobody left waiting the trip is offered to the free drivers of the next wave, or cancelled when the counter is at the maximum or nobody is free |
| `DispatchOutcomes.LastAnswerGoesOnIff` | src/modules/dispatch/dispatch.service.ts:224-250 | after the last waiting driver's decline or timeout the trip stays pending, with somebody waiting, if and only if the counter is below the maximum and a near enough driver has no young trip and no lock; otherwise it is cancelled_auto |
| `DispatchOutcomes.UnaskedDeclineIsRefused` | src/modules/trips/trips.service.ts:419-427 | a REST decline without an active attempt changes nothing |
| `DispatchOutcomes.CreationDecides` | src/modules/trips/trips.service.ts:50-118 | a new trip is pending and offered to the free drivers of its first wave, or cancelled when there are none |
| `DispatchArming.NewlyAskedIsArmed` | src/modules/dispatch/dispatch.service.ts:138-153 | in every run whoever a step other than a re-arm makes wait has a job due exactly after the service's timeout and a key that names it, whatever late or lost jobs left behind |
| `DispatchArming.ClockDisarmsIff` | src/modules/dispatch/dispatch.service.ts:148-153 | time alone disarms a pair exactly when its key expires, and leaves the queue as it is |
| `DispatchWaves.TallyHoldsInRun` | src/modules/dispatch/dispatch.service.ts:33-43 | in every run: answers and waiting drivers together are at most the notices and revived timeouts, notices at most waves x max; a pending trip's counter is the number of its waves if and only if it has never lapsed |
| `DispatchWaves.WavesAreBounded` | src/modules/dispatch/dispatch.service.ts:213-252 | in every run the waves of a trip are at most (lapses + 1) x max(1, maximum) plus the sweeps' re-dispatches, and answers and notices are bounded by them |
| `DispatchWaves.NoCounterLapses` | src/modules/dispatch/dispatch.service.ts:40-41 | in every run whose clock stays within 58 minutes of the last sweep no counter of a pending trip expires |
| `DispatchWaves.DispatchTerminates` | src/modules/dispatch/dispatch.service.ts:230-241 | in those runs the counter is the number of waves, and these are at most max(1, maximum) plus the sweeps' re-dispatches |
| `DispatchWitnesses.LapseSendsAnotherWave` | src/modules/dispatch/dispatch.service.ts:40-41 | a run without sweeps for an hour: the counter lapses and a late job sends a second wave where the maximum is one |
| `DispatchProgress.HarmlessRunNeverLapses` | src/modules/dispatch/dispatch.service.ts:40-41 | in harmless runs no counter of a pending trip expires and no timeout is revived, sweeps or not |
| `DispatchProgress.HarmlessDispatchIsInTime` | src/modules/dispatch/dispatch.service.ts:213-252 | in harmless runs a pending trip is no older than max(1, maximum) plus re-dispatches waves can last, each of timeout plus slack |
| `DispatchLimits.ConfiguredMargins` | prisma/seed-service-config.ts:15-60 | seeded and default settings satisfy the margin assumptions if and only if jobs start within 15 s |
| `DispatchHarmless.WsDeclineAgreesIff` | src/modules/dispatch/handlers/ws-driver-decline.handler.ts:17-20 | an unchecked decline keeps attempts, locks and jobs in agreement if and only if it hits no foreign lock |
| `DispatchHarmless.RearmAgreesIff` | src/modules/dispatch/dispatch.service.ts:402-413 | a re-arm keeps the agreement if and only if the attempt still waited and its job ends before the new lock |
| `DispatchWitnesses.UncheckedDeclineGivesTwoTrips` | src/modules/dispatch/dispatch.service.ts:291-300 | a five-step punctual run with an unchecked decline that gives one driver two young active trips |
| `DispatchWitnesses.RearmBreaksAgreement` | src/modules/dispatch/dispatch.service.ts:402-413 | a four-step punctual run of the seeded configuration whose re-arm leaves a waiting attempt without a job |
| `DispatchWitnesses.RearmGivesTwoTrips` | src/modules/dispatch/dispatch.service.ts:402-413 | that run goes on, without any unchecked decline, until one driver has two young active trips |
| `DispatchWitnesses.GivenUpTripIsStillAwaited` | src/modules/dispatch/dispatch-recovery.service.ts:176-180 | a run with downtime in which the boot sweep gives up a trip while its driver still waits and its job is still queued |
| `DispatchWitnesses.StaleEdgesAreReached` | src/modules/dispatch/dispatch-recovery.service.ts:94-111 | runs that write accepted to cancelled_auto and driver_arriving to cancelled_auto, neither of which is in the table |
| `DispatchLimits.RacingAcceptsAgreeIff` | src/modules/trips/trips.service.ts:147-219 | two accepts that both passed their checks, in each order of their handlers' and callers' writes: row and accepted attempt agree if and only if the drivers are the same or the locks make the last writer the accepted one |
| `DispatchLimits.RacingAcceptsDisagree` | src/modules/trips/trips.service.ts:147-219 | where attempts and locks agree, and the second accept writes last, they agree if and only if both are the same driver |
| `DispatchLimits.AgedFailureReleasesNothing` | src/modules/dispatch/dispatch-recovery.service.ts:176-180 | in every consistent state failing an aged trip touches no attempt, lock, job or key; no lock and no waiting attempt is left if and only if nobody waited |
| `DispatchLimits.AgedFailureQuietensIff` | src/modules/dispatch/dispatch-recovery.service.ts:176-180 | in safe states no job and no key is left either, if and only if nobody waited |
| `DispatchLimits.CancellationTellsNobody` | src/modules/trips/trips.service.ts:190-191 | the drivers looked up after the release are none |
| `LedgerSystem.MoneyServices.HandleTripCompleted` | src/modules/commissions/commissions.service.ts:19-52 | the handler's writes are those of the completion function, nothing else |
| `LedgerSystem.MoneyServices.MarkCommissionPaid` | src/modules/commissions/commissions.service.ts:56-62 | what is due drops by the amount, the balance stays |
| `LedgerSystem.MoneyServices.HandleTrips` | src/modules/trips/trips.service.ts:321-325 | a completing step writes the final price and runs the handler, a creating one the estimate, any other no money |
| `LedgerSystem.MoneyServices.StartPayment` | src/modules/payments/payments.service.ts:32-47 | refused below the smallest amount or without a profile, else a pending row without tokens whose initiation is in flight |
| `LedgerSystem.MoneyServices.RecordPayment` | src/modules/payments/payments.service.ts:49-69 | tokens and status are stored unless a token collides; a synchronous success is reconciled |
| `LedgerSystem.MoneyServices.FindPayment` | src/modules/payments/payments.service.ts:90-111 | finds by token, else by reference, else by order id, and none only if all three fail |
| `LedgerSystem.MoneyServices.HandleWebhook` | src/modules/payments/payments.service.ts:83-151 | ignored when invalid, unmatched or already succeeded; else the status is written and a success reconciled |
| `LedgerSystem.MoneyServices.CheckPaymentStatus` | src/modules/payments/payments.service.ts:155-210 | hidden from others, terminal rows untouched, else the provider's final status is written and a success reconciled |
| `LedgerSystem.MoneyServices.ApplyPaymentSuccess` | src/modules/payments/payments.service.ts:213-232 | the payment is marked and its amount taken off what its driver owes |
| `LedgerReports.StatusChangesIff` | src/modules/payments/payments.service.ts:49-131 | a payment's status changes to x if and only if the event carries the provider's word for x: a final answer to its initiation without collision, a valid webhook matched to it before it succeeded (success and expiry as reported, failure otherwise), or its own driver's poll of an unsettled row with both ids; driver and amount never change |
| `LedgerReports.SucceededIffReported` | src/modules/payments/payments.service.ts:120-149 | in every history a payment is succeeded if and only if some event has reported its success |
| `LedgerReports.PaymentIsAddedIff` | src/modules/payments/payments.service.ts:32-40 | a payment row is added, pending and without ids, exactly by a driver's start of 100 or more |
| `LedgerReports.SuccessMovesMoney` | src/modules/payments/payments.service.ts:142-149 | a payment that becomes succeeded is marked once and takes its amount off its own driver's due |
| `LedgerReports.NoSuccessMovesNothing` | src/modules/payments/payments.service.ts:213-232 | a payment event after which no further payment is succeeded moves no money |
| `LedgerReports.RepliesTellTheRow` | src/modules/payments/payments.service.ts:150-210 | webhook and poll answer with the status stored afterwards, the poll only to the payment's own driver |
| `LedgerRuns.CompletionIsEmittedOnce` | src/modules/trips/trips.service.ts:321-325 | a step emits the completion event for exactly the trip that it turns completed, which was in progress and has a driver |
| `LedgerRuns.InProgressIsKept` | src/modules/dispatch/dispatch-recovery.service.ts:38-40 | no step but the completing request takes a trip out of in_progress, the sweeps included |
| `LedgerRuns.CompletionAddsEarnings` | src/modules/commissions/commissions.service.ts:29-47 | a completion adds its price and its commission once to its driver's sums |
| `LedgerRuns.Conservation` | src/modules/commissions/commissions.service.ts:19-62 | balance + due + succeeded payments = final prices of the driver's completed trips; due = commissions - succeeded payments |
| `LedgerRuns.EachSuccessIsMarkedOnce` | src/modules/payments/payments.service.ts:120-149 | the commission service is told once of every payment that succeeded and of no other; tokens stay unique |
| `LedgerRuns.SuccessIsFinal` | src/modules/payments/payments.service.ts:120-124 | a succeeded payment never changes, and no webhook or poll on it changes anything in any later state |
| `LedgerRuns.InFlightIsOutOfReach` | src/modules/payments/payments.service.ts:38-64 | before its tokens are recorded no webhook lookup finds a payment and no poll moves it |
| `LedgerRuns.StrandedForGood` | src/modules/payments/payments.service.ts:42-64 | a payment whose initiation failed or collided never settles and never draws the commission down |
| `LedgerRuns.CompletionMoneyIsFinal` | src/modules/trips/trips.service.ts:484-498 | final price, commission and driver of a completed trip are the same in every later state |
| `LedgerRuns.HistoryOnlyMovesForward` | src/modules/payments/payments.service.ts:120-149 | any later state of the books keeps drivers, amounts, recorded tokens, successes and completed trips of any earlier one |
| `LedgerRuns.SuccessOverdrawsIff` | src/modules/payments/payments.service.ts:142-149 | a success lowers its driver's due by its amount, below zero when that exceeds it, and touches no other account |
| `LedgerCover.FittingPaymentsNeverOverdraw` | src/modules/payments/payments.service.ts:32-40 | if each payment, with the driver's payments that can still succeed, is within the due when it is started, no due is ever negative, whatever trips, webhooks and polls follow |
| `LedgerCover.EventKeepsCover` | src/modules/payments/payments.service.ts:90-149 | no completion, record, webhook or poll, and no start that fits, makes a due fall below the payments that can still succeed |
| `LedgerOverdraft.DuesStaySafeIff` | src/modules/payments/payments.service.ts:120-149 | after any history no continuation without a new payment makes a due negative, if and only if every due covers its driver's payments that can still succeed |
| `LedgerOverdraft.StartIsSafeIff` | src/modules/payments/payments.service.ts:32-40 | starting a payment leaves the dues safe if and only if its amount and the driver's open payments are together at most the due |
| `LedgerOverdraft.OverpaymentIsAccepted` | src/modules/payments/dto/pay-commission.dto.ts:5-8 | a driver who owes nothing can start any amount from 100 FCFA up, and once its webhook has confirmed it the due is minus that amount |
| `LedgerRuns.EarningsAreNotNegative` | src/modules/commissions/commissions.service.ts:42-44 | with whole prices and percentages up to 100 no balance is ever negative |
| `Rounding.RoundIsNearest` | src/modules/pricing/rules/base-fare.rule.ts:27-27 | rounding yields the one whole number within a half, the upper one on a tie |
| `Pricing.PricingEngine.constructor` | src/modules/pricing/pricing-engine.service.ts:16-22 | base fare and surge are registered, in that order |
| `Pricing.PricingEngine.RegisterRule` | src/modules/pricing/pricing-engine.service.ts:24-28 | push, then stable sort of the whole list |
| `Pricing.PricingEngine.Calculate` | src/modules/pricing/pricing-engine.service.ts:30-56 | the loop applies every applicable rule of the registry in order and takes the commission of the total |
| `PricingLaws.SortFacts` | src/modules/pricing/pricing-engine.service.ts:26-26 | the sort yields a priority-sorted permutation with ties in order |
| `PricingLaws.RegistryIsSorted` | src/modules/pricing/pricing-engine.service.ts:24-28 | after any registrations the list is a priority-sorted permutation of them, ties in order of registration |
| `PricingLaws.RegistriesAgreeIff` | src/modules/pricing/pricing-engine.service.ts:24-28 | two registration orders give the same list if and only if they order equal priorities alike |
| `PricingLaws.OrderOfRegistrationIsIrrelevant` | src/modules/pricing/pricing-engine.service.ts:30-45 | with distinct priorities the quote does not depend on the order of registration |
| `PricingLaws.BuiltInPrice` | src/modules/pricing/rules/surge-multiplier.rule.ts:15-26 | the built-in engine rounds the fare, multiplies, rounds again; skipping a multiplier of 1 makes no difference |
| `PricingLaws.PriceError` | src/modules/pricing/rules/base-fare.rule.ts:14-29 | the price is a whole number within surge/2 + 1/2 of the exact one |
| `PricingLaws.PriceIsMonotone` | src/modules/pricing/rules/base-fare.rule.ts:14-29 | raising any input never lowers the price, in spite of the two roundings |
| `PricingLaws.CommissionsAgree` | src/modules/dispatch/dispatch.service.ts:74-76 | quoted, offered and charged commission are equal and lie between nothing and the price |
| `PricingLaws.CommissionIsNearest` | src/modules/commissions/commissions.service.ts:31-31 | the commission is the whole number nearest to that percentage of the price, halves up |
| `PricingLaws.CommissionIsAShare` | src/modules/commissions/commissions.service.ts:31-31 | for a whole price and 0 to 100 percent the commission lies between nothing and the price |
| `PricingLaws.RoundedCommissionCanExceedPrice` | src/modules/commissions/commissions.service.ts:31-31 | the price must be whole: 100 percent of 0.60 rounds to a commission of 1 |
| `PricingLaws.CommissionWithinPriceIff` | src/modules/vehicle-types/dto/create-vehicle-type.dto.ts:39-43 | for any percentage, the commission of a whole price stays within it exactly while the exact share is below price + 1/2 |
| `Surge.ComputeIsMultiplier` | src/modules/pricing/dynamic-pricing.service.ts:62-87 | for any listings the loop yields the surge of an active zone around the pickup times the product over the set of applicable active rules, to hundredths |
| `Surge.AccumulateIsProduct` | src/modules/pricing/dynamic-pricing.service.ts:75-81 | the running multiplier is the start times the product over the set of applicable rules |
| `Surge.RuleCountsIff` | src/modules/pricing/dynamic-pricing.service.ts:75-111 | one more rule multiplies by its modifier if and only if it names no other service or vehicle type and its condition names the matched zone or a range around the minute |
| `Surge.ZoneAlone` | src/modules/pricing/dynamic-pricing.service.ts:64-72 | without rules the multiplier is the surge of a zone around the pickup, or 1 when there is none |
| `Surge.HundredthsIsNearest` | src/modules/pricing/dynamic-pricing.service.ts:86-86 | the multiplier is rounded to the nearest hundredth, halves up |
| `Surge.RuleOrderIsIrrelevant` | src/modules/pricing/dynamic-pricing.service.ts:30-33 | permuting the rules changes nothing |
| `Surge.ZoneOrderIsIrrelevantIff` | src/modules/pricing/dynamic-pricing.service.ts:67-72 | all orders of the zones agree if and only if all zones around the pickup give the same multiplier |
| `Surge.RangeMatchesIff` | src/modules/pricing/dynamic-pricing.service.ts:98-109 | a range of times matches some minute of the day if and only if it starts before it ends; one across midnight loses every minute from its start on and up to its end |
| `Surge.DynamicPricing.LoadData` | src/modules/pricing/dynamic-pricing.service.ts:24-53 | younger than 60 s the cache is served as it is, else it is loaded from the store; both list the store as it is now |
| `Surge.DynamicPricing.InvalidateCache` | src/modules/pricing/dynamic-pricing.service.ts:56-58 | the cache is empty |
| `Surge.DynamicPricing.GetSurgeMultiplier` | src/modules/pricing/dynamic-pricing.service.ts:62-87 | after any admin writes and quotes the answer, cached or not, is the one computed from the stored active zones and rules |
| `Surge.DynamicPricing.CreateZone` | src/modules/admin/admin-pricing.controller.ts:33-37 | the row is added and a valid cache stays valid |
| `Surge.DynamicPricing.UpdateZone` | src/modules/admin/admin-pricing.controller.ts:41-45 | the row is replaced, or nothing changes when it is missing; the cache never goes stale |
| `Surge.DynamicPricing.DeleteZone` | src/modules/admin/admin-pricing.controller.ts:49-53 | the row is gone and rules lose the reference to it; the cache never goes stale |
| `Surge.DynamicPricing.CreatePricingRule` | src/modules/admin/admin-pricing.controller.ts:69-84 | the row is added and a valid cache stays valid |
| `Surge.DynamicPricing.UpdatePricingRule` | src/modules/admin/admin-pricing.controller.ts:88-107 | the row is replaced, or nothing changes when it is missing; the cache never goes stale |
| `Surge.DynamicPricing.DeletePricingRule` | src/modules/admin/admin-pricing.controller.ts:111-115 | the row is gone; the cache never goes stale |
| `OtpSystem.OtpService.FindLatest` | src/modules/auth/auth.service.ts:60-63 | a row of the phone that no other is more recent than, or none if there is none |
| `OtpSystem.OtpService.RequestOtp` | src/modules/auth/auth.service.ts:56-108 | refused within the cooldown; else a new row, which stays only if the message was not rejected |
| `OtpSystem.OtpService.VerifyOtp` | src/modules/auth/auth.service.ts:134-183 | the verdict on the latest unconsumed row, with the attempt, lock or consumption that goes with it |
| `OtpCodes.RequestDecides` | src/modules/auth/auth.service.ts:60-108 | the code sent is stored, with a full life and no attempts, if and only if none of the phone is younger than the cooldown and the message was not rejected |
| `OtpCodes.VerifyDecides` | src/modules/auth/auth.service.ts:146-181 | a row is consumed if and only if the right code meets it while it is neither locked nor expired, earlier wrong codes or not; its attempts rise, and at the limit the lock is set, if and only if a wrong one does; nothing else changes |
| `OtpCodes.VerdictTellsTheCode` | src/modules/auth/auth.service.ts:146-183 | a login is granted exactly for the right code, a wrong code counted exactly for another, locked and expired told exactly then |
| `OtpCodes.ConsumedIffRightCode` | src/modules/auth/auth.service.ts:156-181 | in every run a row has granted its login if and only if the right code has met it open |
| `Otp.RunIsCounted` | src/modules/auth/auth.service.ts:158-181 | in every run a row's counter is the number of wrong codes compared with it, and it is consumed exactly by a login |
| `Otp.AtMostOneLogin` | src/modules/auth/auth.service.ts:178-181 | one code grants at most one login, in any run and configuration |
| `Otp.ExhaustedIsClosed` | src/modules/auth/auth.service.ts:146-154 | while the lock outlasts the code, no code is compared with a row at its limit |
| `Otp.AttemptBoundIff` | src/modules/auth/auth.service.ts:146-170 | all runs keep the bound on wrong codes per row if and only if the lock lasts longer than the code |
| `Otp.ShortLockReopens` | src/modules/auth/auth.service.ts:134-135 | for every shorter lock, a run in which one more code is compared |
| `Otp.CodesAreSpaced` | src/modules/auth/auth.service.ts:60-72 | two codes for one phone are at least the cooldown apart in every run |
| `OtpPhones.LatestIsOnly` | src/modules/auth/auth.service.ts:66-72 | with a cooldown the phone's latest row is more recent than any other, so the lookup has no choice |
| `OtpPhones.ComparedDuringLockIff` | src/modules/auth/auth.service.ts:137-158 | until a phone's latest row is unlocked again, a code sent for the phone is compared if and only if the row found was requested meanwhile and is itself neither locked nor expired |
| `OtpPhones.LockHoldsUnlessRequested` | src/modules/auth/auth.service.ts:146-150 | without a request in between every code of the phone is refused as locked until the lock ends |
| `OtpPhones.RequestReopens` | src/modules/auth/auth.service.ts:60-86 | a request, whatever is locked, makes the new row the latest and comparable at once, if and only if the cooldown is over and the message was not rejected |
| `OtpPhones.WrongCodesPerPhone` | src/modules/auth/auth.service.ts:60-72 | in every run the wrong codes compared for one phone over any time are at most the limit per code times (time + code lifetime) / cooldown + 1, while the lock outlasts the code |
| `RefreshTokensSystem.TokenService.IssueTokenPair` | src/modules/auth/auth.service.ts:284-320 | refused when the hash is taken, else the new row points back and the replaced row forward |
| `RefreshTokensSystem.TokenService.Rotate` | src/modules/auth/auth.service.ts:248-273 | refused when unknown, revoked or expired; else revoked first and then replaced, or left revoked on a failure |
| `RefreshTokensSystem.TokenService.LogOut` | src/modules/auth/auth.service.ts:275-282 | revokes that user's token with that hash, nothing else |
| `RefreshRevocation.RefreshIsAcceptedIff` | src/modules/auth/auth.service.ts:248-263 | a refresh is let in if and only if the signature is right and a stored token with that hash is unexpired and not revoked; otherwise nothing changes |
| `RefreshRevocation.IssuedTokenIsGood` | src/modules/auth/auth.service.ts:284-320 | what a login or refresh issues is good, and has the new value, the user and the lifetime asked for |
| `RefreshRevocation.LogoutRevokes` | src/modules/auth/auth.service.ts:275-282 | a logout revokes the user's own token with that hash and leaves every other as it is |
| `RefreshRevocation.RevokedIff` | src/modules/auth/auth.service.ts:259-282 | in every run a token is revoked if and only if a refresh with it was accepted or its own user logged it out, and is never let in again |
| `RefreshTokens.SessionsAreChains` | src/modules/auth/auth.service.ts:265-272 | every token of a session but the last is revoked and names its successor, the last points back, at most one is live |
| `RefreshTokens.SuccessorsDiffer` | src/modules/auth/auth.service.ts:312-317 | no two tokens are replaced by the same one |
| `RefreshTokens.NoValueIsAcceptedTwice` | src/modules/auth/auth.service.ts:259-269 | over any run each token value is accepted at most once |
| `RefreshTokens.RotationKeepsOrClosesSession` | src/modules/auth/auth.service.ts:265-272 | an accepted refresh leaves the new token live and linked if the user exists and the new hash is not stored, and the session without any live token otherwise |
| `RefreshTokens.ClosedForGood` | src/modules/auth/auth.service.ts:261-263 | a session without a live token never has one again |

## Left out

- Interleaving inside one handler: every handler, webhook, poll and sweep is one step; only the initiation of a payment is split in two, and two racing accepts are shown apart.
- `DispatchSystem.System.Run`: the flag that keeps periodic sweeps from overlapping has no effect on atomic sweeps; the boot-time delay is not modelled.
- `DispatchSystem.System.FindNearbyDrivers`: distance, radius, online state and vehicle filters are an input, the ordered answer of the position query; only the exclusion of engaged drivers is computed.
- `DispatchSystem.System.AdvanceClock`: Redis entries expire when the clock moves; jobs may be late or lost, but the loss of Redis entries before they expire is not a step.
- `DispatchSystem.System.AttemptDispatch`: the dispatch configuration of a service is constant over a run; the service re-reads it through a cache of 60 seconds, so an administrator could change it during one.
- `DispatchSystem.System.ConfirmPaymentReceived`: the time and amount of the cash payment are not in the modelled row.
- `DispatchSystem.System.SweepStaleAssigned`: confirming a delivery and reporting an issue with one (src/modules/trips/trips.service.ts:550-592) also write the trip row and are not steps; they leave its status alone, but a report moves the update time, so on an accepted delivery it postpones this sweep.
- `DispatchSystem.System.CreateTrip`: details, stops, price and payment method of a trip are not in its row; trip ids are fresh.
- `DispatchSystem.System.GetPendingRequestForDriver`: the payload returned to the driver is reduced to the trip; a failing re-arm write is not modelled.
- `LedgerSystem.MoneyServices.HandleTrips`: the vehicle type is not looked up; the percentage in force is an input of each completing step, so an administrator may change it at any time.
- `LedgerSystem.MoneyServices.FindPayment`: the store may return any row with the token, since tokens are not unique; reference and order id are.
- `Otp.AtMostOneLogin`: the account lookup after a valid code, which may still refuse an inactive account, comes after the row is consumed and is not modelled.
- `RefreshTokensSystem.TokenService.Rotate`: signing and hashing are abstract; a signature check is an input and a token value stands for its hash. Deleting a user is not modelled: it deletes the user's tokens too, so a stored token without its user is only met in a race with the deletion. A hash already stored is the input that occurs: two tokens of one user signed in the same second are the same.
- `Surge.DynamicPricing.UpdateZone`: the partial patch is applied by the caller, who passes the whole new row; the same holds for rules.
- Money and prices are exact decimals: the binary floating point of the runtime and the two-decimal columns are not modelled.
- Haversine trigonometry: whether a zone contains a point is an arbitrary predicate.
- Condition times are parsed minutes; a malformed time is treated like a missing one, both never match.
- One-time codes through JulakAI, and the contents of messages, notifications, broadcasts and events without a handler in the model.
- The idempotency interceptor: it deletes its lock after caching, so a later duplicate runs again and only mutual exclusion would remain.
- Presence, grace timers and the block on drivers who owe more than 50,000 FCFA: presence writes the online flag without that check.
- Response times of attempts, ratings, chat, statistics, devices, charging stations, vehicle types and users: stored data or single checks.
