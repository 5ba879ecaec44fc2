/**
 Theorems about every history of the ledger: conservation per driver, one commission per
 completed trip, and one reconciliation per payment that succeeds, whatever the order and
 repetition of completions, webhooks and polls.
 */
module LedgerRuns {
  import opened Prelude
  import opened TripLifecycle
  import opened DispatchModel
  import opened DispatchConsistency
  import opened Rounding
  import opened Ledger
  import PricingLaws

  // ---------------------------------------------------------------------- sums

  ghost function Total(m: map<TripId, real>): real
    decreases |m|
  {
    if m == map[] then 0.0
    else
      var t :| t in m;
      m[t] + Total(m - {t})
  }

  /** The order of summation does not matter. */
  lemma {:induction false} TotalMinus(m: map<TripId, real>, t: TripId)
    requires t in m
    ensures Total(m) == m[t] + Total(m - {t})
    decreases |m|
  {
    var u :| u in m && Total(m) == m[u] + Total(m - {u});
    if u != t {
      TotalMinus(m - {u}, t);
      TotalMinus(m - {t}, u);
      assert m - {u} - {t} == m - {t} - {u};
    }
  }

  lemma TotalPlus(m: map<TripId, real>, t: TripId, x: real)
    requires t !in m
    ensures Total(m[t := x]) == Total(m) + x
  {
    TotalMinus(m[t := x], t);
    assert m[t := x] - {t} == m;
  }

  predicate Earned(trips: map<TripId, Trip>, money: map<TripId, TripMoney>, t: TripId, d: DriverId) {
    t in trips && t in money && trips[t].status == Completed && trips[t].driver == Some(d) &&
    money[t].finalPrice.Some? && money[t].commission.Some?
  }

  /** Final price and commission of each completed trip of driver `d`. */
  function Prices(trips: map<TripId, Trip>, money: map<TripId, TripMoney>, d: DriverId): map<TripId, real> {
    map t | t in trips && Earned(trips, money, t, d) :: money[t].finalPrice.value
  }

  function Commissions(trips: map<TripId, Trip>, money: map<TripId, TripMoney>, d: DriverId): map<TripId, real> {
    map t | t in trips && Earned(trips, money, t, d) :: money[t].commission.value
  }

  /** What driver `d` has paid: the amounts of the payments that succeeded. */
  function Paid(payments: seq<Payment>, d: DriverId): real {
    if payments == [] then 0.0
    else
      var p := payments[|payments| - 1];
      Paid(payments[..|payments| - 1], d) +
      if p.driver == d && p.status == Succeeded then p.amount else 0.0
  }

  function Share(p: Payment, d: DriverId): real {
    if p.driver == d && p.status == Succeeded then p.amount else 0.0
  }

  lemma {:induction false} PaidAfterWrite(payments: seq<Payment>, i: nat, p: Payment, d: DriverId)
    requires i < |payments|
    ensures Paid(payments[i := p], d) == Paid(payments, d) - Share(payments[i], d) + Share(p, d)
  {
    var n := |payments| - 1;
    if i == n {
      assert payments[i := p][..n] == payments[..n];
    } else {
      assert payments[i := p][..n] == payments[..n][i := p];
      PaidAfterWrite(payments[..n], i, p, d);
    }
  }

  // ----------------------------------------------------------------- invariant

  /** Final price and commission are written by the completion, and by nothing else. */
  ghost predicate MoneyAgrees(b: Books) {
    b.money.Keys == b.system.trips.Keys &&
    forall t :: t in b.money ==>
      if b.system.trips[t].status == Completed
      then b.money[t].finalPrice == b.money[t].estimate &&
           (b.money[t].commission.Some? <==> b.money[t].estimate.Some?)
      else b.money[t].finalPrice == None && b.money[t].commission == None
  }

  ghost predicate Unrecorded(p: Payment) {
    p.status == Unsettled && p.transactionRef == None && p.orderId == None && p.notifToken == None
  }

  ghost predicate TokensUnique(payments: seq<Payment>) {
    forall i, j :: 0 <= i < j < |payments| ==>
      (payments[i].transactionRef.Some? ==> payments[i].transactionRef != payments[j].transactionRef) &&
      (payments[i].orderId.Some? ==> payments[i].orderId != payments[j].orderId)
  }

  ghost predicate MarkedOnce(b: Books) {
    (forall i, j :: 0 <= i < j < |b.marked| ==> b.marked[i] != b.marked[j]) &&
    (forall i :: i in b.marked <==> 0 <= i < |b.payments| && b.payments[i].status == Succeeded)
  }

  ghost predicate PaymentsAgree(b: Books) {
    (forall i :: i in b.inFlight ==> i < |b.payments| && Unrecorded(b.payments[i])) &&
    TokensUnique(b.payments) && MarkedOnce(b)
  }

  ghost predicate Balanced(b: Books, d: DriverId) {
    AccountOf(b, d).due == Total(Commissions(b.system.trips, b.money, d)) - Paid(b.payments, d) &&
    AccountOf(b, d).balance ==
      Total(Prices(b.system.trips, b.money, d)) - Total(Commissions(b.system.trips, b.money, d))
  }

  ghost predicate Sound(b: Books) {
    Consistent(b.system) && MoneyAgrees(b) && PaymentsAgree(b) && forall d :: Balanced(b, d)
  }

  // ------------------------------------------------------------ payment events

  lemma SettleBalances(b: Books, i: PaymentId, p: Payment, d: DriverId)
    requires i < |b.payments| && b.payments[i].status != Succeeded && Balanced(b, d)
    requires p.driver == b.payments[i].driver && p.amount == b.payments[i].amount
    ensures Balanced(Settle(b, i, p), d)
  {
    PaidAfterWrite(b.payments, i, p, d);
    assert b.payments[i := p][i] == p;
  }

  lemma SettleMarksOnce(b: Books, i: PaymentId, p: Payment)
    requires i < |b.payments| && b.payments[i].status != Succeeded && MarkedOnce(b)
    ensures MarkedOnce(Settle(b, i, p))
  {
    assert i !in b.marked;
  }

  lemma SettleIsSound(b: Books, i: PaymentId, p: Payment)
    requires Sound(b) && i < |b.payments| && b.payments[i].status != Succeeded && i !in b.inFlight
    requires p.driver == b.payments[i].driver && p.amount == b.payments[i].amount
    requires TokensUnique(b.payments[i := p])
    ensures Sound(Settle(b, i, p))
  {
    SettleMarksOnce(b, i, p);
    forall d ensures Balanced(Settle(b, i, p), d) { SettleBalances(b, i, p, d); }
  }

  lemma StartIsSound(b: Books, profile: Option<DriverId>, amount: real)
    requires Sound(b)
    ensures Sound(StartPayment(b, profile, amount))
  {
    if profile.Some? && amount >= MIN_PAYMENT {
      StartKeepsPayments(b, profile, amount);
      var b' := StartPayment(b, profile, amount);
      var p := b'.payments[|b.payments|];
      forall d ensures Balanced(b', d) {
        UnsettledPaysNothing(b.payments, p, d);
        SamePaidStaysBalanced(b, b.payments + [p], b'.inFlight, d);
      }
    }
  }

  lemma StartKeepsPayments(b: Books, profile: Option<DriverId>, amount: real)
    requires PaymentsAgree(b)
    ensures PaymentsAgree(StartPayment(b, profile, amount))
  {}

  lemma UnsettledPaysNothing(payments: seq<Payment>, p: Payment, d: DriverId)
    requires p.status == Unsettled
    ensures Paid(payments + [p], d) == Paid(payments, d)
  {
    assert (payments + [p])[..|payments|] == payments;
  }

  lemma SamePaidStaysBalanced(b: Books, payments: seq<Payment>, inFlight: set<PaymentId>, d: DriverId)
    requires Balanced(b, d) && Paid(payments, d) == Paid(b.payments, d)
    ensures Balanced(b.(payments := payments, inFlight := inFlight), d)
  {}

  lemma RecordIsSound(b: Books, i: PaymentId, answer: Option<Initiation>)
    requires Sound(b) && i in b.inFlight
    ensures Sound(RecordPayment(b, i, answer))
  {
    var b1 := b.(inFlight := b.inFlight - {i});
    assert Sound(b1) by {
      forall d ensures Balanced(b1, d) { assert Balanced(b, d); }
    }
    if answer.Some? && !Collides(b, i, answer.value) {
      SettleIsSound(b1, i, Recorded(b.payments[i], answer.value));
    }
  }

  lemma WebhookIsSound(b: Books, v: Verification, found: Option<PaymentId>)
    requires Sound(b) && IsMatch(b, v, found)
    ensures Sound(HandleWebhook(b, v, found))
  {
    if AnswerWebhook(b, v, found).Processed? {
      SettleIsSound(b, found.value, b.payments[found.value].(status := ReportedStatus(v)));
    }
  }

  lemma PollIsSound(b: Books, i: PaymentId, caller: Option<DriverId>, answer: Option<PaymentStatus>)
    requires Sound(b)
    ensures Sound(CheckPaymentStatus(b, i, caller, answer))
  {
    if PollSettles(b, i, caller, answer) {
      SettleIsSound(b, i, b.payments[i].(status := answer.value));
    }
  }

  // --------------------------------------------------------------- trip events

  lemma UpdateKeepsOthers(s: State, t: TripId, actor: Actor, to: TripStatus, u: TripId)
    requires u in s.trips && u != t
    ensures var s' := UpdateStatus(s, t, actor, to).state; u in s'.trips && s'.trips[u] == s.trips[u]
  {}

  /** Only the request that completes a trip under way takes it out of that status. */
  lemma InProgressIsKept(setup: Setup, s: State, step: Step, t: TripId)
    requires Consistent(s) && Possible(s, step)
    requires t in s.trips && s.trips[t].status == InProgress && CompletedTrip(s, step) != Some(t)
    ensures var s' := Next(setup, s, step); t in s'.trips && s'.trips[t].status == InProgress
  {
    match step
    case StepCreate(u, client, service, near) =>
      CreateKeepsOthers(setup, s, u, client, service, near, t);
    case StepUpdateStatus(u, actor, to) =>
      if u != t { UpdateKeepsOthers(s, u, actor, to, t); }
    case StepDecline(u, d, near) => AnswerKeepsInProgress(setup, s, u, d, DriverDeclined, near, t);
    case StepWsDecline(u, d, near) => AnswerKeepsInProgress(setup, s, u, d, DriverDeclined, near, t);
    case StepJob(j, near) =>
      ProcessJobWithin(setup, s, j, near);
    case StepSweepPending(quiet, order, near) => SweepKeepsInProgress(setup, s, quiet, order, near, t);
    case StepSweepStale(stale) => SweepStaleWithin(s, stale);
    case _ =>
  }

  lemma AnswerKeepsInProgress(setup: Setup, s: State, u: TripId, d: DriverId, to: AttemptStatus,
                              near: seq<DriverId>, t: TripId)
    requires Consistent(s) && to in {DriverDeclined, TimedOut}
    requires t in s.trips && s.trips[t].status == InProgress
    ensures var s' := CheckAndRetry(setup, Drop(s, u, {d}, to), u, near);
      t in s'.trips && s'.trips[t].status == InProgress
  {
    DropThenRetryWithin(setup, s, u, d, to, near);
  }

  lemma SweepKeepsInProgress(setup: Setup, s: State, quiet: bool, order: seq<TripId>,
                             near: map<TripId, seq<DriverId>>, t: TripId)
    requires Consistent(s) && IsPendingList(s, order)
    requires t in s.trips && s.trips[t].status == InProgress
    ensures var s' := SweepPending(setup, s, quiet, order, near);
      t in s'.trips && s'.trips[t].status == InProgress
  {
    SweepAllWithin(setup, s, quiet, order, near);
  }

  lemma CreateKeepsOthers(setup: Setup, s: State, t: TripId, client: UserId, service: Service,
                          near: seq<DriverId>, u: TripId)
    requires Consistent(s) && t !in s.trips && u in s.trips
    ensures var s' := CreateTrip(setup, s, t, client, service, near); u in s'.trips && s'.trips[u] == s.trips[u]
  {
    var s1 := s.(trips := s.trips[t := Trip(client, service, Pending, None, s.now, s.now)]);
    TripWriteStaysConsistent(s, s1.trips);
    AttemptDispatchWithin(setup, s1, t, service, near);
  }

  /** The completion event is emitted for exactly the trip that becomes completed. */
  ghost predicate CompletesOnly(s: State, s': State, completed: Option<TripId>) {
    s.trips.Keys <= s'.trips.Keys &&
    (forall t :: t in s'.trips ==>
      (s'.trips[t].status == Completed <==>
        (t in s.trips && s.trips[t].status == Completed) || completed == Some(t))) &&
    (forall t :: t in s.trips && s.trips[t].status == Completed ==> s'.trips[t].driver == s.trips[t].driver) &&
    (completed.Some? ==>
      completed.value in s.trips && s.trips[completed.value].status == InProgress &&
      s'.trips[completed.value].driver.Some?)
  }

  lemma CompletionWritesRow(setup: Setup, s: State, step: Step, t: TripId)
    requires Consistent(s) && CompletedTrip(s, step) == Some(t)
    ensures t in s.trips && s.trips[t].status == InProgress && s.trips[t].driver.Some?
    ensures Next(setup, s, step) == SetStatus(s, t, Completed)
  {
    assert CanTransition(InProgress, Completed);
  }

  lemma CompletionOf(s: State, step: Step, s': State, t: TripId)
    requires WritesEdges(step, s, s') && CreatesOnly(step, s, s') && Later(s, s') && t in s'.trips
    requires t in s.trips && s.trips[t].status == InProgress ==> s'.trips[t].status == InProgress
    ensures s'.trips[t].status == Completed <==> t in s.trips && s.trips[t].status == Completed
  {
    if t in s.trips {
      assert RowFollows(s.trips[t], s'.trips[t]);
    }
  }

  lemma CompletionIsEmittedOnce(setup: Setup, s: State, step: Step)
    requires Consistent(s) && Possible(s, step)
    ensures CompletesOnly(s, Next(setup, s, step), CompletedTrip(s, step))
  {
    var completed := CompletedTrip(s, step);
    if completed.Some? {
      CompletionWritesRow(setup, s, step, completed.value);
    } else {
      NothingCompletes(setup, s, step, Next(setup, s, step));
    }
  }

  lemma NothingCompletes(setup: Setup, s: State, step: Step, s': State)
    requires Consistent(s) && Possible(s, step)
    requires CompletedTrip(s, step) == None && s' == Next(setup, s, step)
    ensures CompletesOnly(s, s', None)
  {
    StepIsSound(setup, s, step);
    forall t | t in s.trips && s.trips[t].status == InProgress ensures s'.trips[t].status == InProgress {
      InProgressIsKept(setup, s, step, t);
    }
    EdgesComplete(s, step, s');
  }

  lemma EdgesComplete(s: State, step: Step, s': State)
    requires WritesEdges(step, s, s') && CreatesOnly(step, s, s') && Later(s, s')
    requires forall t :: t in s.trips && s.trips[t].status == InProgress ==> s'.trips[t].status == InProgress
    ensures CompletesOnly(s, s', None)
  {
    forall t | t in s'.trips
      ensures s'.trips[t].status == Completed <==> t in s.trips && s.trips[t].status == Completed
    {
      CompletionOf(s, step, s', t);
    }
  }

  // ------------------------------------------------ what a completion does to the books

  lemma EarningsKept(b: Books, b': Books, d: DriverId)
    requires MoneyAgrees(b) && CompletesOnly(b.system, b'.system, None)
    requires b.money.Keys <= b'.money.Keys && forall t :: t in b.money ==> b'.money[t] == b.money[t]
    requires b'.accounts == b.accounts && b'.payments == b.payments && Balanced(b, d)
    requires b'.money.Keys == b'.system.trips.Keys
    ensures Balanced(b', d)
  {
    assert Prices(b'.system.trips, b'.money, d) == Prices(b.system.trips, b.money, d);
    assert Commissions(b'.system.trips, b'.money, d) == Commissions(b.system.trips, b.money, d);
  }

  lemma OnlyCreationAddsRows(b: Books, step: Step, s': State, b': Books, estimate: Option<real>)
    requires MoneyAgrees(b) && CreatesOnly(step, b.system, s') && CompletesOnly(b.system, s', None)
    requires step.StepCreate? ==> step.trip !in b.system.trips && step.trip in s'.trips
    requires b' == if step.StepCreate? then b.(system := s', money := b.money[step.trip := TripMoney(estimate, None, None)])
                   else b.(system := s')
    ensures MoneyAgrees(b')
  {}

  lemma CreationAddsRow(setup: Setup, s: State, step: Step)
    requires Consistent(s) && step.StepCreate? && step.trip !in s.trips
    ensures step.trip in Next(setup, s, step).trips
  {
    var s1 := s.(trips := s.trips[step.trip := Trip(step.client, step.service, Pending, None, s.now, s.now)]);
    TripWriteStaysConsistent(s, s1.trips);
    AttemptDispatchWithin(setup, s1, step.trip, step.service, step.near);
  }

  lemma QuietStepFacts(setup: Setup, s: State, step: Step, s': State)
    requires Consistent(s) && Possible(s, step)
    requires CompletedTrip(s, step) == None && s' == Next(setup, s, step)
    ensures Consistent(s') && CreatesOnly(step, s, s') && CompletesOnly(s, s', None)
    ensures step.StepCreate? ==> step.trip !in s.trips && step.trip in s'.trips
  {
    StepIsSound(setup, s, step);
    NothingCompletes(setup, s, step, s');
    if step.StepCreate? {
      CreationAddsRow(setup, s, step);
    }
  }

  lemma QuietStepKeepsBooks(b: Books, step: Step, s': State, b': Books, estimate: Option<real>)
    requires Sound(b) && Consistent(s') && CreatesOnly(step, b.system, s') && CompletesOnly(b.system, s', None)
    requires step.StepCreate? ==> step.trip !in b.system.trips && step.trip in s'.trips
    requires b' == if step.StepCreate? then b.(system := s', money := b.money[step.trip := TripMoney(estimate, None, None)])
                   else b.(system := s')
    ensures Sound(b')
  {
    OnlyCreationAddsRows(b, step, s', b', estimate);
    forall d ensures Balanced(b', d) { EarningsKept(b, b', d); }
  }

  lemma NoCompletionIsSound(setup: Setup, b: Books, step: Step, estimate: Option<real>, percentage: real)
    requires Sound(b) && Possible(b.system, step)
    requires CompletedTrip(b.system, step) == None
    ensures Sound(HandleTrips(setup, b, step, estimate, percentage))
  {
    var s' := Next(setup, b.system, step);
    QuietStepFacts(setup, b.system, step, s');
    QuietStepKeepsBooks(b, step, s', HandleTrips(setup, b, step, estimate, percentage), estimate);
  }

  function Completing(b: Books, t: TripId, percentage: real): Books
    requires t in b.money && t in b.system.trips
  {
    HandleTripCompleted(
      b.(system := SetStatus(b.system, t, Completed),
         money := b.money[t := b.money[t].(finalPrice := b.money[t].estimate)]), t, percentage)
  }

  /** Completing a trip adds one entry to its driver's sums, and none to anybody else's. */
  lemma CompletionAddsEarnings(b: Books, t: TripId, percentage: real, d: DriverId)
    requires MoneyAgrees(b) && t in b.system.trips && b.system.trips[t].status == InProgress
    requires b.system.trips[t].driver == Some(d) && b.money[t].estimate.Some?
    ensures var b' := Completing(b, t, percentage);
      var price := b.money[t].estimate.value;
      var prices := Prices(b.system.trips, b.money, d);
      var commissions := Commissions(b.system.trips, b.money, d);
      t !in prices && t !in commissions &&
      Prices(b'.system.trips, b'.money, d) == prices[t := price] &&
      Commissions(b'.system.trips, b'.money, d) == commissions[t := Commission(price, percentage)]
  {
    var b' := Completing(b, t, percentage);
    assert b'.system.trips == b.system.trips[t := b.system.trips[t].(status := Completed, updatedAt := b.system.now)];
    var price := b.money[t].estimate.value;
    assert b'.money == b.money[t := TripMoney(Some(price), Some(price), Some(Commission(price, percentage)))];
    EntryAdded(b.system.trips, b.money, b'.system.trips, b'.money, t, d);
  }

  predicate SameElsewhere<V(==)>(m: map<TripId, V>, m': map<TripId, V>, t: TripId) {
    m.Keys == m'.Keys && forall u :: u in m && u != t ==> m'[u] == m[u]
  }

  lemma EntryAdded(trips: map<TripId, Trip>, money: map<TripId, TripMoney>,
                   trips': map<TripId, Trip>, money': map<TripId, TripMoney>, t: TripId, d: DriverId)
    requires SameElsewhere(trips, trips', t) && SameElsewhere(money, money', t)
    requires !Earned(trips, money, t, d)
    ensures Earned(trips', money', t, d) ==>
      Prices(trips', money', d) == Prices(trips, money, d)[t := money'[t].finalPrice.value] &&
      Commissions(trips', money', d) == Commissions(trips, money, d)[t := money'[t].commission.value]
    ensures !Earned(trips', money', t, d) ==>
      Prices(trips', money', d) == Prices(trips, money, d) &&
      Commissions(trips', money', d) == Commissions(trips, money, d)
  {
    assert forall u :: u != t ==> Earned(trips, money, u, d) == Earned(trips', money', u, d);
  }

  lemma OthersEarnNothing(b: Books, t: TripId, percentage: real, d: DriverId)
    requires MoneyAgrees(b) && t in b.system.trips && b.system.trips[t].status == InProgress
    requires b.system.trips[t].driver.Some?
    requires b.system.trips[t].driver != Some(d) || b.money[t].estimate == None
    ensures var b' := Completing(b, t, percentage);
      Prices(b'.system.trips, b'.money, d) == Prices(b.system.trips, b.money, d) &&
      Commissions(b'.system.trips, b'.money, d) == Commissions(b.system.trips, b.money, d)
  {
    var b' := Completing(b, t, percentage);
    EntryAdded(b.system.trips, b.money, b'.system.trips, b'.money, t, d);
  }

  lemma CompletionCredits(b: Books, t: TripId, percentage: real, d: DriverId)
    requires MoneyAgrees(b) && t in b.system.trips && b.system.trips[t].driver.Some?
    ensures var b' := Completing(b, t, percentage);
      b'.payments == b.payments &&
      if b.system.trips[t].driver == Some(d) && b.money[t].estimate.Some? then
        var price := b.money[t].estimate.value;
        var c := Commission(price, percentage);
        AccountOf(b', d) == Account(AccountOf(b, d).balance + (price - c), AccountOf(b, d).due + c)
      else AccountOf(b', d) == AccountOf(b, d)
  {}

  lemma CompletionBalances(b: Books, t: TripId, percentage: real, d: DriverId)
    requires MoneyAgrees(b) && t in b.system.trips && b.system.trips[t].status == InProgress
    requires b.system.trips[t].driver.Some? && Balanced(b, d)
    ensures Balanced(Completing(b, t, percentage), d)
  {
    CompletionCredits(b, t, percentage, d);
    if b.system.trips[t].driver != Some(d) || b.money[t].estimate == None {
      OthersEarnNothing(b, t, percentage, d);
    } else {
      EarningsAddUp(b, Completing(b, t, percentage), t, percentage, d);
    }
  }

  lemma EarningsAddUp(b: Books, b': Books, t: TripId, percentage: real, d: DriverId)
    requires MoneyAgrees(b) && t in b.system.trips && b.system.trips[t].status == InProgress
    requires b.system.trips[t].driver == Some(d) && b.money[t].estimate.Some? && Balanced(b, d)
    requires b' == Completing(b, t, percentage)
    ensures Balanced(b', d)
  {
    CompletionCredits(b, t, percentage, d);
    CompletionAddsEarnings(b, t, percentage, d);
    var price := b.money[t].estimate.value;
    var prices := Prices(b.system.trips, b.money, d);
    var commissions := Commissions(b.system.trips, b.money, d);
    TotalPlus(prices, t, price);
    TotalPlus(commissions, t, Commission(price, percentage));
    assert Total(Prices(b'.system.trips, b'.money, d)) == Total(prices) + price;
    assert Total(Commissions(b'.system.trips, b'.money, d)) == Total(commissions) + Commission(price, percentage);
  }

  lemma CompletingKeepsMoney(b: Books, t: TripId, percentage: real)
    requires MoneyAgrees(b) && t in b.system.trips
    requires b.system.trips[t].status == InProgress && b.system.trips[t].driver.Some?
    ensures MoneyAgrees(Completing(b, t, percentage))
  {}

  lemma CompletingKeepsRest(b: Books, t: TripId, percentage: real)
    requires MoneyAgrees(b) && PaymentsAgree(b) && t in b.system.trips
    ensures PaymentsAgree(Completing(b, t, percentage))
    ensures Completing(b, t, percentage).system == SetStatus(b.system, t, Completed)
  {}

  lemma CompletingIsSound(b: Books, t: TripId, percentage: real)
    requires Sound(b) && t in b.system.trips && b.system.trips[t].status == InProgress && b.system.trips[t].driver.Some?
    ensures Sound(Completing(b, t, percentage))
  {
    CompletingKeepsMoney(b, t, percentage);
    CompletingKeepsRest(b, t, percentage);
    SetStatusStaysConsistent(b.system, t, Completed);
    forall d ensures Balanced(Completing(b, t, percentage), d) { CompletionBalances(b, t, percentage, d); }
  }

  lemma CompletionIsSound(setup: Setup, b: Books, step: Step, estimate: Option<real>, percentage: real)
    requires Sound(b) && CompletedTrip(b.system, step).Some?
    ensures Sound(HandleTrips(setup, b, step, estimate, percentage))
  {
    var t := CompletedTrip(b.system, step).value;
    CompletionWritesRow(setup, b.system, step, t);
    CompletingIsSound(b, t, percentage);
    assert HandleTrips(setup, b, step, estimate, percentage) == Completing(b, t, percentage);
  }

  // ------------------------------------------------------------------ histories

  lemma EventIsSound(setup: Setup, b: Books, e: Event)
    requires Sound(b) && CanPost(b, e)
    ensures Sound(Post(setup, b, e))
  {
    match e
    case Trips(step, estimate, percentage) =>
      if CompletedTrip(b.system, step) == None {
        NoCompletionIsSound(setup, b, step, estimate, percentage);
      } else {
        CompletionIsSound(setup, b, step, estimate, percentage);
      }
    case Start(profile, amount) => StartIsSound(b, profile, amount);
    case Record(i, answer) => RecordIsSound(b, i, answer);
    case Webhook(v, found) => WebhookIsSound(b, v, found);
    case Poll(i, caller, answer) => PollIsSound(b, i, caller, answer);
  }

  lemma {:induction false} HistoryIsSound(setup: Setup, events: seq<Event>)
    requires IsHistory(setup, events)
    ensures Sound(BooksAfter(setup, events))
  {
    if events == [] {
      assert Prices(map[], map[], 0) == map[];
    } else {
      HistoryIsSound(setup, events[..|events| - 1]);
      EventIsSound(setup, BooksAfter(setup, events[..|events| - 1]), events[|events| - 1]);
    }
  }

  /**
   Conservation, for every driver after every history: what the driver has earned, still
   owes and has paid adds up to the final prices of the driver's completed trips, and what
   is owed is their commissions less the payments that succeeded. The completed trips with
   a known price are exactly the ones summed, each at its estimated price.
   */
  lemma Conservation(setup: Setup, events: seq<Event>, d: DriverId)
    requires IsHistory(setup, events)
    ensures var b := BooksAfter(setup, events);
      var prices := Prices(b.system.trips, b.money, d);
      var commissions := Commissions(b.system.trips, b.money, d);
      AccountOf(b, d).balance + AccountOf(b, d).due + Paid(b.payments, d) == Total(prices) &&
      AccountOf(b, d).due == Total(commissions) - Paid(b.payments, d) &&
      prices.Keys == commissions.Keys &&
      forall t :: t in b.system.trips && t in b.money ==>
        (t in prices <==> b.system.trips[t].status == Completed && b.system.trips[t].driver == Some(d) &&
                          b.money[t].estimate.Some?) &&
        (t in prices ==> prices[t] == b.money[t].estimate.value)
  {
    HistoryIsSound(setup, events);
    assert Balanced(BooksAfter(setup, events), d);
  }

  /**
   The commission service is told once of every payment that has reached `Succeeded`, and
   of no other; recorded references and order ids name one payment each.
   */
  lemma EachSuccessIsMarkedOnce(setup: Setup, events: seq<Event>)
    requires IsHistory(setup, events)
    ensures var b := BooksAfter(setup, events);
      (forall i, j :: 0 <= i < j < |b.marked| ==> b.marked[i] != b.marked[j]) &&
      (forall i :: i in b.marked <==> 0 <= i < |b.payments| && b.payments[i].status == Succeeded) &&
      TokensUnique(b.payments)
  {
    HistoryIsSound(setup, events);
  }

  // -------------------------------------------------------- how the books evolve

  /** Settled for good, whoever asks: amounts and drivers never change, success is final. */
  ghost predicate PaymentFollows(p: Payment, q: Payment) {
    q.driver == p.driver && q.amount == p.amount &&
    (p.status == Succeeded ==> q == p) &&
    (p.transactionRef.Some? ==>
      q.transactionRef == p.transactionRef && q.orderId == p.orderId && q.notifToken == p.notifToken)
  }

  ghost predicate PaymentsFollow(b: Books, b': Books) {
    |b.payments| <= |b'.payments| && b.marked <= b'.marked &&
    forall i :: 0 <= i < |b.payments| ==> PaymentFollows(b.payments[i], b'.payments[i])
  }

  ghost predicate MoneyFollows(b: Books, b': Books) {
    forall t :: t in b.money ==>
      t in b'.money && b'.money[t].estimate == b.money[t].estimate &&
      (t in b.system.trips && b.system.trips[t].status == Completed ==> b'.money[t] == b.money[t])
  }

  /** A payment without tokens whose initiation is over: the call failed, or its tokens collided. */
  ghost predicate Stranded(b: Books, i: PaymentId) {
    i < |b.payments| && Unrecorded(b.payments[i]) && i !in b.inFlight
  }

  ghost predicate BooksFollow(b: Books, b': Books) {
    PaymentsFollow(b, b') && MoneyFollows(b, b') && Later(b.system, b'.system) &&
    forall i :: Stranded(b, i) ==> Stranded(b', i)
  }

  lemma BooksFollowIsReflexive(b: Books)
    ensures BooksFollow(b, b)
  {
    LaterIsReflexive(b.system);
  }

  lemma BooksFollowIsTransitive(a: Books, b: Books, c: Books)
    requires BooksFollow(a, b) && BooksFollow(b, c)
    ensures BooksFollow(a, c)
  {
    LaterIsTransitive(a.system, b.system, c.system);
    forall i | 0 <= i < |a.payments| ensures PaymentFollows(a.payments[i], c.payments[i]) {
      assert PaymentFollows(a.payments[i], b.payments[i]);
    }
    MoneyFollowsIsTransitive(a, b, c);
  }

  lemma MoneyFollowsIsTransitive(a: Books, b: Books, c: Books)
    requires MoneyFollows(a, b) && MoneyFollows(b, c) && Later(a.system, b.system)
    ensures MoneyFollows(a, c)
  {
    forall t | t in a.money && t in a.system.trips && a.system.trips[t].status == Completed
      ensures t in c.money && c.money[t] == a.money[t]
    {
      assert RowFollows(a.system.trips[t], b.system.trips[t]);
    }
  }

  /** No lookup ever finds a payment without tokens, and polling it changes nothing. */
  lemma UnrecordedIsNeverFound(b: Books, i: PaymentId, v: Verification,
                               caller: Option<DriverId>, answer: Option<PaymentStatus>)
    requires i < |b.payments| && Unrecorded(b.payments[i])
    ensures !IsMatch(b, v, Some(i))
    ensures CheckPaymentStatus(b, i, caller, answer) == b
  {}

  lemma SettleFollows(b: Books, i: PaymentId, p: Payment)
    requires i < |b.payments| && PaymentFollows(b.payments[i], p)
    requires !Stranded(b, i)
    ensures BooksFollow(b, Settle(b, i, p))
  {
    LaterIsReflexive(b.system);
  }

  lemma PaymentEventFollows(setup: Setup, b: Books, e: Event)
    requires PaymentsAgree(b) && CanPost(b, e) && !e.Trips?
    ensures BooksFollow(b, Post(setup, b, e))
  {
    LaterIsReflexive(b.system);
    match e
    case Start(profile, amount) =>
    case Record(i, answer) =>
      if answer.Some? && !Collides(b, i, answer.value) {
        RecordFollows(b, i, answer.value);
      }
    case Webhook(v, found) =>
      if AnswerWebhook(b, v, found).Processed? {
        SettleFollows(b, found.value, b.payments[found.value].(status := ReportedStatus(v)));
      }
    case Poll(i, caller, answer) =>
      if PollSettles(b, i, caller, answer) {
        SettleFollows(b, i, b.payments[i].(status := answer.value));
      }
  }

  lemma RecordFollows(b: Books, i: PaymentId, r: Initiation)
    requires PaymentsAgree(b) && i in b.inFlight && !Collides(b, i, r)
    ensures BooksFollow(b, RecordPayment(b, i, Some(r)))
  {
    LaterIsReflexive(b.system);
    var b' := RecordPayment(b, i, Some(r));
    assert b'.payments == b.payments[i := Recorded(b.payments[i], r)];
    assert PaymentsFollow(b, b');
  }

  lemma TripEventKeepsPayments(setup: Setup, b: Books, step: Step, estimate: Option<real>, percentage: real)
    ensures var b' := HandleTrips(setup, b, step, estimate, percentage);
      b'.system == Next(setup, b.system, step) &&
      b'.payments == b.payments && b'.marked == b.marked && b'.inFlight == b.inFlight
  {}

  lemma OnlyTripsMoved(b: Books, b': Books)
    requires b'.payments == b.payments && b'.marked == b.marked && b'.inFlight == b.inFlight
    requires MoneyFollows(b, b') && Later(b.system, b'.system)
    ensures BooksFollow(b, b')
  {}

  lemma TripEventFollows(setup: Setup, b: Books, step: Step, estimate: Option<real>, percentage: real)
    requires Sound(b) && Possible(b.system, step)
    ensures BooksFollow(b, HandleTrips(setup, b, step, estimate, percentage))
  {
    TripEventKeepsPayments(setup, b, step, estimate, percentage);
    TripEventKeepsMoney(setup, b, step, estimate, percentage);
    StepIsSound(setup, b.system, step);
    OnlyTripsMoved(b, HandleTrips(setup, b, step, estimate, percentage));
  }

  lemma TripEventKeepsMoney(setup: Setup, b: Books, step: Step, estimate: Option<real>, percentage: real)
    requires Sound(b) && Possible(b.system, step)
    ensures MoneyFollows(b, HandleTrips(setup, b, step, estimate, percentage))
  {
    var completed := CompletedTrip(b.system, step);
    if completed.Some? {
      CompletionWritesRow(setup, b.system, step, completed.value);
      CompletionKeepsMoney(b, completed.value, percentage);
      assert Completing(b, completed.value, percentage) == HandleTrips(setup, b, step, estimate, percentage);
    }
  }

  lemma CompletionKeepsMoney(b: Books, t: TripId, percentage: real)
    requires t in b.money && t in b.system.trips && b.system.trips[t].status == InProgress
    ensures MoneyFollows(b, Completing(b, t, percentage))
  {}

  lemma EventFollows(setup: Setup, b: Books, e: Event)
    requires Sound(b) && CanPost(b, e)
    ensures BooksFollow(b, Post(setup, b, e))
  {
    if e.Trips? {
      TripEventFollows(setup, b, e.step, e.estimate, e.percentage);
    } else {
      PaymentEventFollows(setup, b, e);
    }
  }

  lemma HistoryGrows(setup: Setup, events: seq<Event>, e: Event)
    requires IsHistory(setup, events) && CanPost(BooksAfter(setup, events), e)
    ensures IsHistory(setup, events + [e])
    ensures BooksAfter(setup, events + [e]) == Post(setup, BooksAfter(setup, events), e)
  {
    var grown := events + [e];
    assert grown[..|grown| - 1] == events;
  }

  lemma {:induction false} PrefixIsHistory(setup: Setup, events: seq<Event>, k: nat)
    requires IsHistory(setup, events) && k <= |events|
    ensures IsHistory(setup, events[..k])
    decreases |events|
  {
    if k == |events| {
      assert events[..k] == events;
    } else {
      var front := events[..|events| - 1];
      PrefixIsHistory(setup, front, k);
      assert front[..k] == events[..k];
    }
  }

  lemma EventOfHistoryFollows(setup: Setup, events: seq<Event>, k: nat, b: Books, b': Books)
    requires IsHistory(setup, events) && k < |events|
    requires b == BooksAfter(setup, events[..k]) && b' == BooksAfter(setup, events[..k + 1])
    ensures BooksFollow(b, b')
  {
    EventOfHistory(setup, events, k);
    HistoryIsSound(setup, events[..k]);
    EventFollows(setup, b, events[k]);
  }

  lemma EventOfHistory(setup: Setup, events: seq<Event>, k: nat)
    requires IsHistory(setup, events) && k < |events|
    ensures IsHistory(setup, events[..k]) && CanPost(BooksAfter(setup, events[..k]), events[k])
    ensures BooksAfter(setup, events[..k + 1]) == Post(setup, BooksAfter(setup, events[..k]), events[k])
  {
    PrefixIsHistory(setup, events, k);
    PrefixIsHistory(setup, events, k + 1);
    assert events[..k + 1][..k] == events[..k];
  }

  ghost predicate EachFollows(states: seq<Books>) {
    forall i :: 0 < i < |states| ==> BooksFollow(states[i - 1], states[i])
  }

  lemma {:induction false} FollowsAlong(states: seq<Books>, k: nat, m: nat)
    requires EachFollows(states) && k <= m < |states|
    ensures BooksFollow(states[k], states[m])
    decreases m
  {
    if k == m {
      BooksFollowIsReflexive(states[k]);
    } else {
      FollowsAlong(states, k, m - 1);
      BooksFollowIsTransitive(states[k], states[m - 1], states[m]);
    }
  }

  /** The books before the first event and after each one. */
  function StatesOf(setup: Setup, events: seq<Event>): (states: seq<Books>)
    ensures |states| == |events| + 1
    ensures forall i :: 0 <= i <= |events| ==> states[i] == BooksAfter(setup, events[..i])
  {
    seq(|events| + 1, i requires 0 <= i <= |events| => BooksAfter(setup, events[..i]))
  }

  lemma HistoryFollows(setup: Setup, events: seq<Event>, states: seq<Books>)
    requires IsHistory(setup, events) && states == StatesOf(setup, events)
    ensures EachFollows(states)
  {
    forall i | 0 < i < |states| ensures BooksFollow(states[i - 1], states[i]) {
      EventOfHistoryFollows(setup, events, i - 1, states[i - 1], states[i]);
    }
  }

  /** Any later state of the books follows from any earlier one. */
  lemma HistoryOnlyMovesForward(setup: Setup, events: seq<Event>, k: nat, m: nat, a: Books, b: Books)
    requires IsHistory(setup, events) && k <= m <= |events|
    requires a == BooksAfter(setup, events[..k]) && b == BooksAfter(setup, events[..m])
    ensures BooksFollow(a, b)
  {
    var states := StatesOf(setup, events);
    HistoryFollows(setup, events, states);
    FollowsAlong(states, k, m);
  }

  /**
   Once a payment has succeeded it is frozen: in every later state its row is the same, its
   initiation is over, and no webhook that finds it and no poll changes anything at all.
   */
  lemma SuccessIsFinal(setup: Setup, events: seq<Event>, k: nat, m: nat, a: Books, b: Books, i: PaymentId,
                       v: Verification, caller: Option<DriverId>, answer: Option<PaymentStatus>)
    requires IsHistory(setup, events) && k <= m <= |events|
    requires a == BooksAfter(setup, events[..k]) && b == BooksAfter(setup, events[..m])
    requires i < |a.payments| && a.payments[i].status == Succeeded
    ensures i < |b.payments| && b.payments[i] == a.payments[i] && i !in b.inFlight && i in b.marked
    ensures HandleWebhook(b, v, Some(i)) == b && CheckPaymentStatus(b, i, caller, answer) == b
  {
    HistoryOnlyMovesForward(setup, events, k, m, a, b);
    PrefixIsHistory(setup, events, m);
    HistoryIsSound(setup, events[..m]);
    assert PaymentFollows(a.payments[i], b.payments[i]);
  }

  /**
   A payment whose initiation failed, or whose tokens collided with another payment's,
   never gets tokens, never settles and never draws the commission down.
   */
  lemma StrandedForGood(setup: Setup, events: seq<Event>, k: nat, m: nat, a: Books, b: Books, i: PaymentId)
    requires IsHistory(setup, events) && k <= m <= |events|
    requires a == BooksAfter(setup, events[..k]) && b == BooksAfter(setup, events[..m]) && Stranded(a, i)
    ensures i < |b.payments| && Unrecorded(b.payments[i]) && i !in b.marked
  {
    HistoryOnlyMovesForward(setup, events, k, m, a, b);
    PrefixIsHistory(setup, events, m);
    HistoryIsSound(setup, events[..m]);
    assert Stranded(b, i);
  }

  /** Between the two halves of an initiation no webhook and no poll can reach the payment. */
  lemma InFlightIsOutOfReach(setup: Setup, events: seq<Event>, i: PaymentId, v: Verification,
                             caller: Option<DriverId>, answer: Option<PaymentStatus>)
    requires IsHistory(setup, events)
    requires i in BooksAfter(setup, events).inFlight
    ensures var b := BooksAfter(setup, events);
      i < |b.payments| && b.payments[i].status == Unsettled &&
      !IsMatch(b, v, Some(i)) && CheckPaymentStatus(b, i, caller, answer) == b
  {
    HistoryIsSound(setup, events);
    UnrecordedIsNeverFound(BooksAfter(setup, events), i, v, caller, answer);
  }

  /** The money columns of a completed trip are never written again. */
  lemma CompletionMoneyIsFinal(setup: Setup, events: seq<Event>, k: nat, m: nat, a: Books, b: Books, t: TripId)
    requires IsHistory(setup, events) && k <= m <= |events|
    requires a == BooksAfter(setup, events[..k]) && b == BooksAfter(setup, events[..m])
    requires t in a.system.trips && a.system.trips[t].status == Completed
    ensures t in a.money && t in b.money && b.money[t] == a.money[t]
    ensures t in b.system.trips && b.system.trips[t].status == Completed &&
            b.system.trips[t].driver == a.system.trips[t].driver
  {
    HistoryOnlyMovesForward(setup, events, k, m, a, b);
    PrefixIsHistory(setup, events, k);
    HistoryIsSound(setup, events[..k]);
    CompletedMoneyFollows(a, b, t);
  }

  lemma CompletedMoneyFollows(a: Books, b: Books, t: TripId)
    requires Sound(a) && BooksFollow(a, b)
    requires t in a.system.trips && a.system.trips[t].status == Completed
    ensures t in a.money && t in b.money && b.money[t] == a.money[t]
    ensures t in b.system.trips && b.system.trips[t].status == Completed &&
            b.system.trips[t].driver == a.system.trips[t].driver
  {
    assert RowFollows(a.system.trips[t], b.system.trips[t]);
  }

  // -------------------------------------------------------------------- successes

  /** A success takes its amount off what that driver owes, and off nobody else's account. */
  lemma SuccessOverdrawsIff(b: Books, v: Verification, i: PaymentId)
    requires i < |b.payments| && b.payments[i].status != Succeeded
    requires v.valid && v.status == Some(Succeeded)
    ensures var b' := HandleWebhook(b, v, Some(i));
      var p := b.payments[i];
      AccountOf(b', p.driver).due == AccountOf(b, p.driver).due - p.amount &&
      (AccountOf(b', p.driver).due < 0.0 <==> AccountOf(b, p.driver).due < p.amount) &&
      forall d :: d != p.driver ==> AccountOf(b', d) == AccountOf(b, d)
  {}

  // --------------------------------------------------------------------- earnings

  lemma {:induction false} TotalIsMonotone(a: map<TripId, real>, b: map<TripId, real>)
    requires a.Keys == b.Keys && forall t :: t in a ==> a[t] <= b[t]
    ensures Total(a) <= Total(b)
    decreases |a|
  {
    if a != map[] {
      var t :| t in a;
      TotalMinus(a, t);
      TotalMinus(b, t);
      TotalIsMonotone(a - {t}, b - {t});
    } else {
      assert b == map[];
    }
  }

  /** Prices as the pricing engine makes them, whole and not negative; percentages up to 100. */
  ghost predicate IsFair(e: Event) {
    e.Trips? ==>
      0.0 <= e.percentage <= 100.0 &&
      (e.estimate.Some? ==> e.estimate.value >= 0.0 && e.estimate.value == e.estimate.value.Floor as real)
  }

  ghost predicate FairMoney(money: map<TripId, TripMoney>) {
    forall t :: t in money ==>
      (money[t].estimate.Some? ==>
        money[t].estimate.value >= 0.0 && money[t].estimate.value == money[t].estimate.value.Floor as real) &&
      (money[t].commission.Some? && money[t].finalPrice.Some? ==>
        0.0 <= money[t].commission.value <= money[t].finalPrice.value)
  }

  lemma CompletionIsFair(b: Books, t: TripId, percentage: real)
    requires FairMoney(b.money) && t in b.money && t in b.system.trips && 0.0 <= percentage <= 100.0
    requires b.money[t].commission == None
    ensures FairMoney(Completing(b, t, percentage).money)
  {
    if b.money[t].estimate.Some? {
      var price := b.money[t].estimate.value;
      assert price == price.Floor as real;
      PricingLaws.CommissionIsAShare(price.Floor, percentage);
      assert 0.0 <= Commission(price, percentage) <= price;
    }
  }

  lemma TripsAreFair(setup: Setup, b: Books, e: Event)
    requires Sound(b) && FairMoney(b.money) && e.Trips? && IsFair(e) && Possible(b.system, e.step)
    ensures FairMoney(HandleTrips(setup, b, e.step, e.estimate, e.percentage).money)
  {
    var completed := CompletedTrip(b.system, e.step);
    if completed.Some? {
      CompletionWritesRow(setup, b.system, e.step, completed.value);
      CompletionIsFair(b, completed.value, e.percentage);
      assert Completing(b, completed.value, e.percentage) == HandleTrips(setup, b, e.step, e.estimate, e.percentage);
    }
  }

  lemma PaymentsKeepMoney(setup: Setup, b: Books, e: Event)
    requires !e.Trips?
    ensures Post(setup, b, e).money == b.money
  {}

  lemma {:induction false} HistoryIsFair(setup: Setup, events: seq<Event>)
    requires IsHistory(setup, events) && forall e :: e in events ==> IsFair(e)
    ensures FairMoney(BooksAfter(setup, events).money)
  {
    if events != [] {
      var front, e := events[..|events| - 1], events[|events| - 1];
      HistoryIsFair(setup, front);
      HistoryIsSound(setup, front);
      if e.Trips? {
        TripsAreFair(setup, BooksAfter(setup, front), e);
      } else {
        PaymentsKeepMoney(setup, BooksAfter(setup, front), e);
      }
    }
  }

  /** Under fair prices and percentages no driver's balance is ever negative. */
  lemma EarningsAreNotNegative(setup: Setup, events: seq<Event>, d: DriverId)
    requires IsHistory(setup, events) && forall e :: e in events ==> IsFair(e)
    ensures AccountOf(BooksAfter(setup, events), d).balance >= 0.0
  {
    HistoryIsSound(setup, events);
    HistoryIsFair(setup, events);
    FairBalance(BooksAfter(setup, events), d);
  }

  lemma FairBalance(b: Books, d: DriverId)
    requires Balanced(b, d) && FairMoney(b.money)
    ensures AccountOf(b, d).balance >= 0.0
  {
    TotalIsMonotone(Commissions(b.system.trips, b.money, d), Prices(b.system.trips, b.money, d));
  }
}
