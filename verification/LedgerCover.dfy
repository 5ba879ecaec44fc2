/**
 When the commission due can go negative. Nothing stops a driver from paying more than is
 due; the due stays non-negative, whatever webhooks and polls bring, exactly as long as it
 covers the payments that can still succeed.
 */
module LedgerCover {
  import opened Prelude
  import opened DispatchModel
  import opened Rounding
  import opened Ledger
  import opened LedgerRuns

  /** A lookup can find the payment. */
  predicate HasToken(p: Payment) {
    Truthy(p.notifToken) || Truthy(p.transactionRef) || Truthy(p.orderId)
  }

  /** The payment can still succeed: its initiation is out, or a webhook can name it. */
  predicate IsOpen(b: Books, i: PaymentId) {
    i < |b.payments| && b.payments[i].status != Succeeded && (i in b.inFlight || HasToken(b.payments[i]))
  }

  function OpenShare(b: Books, i: PaymentId, d: DriverId): real {
    if IsOpen(b, i) && b.payments[i].driver == d then b.payments[i].amount else 0.0
  }

  /** The amounts of driver `d`'s open payments among the first `n`. */
  function OpenUpTo(b: Books, d: DriverId, n: nat): real {
    if n == 0 then 0.0 else OpenUpTo(b, d, n - 1) + OpenShare(b, n - 1, d)
  }

  function Outstanding(b: Books, d: DriverId): real {
    OpenUpTo(b, d, |b.payments|)
  }

  ghost predicate Covered(b: Books) {
    forall d :: Outstanding(b, d) <= AccountOf(b, d).due
  }

  // ---------------------------------------------------------------------- sums

  lemma {:induction false} OneShareChanges(b: Books, b': Books, i: PaymentId, d: DriverId, n: nat)
    requires forall k: PaymentId :: k < n && k != i ==> OpenShare(b', k, d) == OpenShare(b, k, d)
    ensures OpenUpTo(b', d, n) == OpenUpTo(b, d, n) + if i < n then OpenShare(b', i, d) - OpenShare(b, i, d) else 0.0
  {
    if n > 0 {
      OneShareChanges(b, b', i, d, n - 1);
    }
  }

  ghost predicate AmountsValid(b: Books) {
    forall i :: 0 <= i < |b.payments| ==> b.payments[i].amount >= MIN_PAYMENT
  }

  lemma {:induction false} OpenIsNotNegative(b: Books, d: DriverId, n: nat)
    requires AmountsValid(b)
    ensures OpenUpTo(b, d, n) >= 0.0
  {
    if n > 0 {
      OpenIsNotNegative(b, d, n - 1);
    }
  }

  // ------------------------------------------------------------- payment events

  /** What one payment's settlement does to its driver's due and outstanding amounts. */
  lemma SettleMoves(b: Books, i: PaymentId, p: Payment, d: DriverId)
    requires i < |b.payments| && p.driver == b.payments[i].driver && p.amount == b.payments[i].amount
    requires b.payments[i].status != Succeeded
    ensures var b' := Settle(b, i, p);
      Outstanding(b', d) == Outstanding(b, d) - OpenShare(b, i, d) + OpenShare(b', i, d) &&
      AccountOf(b', d).due == AccountOf(b, d).due - (if p.status == Succeeded && p.driver == d then p.amount else 0.0)
  {
    var b' := Settle(b, i, p);
    assert b'.payments == b.payments[i := p] && b'.inFlight == b.inFlight;
    OneShareChanges(b, b', i, d, |b.payments|);
  }

  lemma SettleKeepsCover(b: Books, i: PaymentId, p: Payment)
    requires Covered(b) && AmountsValid(b) && IsOpen(b, i)
    requires p.driver == b.payments[i].driver && p.amount == b.payments[i].amount
    ensures Covered(Settle(b, i, p)) && AmountsValid(Settle(b, i, p))
  {
    forall d ensures Outstanding(Settle(b, i, p), d) <= AccountOf(Settle(b, i, p), d).due {
      SettleMoves(b, i, p, d);
    }
  }

  /** Taking a payment out of flight only lowers what is outstanding. */
  lemma LandingMoves(b: Books, i: PaymentId, d: DriverId)
    requires i < |b.payments|
    ensures var b1 := b.(inFlight := b.inFlight - {i});
      Outstanding(b1, d) == Outstanding(b, d) - OpenShare(b, i, d) + OpenShare(b1, i, d)
  {
    OneShareChanges(b, b.(inFlight := b.inFlight - {i}), i, d, |b.payments|);
  }

  lemma RecordMoves(b: Books, i: PaymentId, r: Initiation, d: DriverId)
    requires PaymentsAgree(b) && i in b.inFlight && !Collides(b, i, r)
    ensures var b' := RecordPayment(b, i, Some(r));
      Outstanding(b', d) == Outstanding(b, d) - OpenShare(b, i, d) + OpenShare(b', i, d) &&
      AccountOf(b', d).due ==
        AccountOf(b, d).due - (if r.status == Succeeded && b.payments[i].driver == d then b.payments[i].amount else 0.0)
  {
    var b1 := b.(inFlight := b.inFlight - {i});
    LandingMoves(b, i, d);
    SettleMoves(b1, i, Recorded(b.payments[i], r), d);
  }

  lemma RecordKeepsCover(b: Books, i: PaymentId, answer: Option<Initiation>)
    requires Covered(b) && AmountsValid(b) && PaymentsAgree(b) && i in b.inFlight
    ensures Covered(RecordPayment(b, i, answer)) && AmountsValid(RecordPayment(b, i, answer))
  {
    var b' := RecordPayment(b, i, answer);
    forall d ensures Outstanding(b', d) <= AccountOf(b', d).due {
      if answer.Some? && !Collides(b, i, answer.value) {
        RecordMoves(b, i, answer.value, d);
      } else {
        LandingMoves(b, i, d);
      }
    }
  }

  lemma FoundIsOpen(b: Books, v: Verification, i: PaymentId)
    requires IsMatch(b, v, Some(i)) && i < |b.payments| && b.payments[i].status != Succeeded
    ensures IsOpen(b, i)
  {}

  /** A new payment adds its amount to what is outstanding, so it has to fit under the due. */
  lemma StartMoves(b: Books, d: DriverId, amount: real, e: DriverId)
    requires amount >= MIN_PAYMENT && forall i :: i in b.inFlight ==> i < |b.payments|
    ensures var b' := StartPayment(b, Some(d), amount);
      Outstanding(b', e) == Outstanding(b, e) + (if e == d then amount else 0.0) &&
      AccountOf(b', e) == AccountOf(b, e)
  {
    var b' := StartPayment(b, Some(d), amount);
    var n := |b.payments|;
    OneShareChanges(b, b', n, e, n);
    assert OpenUpTo(b', e, n + 1) == OpenUpTo(b', e, n) + OpenShare(b', n, e);
  }

  /** The check `payCommission` does not make. */
  predicate FitsDue(b: Books, e: Event) {
    e.Start? && e.profile.Some? && e.amount >= MIN_PAYMENT ==>
      e.amount + Outstanding(b, e.profile.value) <= AccountOf(b, e.profile.value).due
  }

  lemma StartKeepsCoverIff(b: Books, e: Event)
    requires Covered(b) && PaymentsAgree(b) && e.Start?
    ensures Covered(StartPayment(b, e.profile, e.amount)) <==> FitsDue(b, e)
  {
    var b' := StartPayment(b, e.profile, e.amount);
    if e.profile.Some? && e.amount >= MIN_PAYMENT {
      forall d ensures Outstanding(b', d) == Outstanding(b, d) + (if d == e.profile.value then e.amount else 0.0)
      ensures AccountOf(b', d) == AccountOf(b, d)
      {
        StartMoves(b, e.profile.value, e.amount, d);
      }
    }
  }

  // --------------------------------------------------------------- trip events

  /** Prices and percentages as the pricing engine and the validation give them. */
  predicate IsNonNegative(e: Event) {
    e.Trips? ==> e.percentage >= 0.0 && (e.estimate.Some? ==> e.estimate.value >= 0.0)
  }

  ghost predicate EstimatesValid(money: map<TripId, TripMoney>) {
    forall t :: t in money && money[t].estimate.Some? ==> money[t].estimate.value >= 0.0
  }

  lemma CommissionIsNotNegative(price: real, percentage: real)
    requires price >= 0.0 && percentage >= 0.0
    ensures Commission(price, percentage) >= 0.0
  {
    TimesIsNonNegative(price, percentage / 100.0);
    RoundIsMonotone(0.0, Times(price, percentage / 100.0));
  }

  lemma CompletionRaisesDue(b: Books, t: TripId, percentage: real, d: DriverId)
    requires MoneyAgrees(b) && t in b.system.trips && b.system.trips[t].driver.Some?
    requires EstimatesValid(b.money) && percentage >= 0.0
    ensures AccountOf(Completing(b, t, percentage), d).due >= AccountOf(b, d).due
    ensures EstimatesValid(Completing(b, t, percentage).money)
  {
    CompletionCredits(b, t, percentage, d);
    if b.money[t].estimate.Some? {
      CommissionIsNotNegative(b.money[t].estimate.value, percentage);
    }
  }

  lemma TripsRaiseDue(setup: Setup, b: Books, e: Event, d: DriverId)
    requires Sound(b) && e.Trips? && Possible(b.system, e.step) && IsNonNegative(e) && EstimatesValid(b.money)
    ensures var b' := HandleTrips(setup, b, e.step, e.estimate, e.percentage);
      AccountOf(b', d).due >= AccountOf(b, d).due && EstimatesValid(b'.money)
  {
    var completed := CompletedTrip(b.system, e.step);
    if completed.Some? {
      CompletionWritesRow(setup, b.system, e.step, completed.value);
      CompletionRaisesDue(b, completed.value, e.percentage, d);
      assert Completing(b, completed.value, e.percentage) == HandleTrips(setup, b, e.step, e.estimate, e.percentage);
    }
  }

  lemma SamePaymentsSameOpen(b: Books, b': Books, d: DriverId)
    requires b'.payments == b.payments && b'.inFlight == b.inFlight
    ensures Outstanding(b', d) == Outstanding(b, d)
  {
    OneShareChanges(b, b', |b.payments|, d, |b.payments|);
  }

  lemma TripsKeepCover(setup: Setup, b: Books, e: Event)
    requires Sound(b) && e.Trips? && Possible(b.system, e.step) && IsNonNegative(e) && Sheltered(b)
    ensures Sheltered(HandleTrips(setup, b, e.step, e.estimate, e.percentage))
  {
    var b' := HandleTrips(setup, b, e.step, e.estimate, e.percentage);
    TripEventKeepsPayments(setup, b, e.step, e.estimate, e.percentage);
    TripsRaiseDue(setup, b, e, 0);
    forall d ensures Outstanding(b', d) <= AccountOf(b', d).due {
      TripsRaiseDue(setup, b, e, d);
      SamePaymentsSameOpen(b, b', d);
    }
  }

  // ------------------------------------------------------------------ histories

  ghost predicate Valid(b: Books) {
    AmountsValid(b) && EstimatesValid(b.money)
  }

  ghost predicate Sheltered(b: Books) {
    Covered(b) && Valid(b)
  }

  lemma PaymentEventKeepsCover(setup: Setup, b: Books, e: Event)
    requires Sound(b) && CanPost(b, e) && !e.Trips? && FitsDue(b, e) && Sheltered(b)
    ensures Sheltered(Post(setup, b, e))
  {
    PaymentsKeepMoney(setup, b, e);
    match e
    case Start(_, _) => StartKeepsCoverIff(b, e);
    case Record(i, answer) => RecordKeepsCover(b, i, answer);
    case Webhook(v, found) =>
      if AnswerWebhook(b, v, found).Processed? {
        FoundIsOpen(b, v, found.value);
        SettleKeepsCover(b, found.value, b.payments[found.value].(status := ReportedStatus(v)));
      }
    case Poll(i, caller, answer) =>
      if PollSettles(b, i, caller, answer) {
        SettleKeepsCover(b, i, b.payments[i].(status := answer.value));
      }
  }

  /** Every event but a start keeps the dues covered, and a start does if it fits. */
  lemma EventKeepsCover(setup: Setup, b: Books, e: Event)
    requires Sound(b) && CanPost(b, e) && IsNonNegative(e) && FitsDue(b, e) && Sheltered(b)
    ensures Sheltered(Post(setup, b, e))
  {
    if e.Trips? {
      TripsKeepCover(setup, b, e);
    } else {
      PaymentEventKeepsCover(setup, b, e);
    }
  }

  /** Every payment was started within what its driver then owed, open payments counted. */
  predicate AllFit(setup: Setup, events: seq<Event>) {
    events == [] ||
    (AllFit(setup, events[..|events| - 1]) && FitsDue(BooksAfter(setup, events[..|events| - 1]), events[|events| - 1]))
  }

  ghost predicate AllNonNegative(events: seq<Event>) {
    forall e :: e in events ==> IsNonNegative(e)
  }

  lemma {:induction false} FittingHistoryIsSheltered(setup: Setup, events: seq<Event>)
    requires IsHistory(setup, events) && AllNonNegative(events) && AllFit(setup, events)
    ensures Sheltered(BooksAfter(setup, events))
  {
    if events != [] {
      var front := events[..|events| - 1];
      FittingHistoryIsSheltered(setup, front);
      HistoryIsSound(setup, front);
      EventKeepsCover(setup, BooksAfter(setup, front), events[|events| - 1]);
    }
  }

  lemma ShelteredIsNotNegative(b: Books, d: DriverId)
    requires Sheltered(b)
    ensures AccountOf(b, d).due >= 0.0
  {
    OpenIsNotNegative(b, d, |b.payments|);
  }

  /**
   If every payment is started within what its driver owes, counting the driver's payments
   that can still succeed, no due is ever negative: in any history of trips, webhooks and polls.
   */
  lemma FittingPaymentsNeverOverdraw(setup: Setup, events: seq<Event>, d: DriverId)
    requires IsHistory(setup, events) && AllNonNegative(events) && AllFit(setup, events)
    ensures AccountOf(BooksAfter(setup, events), d).due >= 0.0
  {
    FittingHistoryIsSheltered(setup, events);
    ShelteredIsNotNegative(BooksAfter(setup, events), d);
  }
}

/** The cover is exact: whenever it is missing, what is already under way can overdraw. */
module LedgerOverdraft {
  import opened Prelude
  import opened DispatchModel
  import opened Ledger
  import opened LedgerRuns
  import opened LedgerCover

  // ------------------------------------------------------- settling one open payment

  function Letters(n: nat): (s: string)
    ensures |s| == n
  {
    seq(n, _ => 'x')
  }

  /** A reference no payment carries: longer than all of them. */
  lemma {:induction false} FreshReference(payments: seq<Payment>) returns (length: nat)
    ensures forall i :: 0 <= i < |payments| && payments[i].transactionRef.Some? ==>
      |payments[i].transactionRef.value| < length
  {
    if payments == [] {
      length := 0;
    } else {
      var last := payments[|payments| - 1];
      length := FreshReference(payments[..|payments| - 1]);
      if last.transactionRef.Some? && |last.transactionRef.value| >= length {
        length := |last.transactionRef.value| + 1;
      }
    }
  }

  /** Payment `i` has succeeded and nothing else has moved. */
  ghost predicate Settles(b: Books, b': Books, i: PaymentId) {
    i < |b.payments| &&
    (forall d :: Outstanding(b', d) == Outstanding(b, d) - OpenShare(b, i, d) &&
                 AccountOf(b', d).due == AccountOf(b, d).due - OpenShare(b, i, d)) &&
    (forall k: PaymentId :: IsOpen(b', k) <==> IsOpen(b, k) && k != i)
  }

  lemma RecordSettles(b: Books, i: PaymentId, r: Initiation)
    requires Sound(b) && i in b.inFlight && r.status == Succeeded && !Collides(b, i, r)
    ensures Settles(b, RecordPayment(b, i, Some(r)), i)
  {
    forall d
      ensures Outstanding(RecordPayment(b, i, Some(r)), d) == Outstanding(b, d) - OpenShare(b, i, d)
      ensures AccountOf(RecordPayment(b, i, Some(r)), d).due == AccountOf(b, d).due - OpenShare(b, i, d)
    {
      RecordMoves(b, i, r, d);
    }
  }

  lemma WebhookSettles(b: Books, i: PaymentId, v: Verification)
    requires Sound(b) && IsOpen(b, i) && v.valid && v.status == Some(Succeeded) && i !in b.inFlight
    ensures Settles(b, HandleWebhook(b, v, Some(i)), i)
  {
    var p := b.payments[i].(status := Succeeded);
    assert HandleWebhook(b, v, Some(i)) == Settle(b, i, p);
    forall d
      ensures Outstanding(Settle(b, i, p), d) == Outstanding(b, d) - OpenShare(b, i, d)
      ensures AccountOf(Settle(b, i, p), d).due == AccountOf(b, d).due - OpenShare(b, i, d)
    {
      SettleMoves(b, i, p, d);
    }
  }

  /** A success reported for payment `i` under a token it carries. */
  function SuccessOf(p: Payment): Verification {
    if Truthy(p.notifToken) then Verification(true, None, None, p.notifToken, Some(Succeeded))
    else if Truthy(p.transactionRef) then Verification(true, p.transactionRef, None, None, Some(Succeeded))
    else Verification(true, None, p.orderId, None, Some(Succeeded))
  }

  lemma SuccessFinds(b: Books, i: PaymentId)
    requires i < |b.payments| && HasToken(b.payments[i])
    ensures IsMatch(b, SuccessOf(b.payments[i]), Some(i))
  {}

  /** Every open payment can succeed in one event that is no start. */
  lemma OpenCanSettle(setup: Setup, b: Books, i: PaymentId) returns (e: Event)
    requires Sound(b) && IsOpen(b, i)
    ensures CanPost(b, e) && (e.Record? || e.Webhook?) && Settles(b, Post(setup, b, e), i)
  {
    if i in b.inFlight {
      var length := FreshReference(b.payments);
      var r := Initiation(Letters(length), None, None, Succeeded);
      e := Record(i, Some(r));
      RecordSettles(b, i, r);
    } else {
      var v := SuccessOf(b.payments[i]);
      SuccessFinds(b, i);
      e := Webhook(v, Some(i));
      WebhookSettles(b, i, v);
    }
  }

  // ------------------------------------------------------------ settling all of them

  ghost function OpenSet(b: Books): set<PaymentId> {
    set i | 0 <= i < |b.payments| && IsOpen(b, i)
  }

  lemma {:induction false} NothingOpen(b: Books, d: DriverId, n: nat)
    requires OpenSet(b) == {}
    ensures OpenUpTo(b, d, n) == 0.0
  {
    if n > 0 {
      NothingOpen(b, d, n - 1);
      assert IsOpen(b, n - 1) ==> n - 1 in OpenSet(b);
    }
  }

  // -------------------------------------------------------------- what may come next

  /** The books after the events `more`, from books `b` on. */
  function BooksFrom(setup: Setup, b: Books, more: seq<Event>): Books
    decreases |more|
  {
    if more == [] then b else BooksFrom(setup, Post(setup, b, more[0]), more[1..])
  }

  ghost predicate CanFollow(setup: Setup, b: Books, more: seq<Event>)
    decreases |more|
  {
    more != [] ==> CanPost(b, more[0]) && CanFollow(setup, Post(setup, b, more[0]), more[1..])
  }

  ghost predicate IsUncovered(b: Books, d: DriverId) {
    AccountOf(b, d).due < Outstanding(b, d)
  }

  lemma OneMoreSettles(setup: Setup, b: Books, d: DriverId) returns (e: Event)
    requires Sound(b) && IsUncovered(b, d) && OpenSet(b) != {}
    ensures (e.Record? || e.Webhook?) && CanPost(b, e)
    ensures var b' := Post(setup, b, e);
      Sound(b') && IsUncovered(b', d) && |OpenSet(b')| < |OpenSet(b)|
  {
    var i :| i in OpenSet(b);
    e := OpenCanSettle(setup, b, i);
    SettlingShrinks(b, Post(setup, b, e), i);
    EventIsSound(setup, b, e);
  }

  lemma NothingOpenOverdraws(b: Books, d: DriverId)
    requires IsUncovered(b, d) && OpenSet(b) == {}
    ensures AccountOf(b, d).due < 0.0
  {
    NothingOpen(b, d, |b.payments|);
  }

  ghost predicate HasNoStart(events: seq<Event>) {
    forall e :: e in events ==> !e.Start?
  }

  /** An uncovered due goes negative once what is under way has come in. */
  lemma {:induction false} UncoveredOverdraws(setup: Setup, b: Books, d: DriverId) returns (more: seq<Event>)
    requires Sound(b) && IsUncovered(b, d)
    ensures CanFollow(setup, b, more) && AllNonNegative(more) && HasNoStart(more)
    ensures AccountOf(BooksFrom(setup, b, more), d).due < 0.0
    decreases |OpenSet(b)|
  {
    if OpenSet(b) == {} {
      NothingOpenOverdraws(b, d);
      more := [];
    } else {
      var e := OneMoreSettles(setup, b, d);
      var rest := UncoveredOverdraws(setup, Post(setup, b, e), d);
      more := [e] + rest;
      assert more[0] == e && more[1..] == rest;
    }
  }

  lemma SettlingShrinks(b: Books, b': Books, i: PaymentId)
    requires Settles(b, b', i) && i in OpenSet(b)
    ensures |OpenSet(b')| < |OpenSet(b)|
  {
    assert OpenSet(b') == OpenSet(b) - {i} by {
      forall k: PaymentId ensures k in OpenSet(b') <==> k in OpenSet(b) && k != i {
        assert IsOpen(b', k) <==> IsOpen(b, k) && k != i;
      }
    }
  }

  // ------------------------------------------------------------------- the exact rule

  /** Whatever happens next, short of a new payment, leaves every due at or above zero. */
  ghost predicate DuesStaySafe(setup: Setup, b: Books) {
    forall more, d :: CanFollow(setup, b, more) && AllNonNegative(more) && HasNoStart(more) ==>
      AccountOf(BooksFrom(setup, b, more), d).due >= 0.0
  }

  lemma {:induction false} CoverLasts(setup: Setup, b: Books, more: seq<Event>)
    requires CanFollow(setup, b, more) && AllNonNegative(more) && HasNoStart(more)
    requires Sound(b) && Sheltered(b)
    ensures Sheltered(BooksFrom(setup, b, more))
    decreases |more|
  {
    if more != [] {
      EventIsSound(setup, b, more[0]);
      EventKeepsCover(setup, b, more[0]);
      CoverLasts(setup, Post(setup, b, more[0]), more[1..]);
    }
  }

  lemma DuesStaySafeIffCovered(setup: Setup, b: Books)
    requires Sound(b) && Valid(b)
    ensures DuesStaySafe(setup, b) <==> Covered(b)
  {
    if Covered(b) {
      forall more, d | CanFollow(setup, b, more) && AllNonNegative(more) && HasNoStart(more)
        ensures AccountOf(BooksFrom(setup, b, more), d).due >= 0.0
      {
        CoverLasts(setup, b, more);
        ShelteredIsNotNegative(BooksFrom(setup, b, more), d);
      }
    } else {
      var d :| Outstanding(b, d) > AccountOf(b, d).due;
      var more := UncoveredOverdraws(setup, b, d);
    }
  }

  /**
   After any history the dues are safe from everything already under way if and only if each
   driver's due covers the driver's payments that can still succeed.
   */
  lemma DuesStaySafeIff(setup: Setup, events: seq<Event>)
    requires IsHistory(setup, events) && AllNonNegative(events)
    ensures DuesStaySafe(setup, BooksAfter(setup, events)) <==> Covered(BooksAfter(setup, events))
  {
    HistoryIsSound(setup, events);
    HistoryIsValid(setup, events);
    DuesStaySafeIffCovered(setup, BooksAfter(setup, events));
  }

  lemma {:induction false} HistoryIsValid(setup: Setup, events: seq<Event>)
    requires IsHistory(setup, events) && AllNonNegative(events)
    ensures Valid(BooksAfter(setup, events))
  {
    if events != [] {
      var front := events[..|events| - 1];
      HistoryIsValid(setup, front);
      HistoryIsSound(setup, front);
      EventKeepsValid(setup, BooksAfter(setup, front), events[|events| - 1]);
    }
  }

  lemma EventKeepsValid(setup: Setup, b: Books, e: Event)
    requires Sound(b) && CanPost(b, e) && IsNonNegative(e) && Valid(b)
    ensures Valid(Post(setup, b, e))
  {
    if e.Trips? {
      TripEventKeepsPayments(setup, b, e.step, e.estimate, e.percentage);
      TripsRaiseDue(setup, b, e, 0);
    } else {
      PaymentsKeepMoney(setup, b, e);
      AmountsStayValid(setup, b, e);
    }
  }

  lemma AmountsStayValid(setup: Setup, b: Books, e: Event)
    requires Sound(b) && CanPost(b, e) && !e.Trips? && AmountsValid(b)
    ensures AmountsValid(Post(setup, b, e))
  {}

  /**
   With the dues safe, starting a payment leaves them safe if and only if it fits: the amount
   and the driver's open payments together are no more than what the driver owes.
   */
  lemma StartIsSafeIff(setup: Setup, events: seq<Event>, e: Event)
    requires IsHistory(setup, events) && AllNonNegative(events) && e.Start?
    requires DuesStaySafe(setup, BooksAfter(setup, events))
    ensures DuesStaySafe(setup, Post(setup, BooksAfter(setup, events), e)) <==> FitsDue(BooksAfter(setup, events), e)
  {
    HistoryIsSound(setup, events);
    HistoryIsValid(setup, events);
    StartIsSafeFor(setup, BooksAfter(setup, events), e);
  }

  lemma StartIsSafeFor(setup: Setup, b: Books, e: Event)
    requires Sound(b) && Valid(b) && e.Start? && DuesStaySafe(setup, b)
    ensures DuesStaySafe(setup, Post(setup, b, e)) <==> FitsDue(b, e)
  {
    DuesStaySafeIffCovered(setup, b);
    EventIsSound(setup, b, e);
    EventKeepsValid(setup, b, e);
    DuesStaySafeIffCovered(setup, Post(setup, b, e));
    StartKeepsCoverIff(b, e);
  }

  // ------------------------------------------------------------------- an overpayment

  /** A driver who owes nothing pays `amount`: started, recorded as pending, confirmed by webhook. */
  function Overpayment(d: DriverId, amount: real, token: string): seq<Event> {
    [Start(Some(d), amount)] +
    [Record(0, Some(Initiation("ref", None, Some(token), Unsettled)))] +
    [Webhook(Verification(true, None, None, Some(token), Some(Succeeded)), Some(0))]
  }

  /** Any amount the validation lets through is accepted, and the due ends below zero by it. */
  lemma OverpaymentIsAccepted(setup: Setup, d: DriverId, amount: real, token: string)
    requires amount >= MIN_PAYMENT && token != ""
    ensures IsHistory(setup, Overpayment(d, amount, token))
    ensures AccountOf(BooksAfter(setup, Overpayment(d, amount, token)), d).due == -amount
  {
    var start := Start(Some(d), amount);
    var r := Initiation("ref", None, Some(token), Unsettled);
    var v := Verification(true, None, None, Some(token), Some(Succeeded));
    HistoryGrows(setup, [], start);
    assert [] + [start] == [start];
    var b1 := StartPayment(EMPTY_BOOKS, Some(d), amount);
    HistoryGrows(setup, [start], Record(0, Some(r)));
    var b2 := RecordPayment(b1, 0, Some(r));
    assert b2.payments == [Payment(d, amount, Unsettled, Some("ref"), None, Some(token))];
    HistoryGrows(setup, [start] + [Record(0, Some(r))], Webhook(v, Some(0)));
  }
}
