/**
 Payments follow the provider's word: which event changes the status of a payment to what,
 what that does to the accounts, and, over every history, that a payment has succeeded
 exactly if the provider has reported so.
 */
module LedgerReports {
  import opened Prelude
  import opened DispatchModel
  import opened Ledger
  import opened LedgerRuns

  /** No other payment has the reference or the order id of the provider's answer. */
  ghost predicate HasOwnTokens(b: Books, i: PaymentId, r: Initiation) {
    forall j :: 0 <= j < |b.payments| && j != i ==>
      b.payments[j].transactionRef != Some(r.transactionRef) &&
      (r.orderId.Some? ==> b.payments[j].orderId != r.orderId)
  }

  /**
   The event carries the provider's word that payment `i` is `x`: the final status in the
   answer to its initiation; a valid webhook for it, where anything but success and expiry
   counts as failure, unless it has already succeeded; or the final status its own driver
   polls while it is unsettled and has both ids.
   */
  ghost predicate Reports(b: Books, e: Event, i: PaymentId, x: PaymentStatus) {
    i < |b.payments| &&
    match e
    case Record(j, answer) =>
      j == i && answer.Some? && HasOwnTokens(b, i, answer.value) && answer.value.status == x && (x == Succeeded || x == Failed)
    case Webhook(v, found) =>
      found == Some(i) && v.valid && b.payments[i].status != Succeeded && x != Unsettled &&
      (x == Succeeded <==> v.status == Some(Succeeded)) && (x == Expired <==> v.status == Some(Expired))
    case Poll(j, caller, answer) =>
      j == i && caller == Some(b.payments[i].driver) && b.payments[i].status == Unsettled &&
      Truthy(b.payments[i].transactionRef) && Truthy(b.payments[i].orderId) && answer == Some(x) && x != Unsettled
    case _ => false
  }

  /** The row as the event leaves it, status aside. */
  ghost predicate KeepsRow(b: Books, e: Event, i: PaymentId, p: Payment)
    requires i < |b.payments|
  {
    p.driver == b.payments[i].driver && p.amount == b.payments[i].amount &&
    if e.Record? && e.payment == i && e.initiation.Some? && HasOwnTokens(b, i, e.initiation.value) then
      p.transactionRef == Some(e.initiation.value.transactionRef) && p.orderId == e.initiation.value.orderId &&
      p.notifToken == e.initiation.value.notifToken
    else
      p.transactionRef == b.payments[i].transactionRef && p.orderId == b.payments[i].orderId &&
      p.notifToken == b.payments[i].notifToken
  }

  /** The status becomes `x` exactly as reported; driver, amount and, but for a record, ids stay. */
  ghost predicate FollowsReport(b: Books, e: Event, b': Books, i: PaymentId, x: PaymentStatus)
    requires i < |b.payments|
  {
    i < |b'.payments| && KeepsRow(b, e, i, b'.payments[i]) &&
    (Reports(b, e, i, x) ==> b'.payments[i].status == x) &&
    (b'.payments[i].status == x && b.payments[i].status != x ==> Reports(b, e, i, x))
  }

  lemma RecordFollowsReport(b: Books, j: PaymentId, answer: Option<Initiation>, i: PaymentId, x: PaymentStatus)
    requires PaymentsAgree(b) && j in b.inFlight && i < |b.payments|
    ensures FollowsReport(b, Record(j, answer), RecordPayment(b, j, answer), i, x)
  {
    if answer.Some? {
      OwnTokensIff(b, j, answer.value);
    }
  }

  lemma WebhookFollowsReport(b: Books, v: Verification, found: Option<PaymentId>, i: PaymentId, x: PaymentStatus)
    requires i < |b.payments|
    ensures FollowsReport(b, Webhook(v, found), HandleWebhook(b, v, found), i, x)
  {}

  lemma PollFollowsReport(b: Books, j: PaymentId, caller: Option<DriverId>, answer: Option<PaymentStatus>,
                          i: PaymentId, x: PaymentStatus)
    requires i < |b.payments|
    ensures FollowsReport(b, Poll(j, caller, answer), CheckPaymentStatus(b, j, caller, answer), i, x)
  {}

  lemma TripsKeepPayments(setup: Setup, b: Books, step: Step, estimate: Option<real>, percentage: real)
    ensures HandleTrips(setup, b, step, estimate, percentage).payments == b.payments
  {}

  /**
   The status of a payment changes to `x` if and only if the event reports `x` of it. Driver
   and amount never change, and ids only when the initiation is recorded.
   */
  lemma StatusChangesIff(setup: Setup, b: Books, e: Event, i: PaymentId, x: PaymentStatus)
    requires PaymentsAgree(b) && CanPost(b, e) && i < |b.payments|
    ensures FollowsReport(b, e, Post(setup, b, e), i, x)
  {
    match e
    case Trips(step, estimate, percentage) => TripsKeepPayments(setup, b, step, estimate, percentage);
    case Start(_, _) =>
    case Record(j, answer) => RecordFollowsReport(b, j, answer, i, x);
    case Webhook(v, found) => WebhookFollowsReport(b, v, found, i, x);
    case Poll(j, caller, answer) => PollFollowsReport(b, j, caller, answer, i, x);
  }

  lemma OwnTokensIff(b: Books, i: PaymentId, r: Initiation)
    ensures HasOwnTokens(b, i, r) <==> !Collides(b, i, r)
  {}

  /** An event adds at most one payment, unsettled and without ids, for a driver's amount of 100 or more. */
  lemma PaymentIsAddedIff(setup: Setup, b: Books, e: Event)
    requires PaymentsAgree(b) && CanPost(b, e)
    ensures var b' := Post(setup, b, e);
      if e.Start? && e.profile.Some? && e.amount >= 100.0 then
        b'.payments == b.payments + [Payment(e.profile.value, e.amount, Unsettled, None, None, None)]
      else |b'.payments| == |b.payments|
  {}

  /** When a payment becomes succeeded it is marked and its amount is taken off what its driver owes. */
  lemma SuccessMovesMoney(setup: Setup, b: Books, e: Event, i: PaymentId)
    requires PaymentsAgree(b) && CanPost(b, e) && i < |b.payments|
    requires Post(setup, b, e).payments[i].status == Succeeded && b.payments[i].status != Succeeded
    ensures var b' := Post(setup, b, e); var p := b.payments[i];
      b'.marked == b.marked + [i] &&
      AccountOf(b', p.driver) == AccountOf(b, p.driver).(due := AccountOf(b, p.driver).due - p.amount) &&
      forall d :: d != p.driver ==> AccountOf(b', d) == AccountOf(b, d)
  {}

  /** A payment event after which no further payment is succeeded moves no money. */
  lemma NoSuccessMovesNothing(setup: Setup, b: Books, e: Event)
    requires PaymentsAgree(b) && CanPost(b, e) && !e.Trips?
    requires forall i :: 0 <= i < |b.payments| && i < |Post(setup, b, e).payments| ==>
      (Post(setup, b, e).payments[i].status == Succeeded ==> b.payments[i].status == Succeeded)
    ensures Post(setup, b, e).marked == b.marked && Post(setup, b, e).accounts == b.accounts
  {}

  /** A webhook and a poll answer with the status that is stored afterwards. */
  lemma RepliesTellTheRow(b: Books, v: Verification, found: Option<PaymentId>, i: PaymentId,
                          caller: Option<DriverId>, answer: Option<PaymentStatus>)
    requires i < |b.payments|
    ensures AnswerWebhook(b, v, Some(i)).Processed? ==>
      HandleWebhook(b, v, Some(i)).payments[i].status == AnswerWebhook(b, v, Some(i)).status
    ensures AnswerPoll(b, i, caller, answer) ==
      if caller == Some(b.payments[i].driver) then Status(CheckPaymentStatus(b, i, caller, answer).payments[i].status)
      else PaymentNotFound
  {}

  // ------------------------------------------------------------------ every history

  /** Event `k` of the history reports success of payment `i`. */
  ghost predicate SuccessReportedAt(setup: Setup, events: seq<Event>, i: PaymentId, k: nat)
    requires k < |events|
  {
    Reports(BooksAfter(setup, events[..k]), events[k], i, Succeeded)
  }

  ghost predicate SuccessReported(setup: Setup, events: seq<Event>, i: PaymentId) {
    exists k :: 0 <= k < |events| && SuccessReportedAt(setup, events, i, k)
  }

  lemma ReportedBefore(setup: Setup, events: seq<Event>, i: PaymentId, k: nat)
    requires k < |events|
    ensures k < |events| - 1 ==>
      (SuccessReportedAt(setup, events, i, k) <==> SuccessReportedAt(setup, events[..|events| - 1], i, k))
  {
    if k < |events| - 1 {
      assert events[..|events| - 1][..k] == events[..k];
    }
  }

  lemma ReportedOneMore(setup: Setup, events: seq<Event>, i: PaymentId)
    requires events != []
    ensures SuccessReported(setup, events, i) <==>
      SuccessReported(setup, events[..|events| - 1], i) || SuccessReportedAt(setup, events, i, |events| - 1)
  {
    var front := events[..|events| - 1];
    if SuccessReported(setup, front, i) {
      var k :| 0 <= k < |front| && SuccessReportedAt(setup, front, i, k);
      ReportedBefore(setup, events, i, k);
    }
    if SuccessReported(setup, events, i) {
      var k :| 0 <= k < |events| && SuccessReportedAt(setup, events, i, k);
      ReportedBefore(setup, events, i, k);
    }
  }

  lemma SuccessStays(setup: Setup, b: Books, e: Event, i: PaymentId)
    requires PaymentsAgree(b) && CanPost(b, e)
    ensures var b' := Post(setup, b, e);
      (i < |b'.payments| && b'.payments[i].status == Succeeded) <==>
      (i < |b.payments| && b.payments[i].status == Succeeded) || Reports(b, e, i, Succeeded)
  {
    PaymentIsAddedIff(setup, b, e);
    if i < |b.payments| {
      StatusChangesIff(setup, b, e, i, Succeeded);
      SuccessIsKept(setup, b, e, i);
    }
  }

  lemma SuccessIsKept(setup: Setup, b: Books, e: Event, i: PaymentId)
    requires PaymentsAgree(b) && CanPost(b, e) && i < |b.payments|
    ensures b.payments[i].status == Succeeded ==>
      i < |Post(setup, b, e).payments| && Post(setup, b, e).payments[i].status == Succeeded
  {}

  /**
   In every history a payment is succeeded if and only if some event up to now carried the
   provider's report that it has.
   */
  lemma {:induction false} SucceededIffReported(setup: Setup, events: seq<Event>, i: PaymentId)
    requires IsHistory(setup, events)
    ensures var b := BooksAfter(setup, events);
      (i < |b.payments| && b.payments[i].status == Succeeded) <==> SuccessReported(setup, events, i)
  {
    if events != [] {
      var front := events[..|events| - 1];
      SucceededIffReported(setup, front, i);
      ReportedOneMore(setup, events, i);
      HistoryIsSound(setup, front);
      SuccessStays(setup, BooksAfter(setup, front), events[|events| - 1], i);
    }
  }
}
