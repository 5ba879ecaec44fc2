/**
 The money ledger over the dispatch protocol. A completed trip accrues its commission and
 the driver's earnings inside the step that completes it; commission payments are started,
 recorded, confirmed by webhook and polled in any order and any number of times. Amounts
 are exact decimals, written as reals.
 */
module Ledger {
  import opened Prelude
  import opened TripLifecycle
  import opened DispatchModel
  import opened Rounding

  type PaymentId = nat

  /** The money columns of a trip row. */
  datatype TripMoney = TripMoney(estimate: Option<real>, finalPrice: Option<real>, commission: Option<real>)

  datatype Account = Account(balance: real, due: real)

  datatype PaymentStatus = Unsettled | Succeeded | Failed | Expired

  datatype Payment = Payment(driver: DriverId, amount: real, status: PaymentStatus,
                             transactionRef: Option<string>, orderId: Option<string>, notifToken: Option<string>)

  /** The provider's answer to an initiation, and a verified webhook payload. */
  datatype Initiation = Initiation(transactionRef: string, orderId: Option<string>,
                                   notifToken: Option<string>, status: PaymentStatus)
  datatype Verification = Verification(valid: bool, transactionRef: Option<string>, orderId: Option<string>,
                                       notifToken: Option<string>, status: Option<PaymentStatus>)

  /**
   `inFlight` holds the payments whose initiation call has not come back; `marked` lists
   the payments in the order in which the commission service was told they were paid.
   */
  datatype Books = Books(
    system: State,
    money: map<TripId, TripMoney>,
    accounts: map<DriverId, Account>,
    payments: seq<Payment>,
    inFlight: set<PaymentId>,
    marked: seq<PaymentId>)

  const EMPTY_BOOKS := Books(EMPTY_STATE, map[], map[], [], {}, [])

  function AccountOf(b: Books, d: DriverId): Account {
    if d in b.accounts then b.accounts[d] else Account(0.0, 0.0)
  }

  /** An absent or empty string is falsy. */
  predicate Truthy(text: Option<string>) {
    text.Some? && text.value != ""
  }

  // ---------------------------------------------------------------- completion

  /** The trip whose completion event the step emits, if it emits one. */
  function CompletedTrip(s: State, step: Step): Option<TripId> {
    match step
    case StepUpdateStatus(t, actor, to) =>
      if to == Completed && UpdateStatus(s, t, actor, to).outcome == Done then Some(t) else None
    case StepComplete(t, actor) => if DriverOwns(s, t, actor) == Done then Some(t) else None
    case _ => None
  }

  /** The completion handler: skipped without a driver or a final price. */
  function HandleTripCompleted(b: Books, t: TripId, percentage: real): Books {
    if t !in b.system.trips || t !in b.money || b.system.trips[t].driver == None || b.money[t].finalPrice == None
    then b
    else
      var d := b.system.trips[t].driver.value;
      var price := b.money[t].finalPrice.value;
      var c := Commission(price, percentage);
      var account := AccountOf(b, d);
      b.(money := b.money[t := b.money[t].(commission := Some(c))],
         accounts := b.accounts[d := Account(account.balance + (price - c), account.due + c)])
  }

  /** One step of the trips, with the estimate of a new trip and the percentage in force. */
  function HandleTrips(setup: Setup, b: Books, step: Step, estimate: Option<real>, percentage: real): Books {
    var b1 := b.(system := Next(setup, b.system, step));
    var completed := CompletedTrip(b.system, step);
    if step.StepCreate? then b1.(money := b1.money[step.trip := TripMoney(estimate, None, None)])
    else if completed.Some? && completed.value in b.money then
      var row := b.money[completed.value];
      var b2 := b1.(money := b1.money[completed.value := row.(finalPrice := row.estimate)]);
      HandleTripCompleted(b2, completed.value, percentage)
    else b1
  }

  // ------------------------------------------------------------------ payments

  function MarkCommissionPaid(b: Books, d: DriverId, amount: real): Books {
    var account := AccountOf(b, d);
    b.(accounts := b.accounts[d := account.(due := account.due - amount)])
  }

  function ApplyPaymentSuccess(b: Books, i: PaymentId): Books
    requires i < |b.payments|
  {
    MarkCommissionPaid(b.(marked := b.marked + [i]), b.payments[i].driver, b.payments[i].amount)
  }

  /** A status write, and the reconciliation when the status is `Succeeded`. */
  function Settle(b: Books, i: PaymentId, payment: Payment): Books
    requires i < |b.payments|
  {
    var b1 := b.(payments := b.payments[i := payment]);
    if payment.status == Succeeded then ApplyPaymentSuccess(b1, i) else b1
  }

  /** The smallest amount the request validation lets through. */
  const MIN_PAYMENT := 100.0

  /** First half of an initiation: the row, before the provider is called. */
  function StartPayment(b: Books, profile: Option<DriverId>, amount: real): Books {
    if amount < MIN_PAYMENT || profile == None then b
    else b.(payments := b.payments + [Payment(profile.value, amount, Unsettled, None, None, None)],
            inFlight := b.inFlight + {|b.payments|})
  }

  /** The unique constraints on the transaction reference and the order id. */
  predicate Collides(b: Books, i: PaymentId, r: Initiation) {
    exists j :: 0 <= j < |b.payments| && j != i &&
      (b.payments[j].transactionRef == Some(r.transactionRef) ||
       (r.orderId.Some? && b.payments[j].orderId == r.orderId))
  }

  function Recorded(p: Payment, r: Initiation): Payment {
    p.(transactionRef := Some(r.transactionRef), orderId := r.orderId, notifToken := r.notifToken,
       status := if r.status in {Succeeded, Failed} then r.status else Unsettled)
  }

  /** Second half: the provider's answer is stored; `None` stands for a call that failed. */
  function RecordPayment(b: Books, i: PaymentId, answer: Option<Initiation>): Books {
    var b1 := b.(inFlight := b.inFlight - {i});
    if i >= |b.payments| || answer == None || Collides(b, i, answer.value) then b1
    else Settle(b1, i, Recorded(b.payments[i], answer.value))
  }

  /** What the three lookups of the webhook return: by token, else by reference, else by order. */
  ghost predicate IsMatch(b: Books, v: Verification, found: Option<PaymentId>) {
    if Truthy(v.notifToken) && exists i :: 0 <= i < |b.payments| && b.payments[i].notifToken == v.notifToken then
      found.Some? && found.value < |b.payments| && b.payments[found.value].notifToken == v.notifToken
    else if Truthy(v.transactionRef) && exists i :: 0 <= i < |b.payments| && b.payments[i].transactionRef == v.transactionRef then
      found.Some? && found.value < |b.payments| && b.payments[found.value].transactionRef == v.transactionRef
    else if Truthy(v.orderId) && exists i :: 0 <= i < |b.payments| && b.payments[i].orderId == v.orderId then
      found.Some? && found.value < |b.payments| && b.payments[found.value].orderId == v.orderId
    else found == None
  }

  function ReportedStatus(v: Verification): PaymentStatus {
    if v.status == Some(Succeeded) then Succeeded
    else if v.status == Some(Expired) then Expired
    else Failed
  }

  datatype WebhookReply = Unprocessed | AlreadyProcessed | Processed(status: PaymentStatus)

  function AnswerWebhook(b: Books, v: Verification, found: Option<PaymentId>): WebhookReply {
    if !v.valid || found == None || found.value >= |b.payments| then Unprocessed
    else if b.payments[found.value].status == Succeeded then AlreadyProcessed
    else Processed(ReportedStatus(v))
  }

  function HandleWebhook(b: Books, v: Verification, found: Option<PaymentId>): Books {
    if !AnswerWebhook(b, v, found).Processed? then b
    else Settle(b, found.value, b.payments[found.value].(status := ReportedStatus(v)))
  }

  datatype PollReply = PaymentNotFound | Status(status: PaymentStatus)

  /** `answer` is the provider's status, absent when the provider cannot be asked or fails. */
  predicate PollSettles(b: Books, i: PaymentId, caller: Option<DriverId>, answer: Option<PaymentStatus>) {
    i < |b.payments| && caller == Some(b.payments[i].driver) && b.payments[i].status == Unsettled &&
    Truthy(b.payments[i].transactionRef) && Truthy(b.payments[i].orderId) &&
    answer.Some? && answer.value != Unsettled
  }

  function CheckPaymentStatus(b: Books, i: PaymentId, caller: Option<DriverId>, answer: Option<PaymentStatus>): Books {
    if PollSettles(b, i, caller, answer) then Settle(b, i, b.payments[i].(status := answer.value)) else b
  }

  function AnswerPoll(b: Books, i: PaymentId, caller: Option<DriverId>, answer: Option<PaymentStatus>): PollReply {
    if i >= |b.payments| || caller != Some(b.payments[i].driver) then PaymentNotFound
    else if PollSettles(b, i, caller, answer) then Status(answer.value)
    else Status(b.payments[i].status)
  }

  // ---------------------------------------------------------------------- runs

  datatype Event =
    | Trips(step: Step, estimate: Option<real>, percentage: real)
    | Start(profile: Option<DriverId>, amount: real)
    | Record(payment: PaymentId, initiation: Option<Initiation>)
    | Webhook(verification: Verification, found: Option<PaymentId>)
    | Poll(payment: PaymentId, caller: Option<DriverId>, answer: Option<PaymentStatus>)

  function Post(setup: Setup, b: Books, e: Event): Books {
    match e
    case Trips(step, estimate, percentage) => HandleTrips(setup, b, step, estimate, percentage)
    case Start(profile, amount) => StartPayment(b, profile, amount)
    case Record(i, answer) => RecordPayment(b, i, answer)
    case Webhook(v, found) => HandleWebhook(b, v, found)
    case Poll(i, caller, answer) => CheckPaymentStatus(b, i, caller, answer)
  }

  /** Trip steps as in the dispatch runs; an initiation is answered once; lookups are true. */
  ghost predicate CanPost(b: Books, e: Event) {
    match e
    case Trips(step, _, _) => Possible(b.system, step)
    case Record(i, _) => i in b.inFlight
    case Webhook(v, found) => IsMatch(b, v, found)
    case _ => true
  }

  function BooksAfter(setup: Setup, events: seq<Event>): Books {
    if events == [] then EMPTY_BOOKS
    else Post(setup, BooksAfter(setup, events[..|events| - 1]), events[|events| - 1])
  }

  ghost predicate IsHistory(setup: Setup, events: seq<Event>) {
    events == [] ||
    (IsHistory(setup, events[..|events| - 1]) &&
     CanPost(BooksAfter(setup, events[..|events| - 1]), events[|events| - 1]))
  }
}
