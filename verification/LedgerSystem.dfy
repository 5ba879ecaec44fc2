/**
 The payment and commission services as they run, over the payment rows, the driver
 accounts and the money columns of the trips. The trips themselves are moved by the
 dispatch services; `system` is their state, and `HandleTrips` the money side of a step.
 */
module LedgerSystem {
  import opened Prelude
  import opened DispatchModel
  import opened Rounding
  import opened Ledger
  import opened LedgerRuns

  class MoneyServices {
    const setup: Setup
    var system: State
    var money: map<TripId, TripMoney>
    var accounts: map<DriverId, Account>
    var payments: seq<Payment>
    var inFlight: set<PaymentId>
    var marked: seq<PaymentId>
    ghost var history: seq<Event>

    ghost function View(): Books
      reads this
    {
      Books(system, money, accounts, payments, inFlight, marked)
    }

    ghost predicate Valid()
      reads this
    {
      IsHistory(setup, history) && View() == BooksAfter(setup, history)
    }

    constructor (setup: Setup)
      ensures Valid() && history == [] && this.setup == setup && View() == EMPTY_BOOKS
    {
      this.setup := setup;
      system, money, accounts, payments, inFlight, marked := EMPTY_STATE, map[], map[], [], {}, [];
      history := [];
    }

    ghost method Log(e: Event, before: Books)
      requires IsHistory(setup, history) && before == BooksAfter(setup, history)
      requires CanPost(before, e) && View() == Post(setup, before, e)
      modifies this`history
      ensures Valid() && history == old(history) + [e]
    {
      HistoryGrows(setup, history, e);
      history := history + [e];
    }

    // ------------------------------------------------------- commissions service

    method HandleTripCompleted(t: TripId, percentage: real)
      modifies this`money, this`accounts
      ensures View() == Ledger.HandleTripCompleted(old(View()), t, percentage)
    {
      if t !in system.trips || t !in money || system.trips[t].driver == None || money[t].finalPrice == None {
        return;
      }
      var d := system.trips[t].driver.value;
      var finalPrice := money[t].finalPrice.value;
      var commission := Commission(finalPrice, percentage);
      money := money[t := money[t].(commission := Some(commission))];
      var account := if d in accounts then accounts[d] else Account(0.0, 0.0);
      accounts := accounts[d := Account(account.balance + (finalPrice - commission), account.due + commission)];
    }

    method MarkCommissionPaid(d: DriverId, amount: real)
      modifies this`accounts
      ensures View() == Ledger.MarkCommissionPaid(old(View()), d, amount)
    {
      var account := if d in accounts then accounts[d] else Account(0.0, 0.0);
      accounts := accounts[d := Account(account.balance, account.due - amount)];
    }

    method HandleTrips(step: Step, estimate: Option<real>, percentage: real)
      requires Valid() && Possible(system, step)
      modifies this
      ensures Valid() && history == old(history) + [Trips(step, estimate, percentage)]
      ensures View() == Ledger.HandleTrips(setup, old(View()), step, estimate, percentage)
    {
      ghost var b := View();
      MoveTrips(step, estimate, percentage);
      Log(Trips(step, estimate, percentage), b);
    }

    method MoveTrips(step: Step, estimate: Option<real>, percentage: real)
      modifies this`system, this`money, this`accounts
      ensures View() == Ledger.HandleTrips(setup, old(View()), step, estimate, percentage)
    {
      var completed := CompletedTrip(system, step);
      system := Next(setup, system, step);
      if step.StepCreate? {
        money := money[step.trip := TripMoney(estimate, None, None)];
      } else if completed.Some? && completed.value in money {
        var t := completed.value;
        money := money[t := money[t].(finalPrice := money[t].estimate)];
        HandleTripCompleted(t, percentage);
      }
    }

    // ---------------------------------------------------------- payments service

    method ApplyPaymentSuccess(i: PaymentId, d: DriverId, amount: real)
      requires i < |payments| && d == payments[i].driver && amount == payments[i].amount
      modifies this`accounts, this`marked
      ensures View() == Ledger.ApplyPaymentSuccess(old(View()), i)
    {
      marked := marked + [i];
      MarkCommissionPaid(d, amount);
    }

    method WritePayment(i: PaymentId, payment: Payment)
      requires i < |payments|
      modifies this`payments, this`accounts, this`marked
      ensures View() == Settle(old(View()), i, payment)
    {
      payments := payments[i := payment];
      if payment.status == Succeeded {
        ApplyPaymentSuccess(i, payment.driver, payment.amount);
      }
    }

    /** The initiation up to the call of the provider; `None` for a refused amount or without a driver profile. */
    method StartPayment(profile: Option<DriverId>, amount: real) returns (i: Option<PaymentId>)
      requires Valid()
      modifies this
      ensures Valid() && history == old(history) + [Start(profile, amount)]
      ensures View() == Ledger.StartPayment(old(View()), profile, amount)
      ensures i == if amount >= MIN_PAYMENT && profile.Some? then Some(|old(payments)|) else None
    {
      ghost var b := View();
      i := None;
      if amount >= MIN_PAYMENT && profile.Some? {
        i := Some(|payments|);
        inFlight := inFlight + {|payments|};
        payments := payments + [Payment(profile.value, amount, Unsettled, None, None, None)];
      }
      Log(Start(profile, amount), b);
    }

    /** The initiation from the provider's answer on; false when it fails. */
    method RecordPayment(i: PaymentId, answer: Option<Initiation>) returns (ok: bool)
      requires Valid() && i in inFlight
      modifies this
      ensures Valid() && history == old(history) + [Record(i, answer)]
      ensures View() == Ledger.RecordPayment(old(View()), i, answer)
      ensures ok <==> answer.Some? && !Collides(old(View()), i, answer.value)
    {
      ghost var b := View();
      HistoryIsSound(setup, history);
      ok := StoreAnswer(i, answer);
      Log(Record(i, answer), b);
    }

    method StoreAnswer(i: PaymentId, answer: Option<Initiation>) returns (ok: bool)
      requires i < |payments|
      modifies this`payments, this`accounts, this`marked, this`inFlight
      ensures View() == Ledger.RecordPayment(old(View()), i, answer)
      ensures ok <==> answer.Some? && !Collides(old(View()), i, answer.value)
    {
      inFlight := inFlight - {i};
      if answer == None {
        return false;
      }
      var r := answer.value;
      if exists j :: 0 <= j < |payments| && j != i &&
           (payments[j].transactionRef == Some(r.transactionRef) ||
            (r.orderId.Some? && payments[j].orderId == r.orderId)) {
        return false;
      }
      var status := if r.status == Succeeded then Succeeded else if r.status == Failed then Failed else Unsettled;
      WritePayment(i, Payment(payments[i].driver, payments[i].amount, status,
                              Some(r.transactionRef), r.orderId, r.notifToken));
      ok := true;
    }

    /** The lookups of the webhook, in order; each stops at the first row the store returns. */
    method FindPayment(v: Verification) returns (found: Option<PaymentId>)
      ensures IsMatch(View(), v, found)
    {
      found := None;
      if Truthy(v.notifToken) {
        if i :| 0 <= i < |payments| && payments[i].notifToken == v.notifToken {
          found := Some(i);
        }
      }
      if found == None && Truthy(v.transactionRef) {
        if i :| 0 <= i < |payments| && payments[i].transactionRef == v.transactionRef {
          found := Some(i);
        }
      }
      if found == None && Truthy(v.orderId) {
        if i :| 0 <= i < |payments| && payments[i].orderId == v.orderId {
          found := Some(i);
        }
      }
    }

    method HandleWebhook(v: Verification) returns (reply: WebhookReply, ghost found: Option<PaymentId>)
      requires Valid()
      modifies this
      ensures Valid() && history == old(history) + [Webhook(v, found)]
      ensures IsMatch(old(View()), v, found)
      ensures View() == Ledger.HandleWebhook(old(View()), v, found)
      ensures reply == AnswerWebhook(old(View()), v, found)
    {
      ghost var b := View();
      var row := FindPayment(v);
      found := row;
      reply := Reconcile(v, row);
      Log(Webhook(v, row), b);
    }

    method Reconcile(v: Verification, found: Option<PaymentId>) returns (reply: WebhookReply)
      requires found.Some? ==> found.value < |payments|
      modifies this`payments, this`accounts, this`marked
      ensures View() == Ledger.HandleWebhook(old(View()), v, found)
      ensures reply == AnswerWebhook(old(View()), v, found)
    {
      if !v.valid || found == None {
        return Unprocessed;
      }
      var payment := payments[found.value];
      if payment.status == Succeeded {
        return AlreadyProcessed;
      }
      var status := match v.status
        case Some(Succeeded) => Succeeded
        case Some(Expired) => Expired
        case _ => Failed;
      WritePayment(found.value, payment.(status := status));
      reply := Processed(status);
    }

    method CheckPaymentStatus(i: PaymentId, caller: Option<DriverId>, answer: Option<PaymentStatus>) returns (reply: PollReply)
      requires Valid()
      modifies this
      ensures Valid() && history == old(history) + [Poll(i, caller, answer)]
      ensures View() == Ledger.CheckPaymentStatus(old(View()), i, caller, answer)
      ensures reply == AnswerPoll(old(View()), i, caller, answer)
    {
      ghost var b := View();
      reply := PollPayment(i, caller, answer);
      Log(Poll(i, caller, answer), b);
    }

    method PollPayment(i: PaymentId, caller: Option<DriverId>, answer: Option<PaymentStatus>) returns (reply: PollReply)
      modifies this`payments, this`accounts, this`marked
      ensures View() == Ledger.CheckPaymentStatus(old(View()), i, caller, answer)
      ensures reply == AnswerPoll(old(View()), i, caller, answer)
    {
      if i >= |payments| || caller != Some(payments[i].driver) {
        return PaymentNotFound;
      }
      var payment := payments[i];
      if payment.status != Unsettled {
        return Status(payment.status);
      }
      if Truthy(payment.transactionRef) && Truthy(payment.orderId) && answer.Some? && answer.value != Unsettled {
        WritePayment(i, payment.(status := answer.value));
        return Status(answer.value);
      }
      reply := Status(payment.status);
    }
  }
}
