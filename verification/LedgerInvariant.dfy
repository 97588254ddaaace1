/** Orders, payments, attempts and the two sides of the ledger. */
module LedgerInvariant {
  import opened Prelude
  import opened Tables
  import opened Payments
  import opened Webhooks
  import opened DeskInvariant

  function OrderStatusFor(status: PaymentStatus): OrderStatus {
    match status
    case PayPaid => OrderPaid
    case PayFailed => OrderFailed
    case _ => OrderPending
  }

  /** A payment carries its order's amount, fits its column, is coupled to its order's
      status, and names the order the provider was asked to create for that amount. */
  ghost predicate PaymentOk(orders: seq<Order>, sent: seq<ProviderOrder>, p: Payment) {
    && p.order < |orders|
    && p.tenant == orders[p.order].tenant
    && p.amount == orders[p.order].total
    && p.currency == orders[p.order].currency
    && FitsNumeric10_4(p.amount)
    && p.status != PayPending && p.status != PayAuthorized
    && orders[p.order].status == OrderStatusFor(p.status)
    && p.providerOrder < |sent|
    && var s := sent[p.providerOrder]; s.subunits == SubunitsSent(s.provider, p.amount) && s.currency == p.currency
  }

  ghost predicate HasPayment(payments: seq<Payment>, o: nat) {
    exists p :: 0 <= p < |payments| && payments[p].order == o
  }

  ghost predicate PaymentsOk(orders: seq<Order>, payments: seq<Payment>, sent: seq<ProviderOrder>) {
    && (forall p | 0 <= p < |payments| :: PaymentOk(orders, sent, payments[p]))
    && (forall p, q | 0 <= p < q < |payments| ::
          payments[p].order != payments[q].order && payments[p].providerOrder != payments[q].providerOrder)
    && (forall o | 0 <= o < |orders| && orders[o].status != OrderCreated :: HasPayment(payments, o))
  }

  ghost predicate HasAttempt(attempts: seq<Attempt>, p: nat) {
    exists a :: 0 <= a < |attempts| && attempts[a].payment == p
  }

  predicate AttemptOk(payments: seq<Payment>, a: Attempt) {
    && a.payment < |payments|
    && a.tenant == payments[a.payment].tenant
    && a.amount == payments[a.payment].amount
    && payments[a.payment].status == (if a.status == AttemptSuccess then PayPaid else PayFailed)
  }

  /** One attempt per settled payment, none for the others. */
  ghost predicate AttemptsOk(payments: seq<Payment>, attempts: seq<Attempt>) {
    && (forall a | 0 <= a < |attempts| :: AttemptOk(payments, attempts[a]))
    && (forall a, b | 0 <= a < b < |attempts| :: attempts[a].payment != attempts[b].payment)
    && (forall p | 0 <= p < |payments| && !Open(payments[p].status) :: HasAttempt(attempts, p))
  }

  function PaidBy(tenant: Id): Order -> int {
    (o: Order) => if o.tenant == tenant && o.status == OrderPaid then o.total else 0
  }

  function ReceivedBy(tenant: Id): Attempt -> int {
    (a: Attempt) => if a.tenant == tenant && a.status == AttemptSuccess then a.amount else 0
  }

  ghost predicate LedgerOk(orders: seq<Order>, attempts: seq<Attempt>) {
    forall tenant :: Total(orders, PaidBy(tenant)) == Total(attempts, ReceivedBy(tenant))
  }

  /** Event identifiers drawn here are below the counter they come from. */
  ghost predicate EventsOk(store: Store) {
    forall n: nat :: Generated(n) in store.events ==> n < store.nextEvent
  }

  ghost predicate BankOk(store: Store, sent: seq<ProviderOrder>) {
    && PaymentsOk(store.orders, store.payments, sent)
    && AttemptsOk(store.payments, store.attempts)
    && LedgerOk(store.orders, store.attempts)
    && EventsOk(store)
  }

  lemma BankFrame(a: Store, b: Store, sent: seq<ProviderOrder>)
    requires BankOk(a, sent) && b.orders == a.orders && BankUntouched(a, b)
    ensures BankOk(b, sent)
  {
  }

  // ----- a new order -----

  lemma NewOrderKeepsPaymentsOk(orders: seq<Order>, payments: seq<Payment>, sent: seq<ProviderOrder>, order: Order)
    requires PaymentsOk(orders, payments, sent) && order.status == OrderCreated
    ensures PaymentsOk(orders + [order], payments, sent)
  {
    forall p | 0 <= p < |payments| ensures PaymentOk(orders + [order], sent, payments[p]) {
      assert PaymentOk(orders, sent, payments[p]);
    }
  }

  lemma NewOrderKeepsLedgerOk(orders: seq<Order>, attempts: seq<Attempt>, order: Order)
    requires LedgerOk(orders, attempts) && order.status == OrderCreated
    ensures LedgerOk(orders + [order], attempts)
  {
    forall tenant
      ensures Total(orders + [order], PaidBy(tenant)) == Total(attempts, ReceivedBy(tenant))
    {
      TotalAppend(orders, PaidBy(tenant), order);
    }
  }

  lemma NewOrderKeepsBankOk(a: Store, b: Store, sent: seq<ProviderOrder>)
    requires BankOk(a, sent) && BankUntouched(a, b)
    requires |b.orders| == |a.orders| + 1 && b.orders[..|a.orders|] == a.orders
    requires b.orders[|a.orders|].status == OrderCreated
    ensures BankOk(b, sent)
  {
    var order := b.orders[|a.orders|];
    assert b.orders == a.orders + [order];
    NewOrderKeepsPaymentsOk(a.orders, a.payments, sent, order);
    NewOrderKeepsLedgerOk(a.orders, a.attempts, order);
  }

  // ----- a new payment -----

  /** No order is ever found with a payment still open while it is CREATED. */
  lemma CreatedOrderHasNoPayment(orders: seq<Order>, payments: seq<Payment>, sent: seq<ProviderOrder>, o: nat)
    requires PaymentsOk(orders, payments, sent) && o < |orders|
    ensures orders[o].status == OrderCreated <==> !HasPayment(payments, o)
    ensures orders[o].status == OrderCreated ==> PaymentsAwaiting(payments, o) == []
  {
    forall p | 0 <= p < |payments| && payments[p].order == o
      ensures orders[o].status != OrderCreated
    {
      assert PaymentOk(orders, sent, payments[p]);
    }
    var found := PaymentsAwaiting(payments, o);
    if found != [] {
      assert found[0] in found && payments[found[0]].order == o;
    }
  }

  lemma PaymentsOkGrows(orders: seq<Order>, payments: seq<Payment>, sent: seq<ProviderOrder>, s: ProviderOrder)
    requires PaymentsOk(orders, payments, sent)
    ensures PaymentsOk(orders, payments, sent + [s])
  {
    forall p | 0 <= p < |payments| ensures PaymentOk(orders, sent + [s], payments[p]) {
      assert PaymentOk(orders, sent, payments[p]);
    }
  }

  function PendingPaymentFor(order: Order, o: nat, providerOrder: Id): Payment {
    Payment(order.tenant, o, providerOrder, order.total, order.currency, PayCreated)
  }

  lemma OtherPaymentsStayOk(orders: seq<Order>, payments: seq<Payment>, sent: seq<ProviderOrder>,
                            o: nat, s: ProviderOrder, p: nat)
    requires PaymentsOk(orders, payments, sent) && p < |payments|
    requires o < |orders| && orders[o].status == OrderCreated
    ensures PaymentOk(orders[o := orders[o].(status := OrderPending)], sent + [s], payments[p])
    ensures payments[p].order != o && payments[p].providerOrder != |sent|
  {
    assert PaymentOk(orders, sent, payments[p]);
  }

  lemma NewPaymentKeepsPaymentsOk(orders: seq<Order>, payments: seq<Payment>, sent: seq<ProviderOrder>,
                                  provider: Provider, o: nat)
    requires PaymentsOk(orders, payments, sent)
    requires o < |orders| && orders[o].status == OrderCreated && FitsNumeric10_4(orders[o].total)
    ensures var order := orders[o];
            PaymentsOk(orders[o := order.(status := OrderPending)],
                       payments + [PendingPaymentFor(order, o, |sent|)],
                       sent + [ProviderOrder(provider, SubunitsSent(provider, order.total), order.currency)])
  {
    var order := orders[o];
    var orders' := orders[o := order.(status := OrderPending)];
    var payments' := payments + [PendingPaymentFor(order, o, |sent|)];
    var s := ProviderOrder(provider, SubunitsSent(provider, order.total), order.currency);
    assert PaymentOk(orders', sent + [s], payments'[|payments|]);
    forall p | 0 <= p < |payments|
      ensures PaymentOk(orders', sent + [s], payments[p])
      ensures payments[p].order != o && payments[p].providerOrder != |sent|
    {
      OtherPaymentsStayOk(orders, payments, sent, o, s, p);
    }
    hide PaymentOk;
    EveryOrderKeepsPayment(orders, payments, sent, o, payments'[|payments|]);
  }

  lemma EveryOrderKeepsPayment(orders: seq<Order>, payments: seq<Payment>, sent: seq<ProviderOrder>, o: nat, payment: Payment)
    requires PaymentsOk(orders, payments, sent) && o < |orders| && payment.order == o
    ensures forall n | 0 <= n < |orders| && (n == o || orders[n].status != OrderCreated) :: HasPayment(payments + [payment], n)
  {
    hide PaymentOk;
    forall n | 0 <= n < |orders| && (n == o || orders[n].status != OrderCreated)
      ensures HasPayment(payments + [payment], n)
    {
      var p := if n == o then |payments| else var p :| 0 <= p < |payments| && payments[p].order == n; p;
      assert (payments + [payment])[p].order == n;
    }
  }

  lemma NewPaymentKeepsAttemptsOk(payments: seq<Payment>, attempts: seq<Attempt>, payment: Payment)
    requires AttemptsOk(payments, attempts) && payment.status == PayCreated
    ensures AttemptsOk(payments + [payment], attempts)
  {
    forall a | 0 <= a < |attempts| ensures AttemptOk(payments + [payment], attempts[a]) {
      assert AttemptOk(payments, attempts[a]);
    }
  }

  lemma StatusKeepsLedgerOk(orders: seq<Order>, attempts: seq<Attempt>, o: nat, status: OrderStatus)
    requires LedgerOk(orders, attempts) && o < |orders|
    requires orders[o].status != OrderPaid && status != OrderPaid
    ensures LedgerOk(orders[o := orders[o].(status := status)], attempts)
  {
    var orders' := orders[o := orders[o].(status := status)];
    forall tenant
      ensures Total(orders', PaidBy(tenant)) == Total(attempts, ReceivedBy(tenant))
    {
      TotalUpdate(orders, PaidBy(tenant), o, orders'[o]);
    }
  }

  lemma CreatePaymentKeepsBankOk(store: Store, sent: seq<ProviderOrder>, provider: Provider, tenant: Id, o: nat)
    requires BankOk(store, sent)
    ensures var r := CreatePayment(store, sent, provider, tenant, o);
            var after := if r.result.Ok? then r.result.value else store;
            BankOk(after, r.sent) && OnlyStatus(store.orders, after.orders)
            && after.shop == store.shop && after.quotes == store.quotes && after.confirmations == store.confirmations
  {
    var r := CreatePayment(store, sent, provider, tenant, o);
    if o < |store.orders| && store.orders[o].tenant == tenant && store.orders[o].status == OrderCreated {
      var order := store.orders[o];
      CreatedOrderHasNoPayment(store.orders, store.payments, sent, o);
      PaymentsOkGrows(store.orders, store.payments, sent, r.sent[|sent|]);
      if FitsNumeric10_4(order.total) {
        NewPaymentKeepsPaymentsOk(store.orders, store.payments, sent, provider, o);
        NewPaymentKeepsAttemptsOk(store.payments, store.attempts, r.result.value.payments[|store.payments|]);
        StatusKeepsLedgerOk(store.orders, store.attempts, o, OrderPending);
      }
    }
  }

  // ----- a verdict -----

  lemma VerdictKeepsPaymentsOk(orders: seq<Order>, payments: seq<Payment>, sent: seq<ProviderOrder>, p: nat, status: PaymentStatus)
    requires PaymentsOk(orders, payments, sent) && p < |payments|
    requires status == PayPaid || status == PayFailed
    ensures var o := payments[p].order;
            PaymentsOk(orders[o := orders[o].(status := OrderStatusFor(status))],
                       payments[p := payments[p].(status := status)], sent)
  {
    var o := payments[p].order;
    assert PaymentOk(orders, sent, payments[p]);
    var orders' := orders[o := orders[o].(status := OrderStatusFor(status))];
    var payments' := payments[p := payments[p].(status := status)];
    forall q | 0 <= q < |payments'| ensures PaymentOk(orders', sent, payments'[q]) {
      assert PaymentOk(orders, sent, payments[q]);
      assert q != p ==> payments[q].order != o;
    }
    forall n | 0 <= n < |orders'| && orders'[n].status != OrderCreated ensures HasPayment(payments', n) {
      var q := if n == o then p else var q :| 0 <= q < |payments| && payments[q].order == n; q;
      assert payments'[q].order == n;
    }
  }

  lemma VerdictKeepsAttemptsOk(payments: seq<Payment>, attempts: seq<Attempt>, p: nat, status: AttemptStatus)
    requires AttemptsOk(payments, attempts) && p < |payments| && Open(payments[p].status)
    ensures AttemptsOk(payments[p := payments[p].(status := if status == AttemptSuccess then PayPaid else PayFailed)],
                       attempts + [Attempt(payments[p].tenant, p, payments[p].amount, status)])
  {
    var payments' := payments[p := payments[p].(status := if status == AttemptSuccess then PayPaid else PayFailed)];
    var attempts' := attempts + [Attempt(payments[p].tenant, p, payments[p].amount, status)];
    forall a | 0 <= a < |attempts'| ensures AttemptOk(payments', attempts'[a]) {
      if a < |attempts| {
        assert AttemptOk(payments, attempts[a]);
      }
    }
    forall a, b | 0 <= a < b < |attempts'| ensures attempts'[a].payment != attempts'[b].payment {
      assert AttemptOk(payments, attempts[a]);
    }
    forall q | 0 <= q < |payments'| && !Open(payments'[q].status) ensures HasAttempt(attempts', q) {
      var a := if q == p then |attempts| else var a :| 0 <= a < |attempts| && attempts[a].payment == q; a;
      assert attempts'[a].payment == q;
    }
  }

  /** A capture moves the same amount to both sides of its tenant's ledger. */
  lemma VerdictKeepsLedgerOk(orders: seq<Order>, attempts: seq<Attempt>, o: nat, attempt: Attempt)
    requires LedgerOk(orders, attempts) && o < |orders| && orders[o].status != OrderPaid
    requires attempt.tenant == orders[o].tenant && attempt.amount == orders[o].total
    ensures LedgerOk(orders[o := orders[o].(status := if attempt.status == AttemptSuccess then OrderPaid else OrderFailed)],
                     attempts + [attempt])
  {
    var orders' := orders[o := orders[o].(status := if attempt.status == AttemptSuccess then OrderPaid else OrderFailed)];
    forall tenant
      ensures Total(orders', PaidBy(tenant)) == Total(attempts + [attempt], ReceivedBy(tenant))
    {
      TotalUpdate(orders, PaidBy(tenant), o, orders'[o]);
      TotalAppend(attempts, ReceivedBy(tenant), attempt);
    }
  }

  lemma RecordKeepsBankOk(store: Store, sent: seq<ProviderOrder>, d: Delivery, p: nat)
    requires BankOk(store, sent) && p < |store.payments|
    ensures var after := Record(store, d, p, store.payments[p].status).0;
            BankOk(after, sent) && OnlyStatus(store.orders, after.orders)
  {
    var payment := store.payments[p];
    assert PaymentOk(store.orders, sent, payment);
    if d.kind.Some? && Deciding(d) && Open(payment.status) {
      var (paymentStatus, orderStatus, attemptStatus) := VerdictOf(d);
      VerdictKeepsPaymentsOk(store.orders, store.payments, sent, p, paymentStatus);
      VerdictKeepsAttemptsOk(store.payments, store.attempts, p, attemptStatus);
      VerdictKeepsLedgerOk(store.orders, store.attempts, payment.order,
                           Attempt(payment.tenant, p, payment.amount, attemptStatus));
    }
  }

  lemma WebhookKeepsBankOk(store: Store, sent: seq<ProviderOrder>, d: Delivery)
    requires BankOk(store, sent)
    ensures var after := Webhook(store, d).0;
            BankOk(after, sent) && OnlyStatus(store.orders, after.orders)
            && after.shop == store.shop && after.quotes == store.quotes && after.confirmations == store.confirmations
  {
    var screening := Screen(store.payments, d);
    if screening.Pass? {
      RecordKeepsBankOk(store, sent, d, screening.payment);
    }
  }
}
