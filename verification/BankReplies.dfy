/** Which answer a payment request or a notification gets, and the whole of what it writes. */
module BankReplies {
  import opened Prelude
  import opened Tables
  import opened Carts
  import opened Checkout
  import opened Payments
  import opened Webhooks
  import opened Machine
  import opened CartInvariant
  import opened DeskInvariant
  import opened LedgerInvariant
  import opened Deliveries
  import opened Safety
  import opened Money

  // ----- amounts in subunits -----

  /** A nearest whole subunit, the even one from half way. */
  predicate IsNearest(amount: int, n: int) {
    && -50 <= 100 * n - amount <= 50
    && (100 * n - amount == 50 || 100 * n - amount == -50 ==> n % 2 == 0)
  }

  /** What the provider is told an amount is: Razorpay the nearest subunit, the fake one what
      is left when fractions are dropped. */
  predicate IsSent(provider: Provider, amount: int, n: int) {
    match provider
    case Razorpay => IsNearest(amount, n)
    case FakeProvider => if amount >= 0 then 100 * n <= amount < 100 * n + 100 else 100 * n - 100 < amount <= 100 * n
  }

  lemma RoundedIff(amount: int, n: int)
    ensures RoundedSubunits(amount) == n <==> IsNearest(amount, n)
  {
  }

  lemma SentIff(provider: Provider, amount: int, n: int)
    ensures SubunitsSent(provider, amount) == n <==> IsSent(provider, amount, n)
  {
    RoundedIff(amount, n);
  }

  // ----- payment requests -----

  predicate OwnOrder(s: Sys, tenant: Id, o: nat) {
    o < |s.store.orders| && s.store.orders[o].tenant == tenant
  }

  /** The total fits its ten-digit column with four decimal places. */
  predicate Affordable(order: Order) {
    order.subtotal <= 8_474_576_200
  }

  predicate PayRefused(s: Sys, tenant: Id, o: nat, e: Error) {
    match e
    case OrderNotFound => !OwnOrder(s, tenant, o)
    case OrderNotCreated => OwnOrder(s, tenant, o) && s.store.orders[o].status != OrderCreated
    case NumericOverflow => OwnOrder(s, tenant, o) && s.store.orders[o].status == OrderCreated && !Affordable(s.store.orders[o])
    case _ => false
  }

  /** One order more at the provider, for this order's amount and currency. */
  ghost predicate AskedProvider(before: seq<ProviderOrder>, after: seq<ProviderOrder>, provider: Provider, order: Order) {
    |after| == |before| + 1 && after[..|before|] == before
    && after[|before|].provider == provider && after[|before|].currency == order.currency
    && IsSent(provider, order.total, after[|before|].subunits)
  }

  /** One payment more, of this order and for what it comes to, and the order waits for it. */
  predicate NewPayment(s: Sys, tenant: Id, o: nat, after: Store)
    requires o < |s.store.orders|
  {
    var order := s.store.orders[o];
    after == s.store.(
      payments := s.store.payments + [Payment(tenant, o, |s.sent|, order.total, order.currency, PayCreated)],
      orders := s.store.orders[o := order.(status := OrderPending)])
  }

  lemma PayAnswer(s: Sys, tenant: Id, o: nat, provider: Provider)
    requires Reachable(s)
    ensures var r := CreatePayment(s.store, s.sent, provider, tenant, o);
            if !OwnOrder(s, tenant, o) then r == PayOutcome(s.sent, Err(OrderNotFound))
            else if s.store.orders[o].status != OrderCreated then r == PayOutcome(s.sent, Err(OrderNotCreated))
            else
              && AskedProvider(s.sent, r.sent, provider, s.store.orders[o])
              && if Affordable(s.store.orders[o]) then r.result.Ok? && NewPayment(s, tenant, o, r.result.value)
                 else r.result == Err(NumericOverflow)
  {
    hide Reachable, PaymentsAwaiting, Priced;
    if OwnOrder(s, tenant, o) && s.store.orders[o].status == OrderCreated {
      CreatedOrderIsPriced(s, o);
      PaymentFits(s.store, s.sent, o, provider);
      SentIff(provider, s.store.orders[o].total, SubunitsSent(provider, s.store.orders[o].total));
      hide SubunitsSent, IsSent, CreatePayment;
    }
  }

  /** In a reachable state a payment request succeeds exactly for a CREATED order of the
      tenant within the payable amount, and is refused otherwise for the reason that holds;
      the provider is asked exactly when the order is the tenant's and CREATED. */
  lemma PayIff(s: Sys, tenant: Id, o: nat, provider: Provider)
    requires Reachable(s)
    ensures var r := CreatePayment(s.store, s.sent, provider, tenant, o);
            && (forall e :: r.result == Err(e) <==> PayRefused(s, tenant, o, e))
            && (r.result.Ok? <==> OwnOrder(s, tenant, o) && s.store.orders[o].status == OrderCreated && Affordable(s.store.orders[o]))
            && (r.result.Ok? ==> NewPayment(s, tenant, o, r.result.value))
            && (if OwnOrder(s, tenant, o) && s.store.orders[o].status == OrderCreated
                then AskedProvider(s.sent, r.sent, provider, s.store.orders[o]) else r.sent == s.sent)
  {
    PayAnswer(s, tenant, o, provider);
    hide Reachable, CreatePayment, NewPayment, AskedProvider, Affordable;
  }

  // ----- notifications -----

  /** The notification names this payment's order at the provider. */
  predicate Named(store: Store, d: Delivery, p: nat) {
    p < |store.payments| && d.order == Some(store.payments[p].providerOrder)
  }

  predicate AmountFits(store: Store, d: Delivery, p: nat)
    requires p < |store.payments|
  {
    d.amount.Some? ==> IsNearest(store.payments[p].amount, d.amount.value)
  }

  predicate CurrencyFits(store: Store, d: Delivery, p: nat)
    requires p < |store.payments|
  {
    d.currency.Some? ==> d.currency.value == store.payments[p].currency
  }

  /** Names the payment and agrees with it in whatever amount and currency it gives. */
  predicate Agrees(store: Store, d: Delivery, p: nat) {
    Named(store, d, p) && AmountFits(store, d, p) && CurrencyFits(store, d, p)
  }

  predicate Known(store: Store, d: Delivery) {
    d.id.Some? && Given(d.id.value) in store.events
  }

  ghost predicate Replies(store: Store, d: Delivery, reply: Reply) {
    match reply
    case NoOrderId => d.order.None?
    case UnknownOrder => d.order.Some? && forall p: nat :: !Named(store, d, p)
    case Rejected(AmountMismatch) => exists p: nat :: Named(store, d, p) && !AmountFits(store, d, p)
    case Rejected(CurrencyMismatch) => exists p: nat :: Named(store, d, p) && AmountFits(store, d, p) && !CurrencyFits(store, d, p)
    case AlreadyProcessed => (exists p: nat :: Agrees(store, d, p)) && Known(store, d)
    case Rejected(NullViolation) => (exists p: nat :: Agrees(store, d, p)) && !Known(store, d) && d.kind.None?
    case Accepted => (exists p: nat :: Agrees(store, d, p)) && !Known(store, d) && d.kind.Some?
    case _ => false
  }

  /** What an accepted notification about payment `p` writes: its event, and if it says
      captured or failed while the payment is neither, the verdict. */
  ghost predicate Records(store: Store, d: Delivery, p: nat, after: Store)
    requires p < |store.payments| && store.payments[p].order < |store.orders|
  {
    var payment, o := store.payments[p], store.payments[p].order;
    && (forall x: Id :: Given(x) in after.events <==> Given(x) in store.events || d.id == Some(x))
    && after.shop == store.shop && after.quotes == store.quotes && after.confirmations == store.confirmations
    && if (d.kind != Some(Captured) && d.kind != Some(Failed)) || payment.status == PayPaid || payment.status == PayFailed then
         after.payments == store.payments && after.orders == store.orders && after.attempts == store.attempts
       else
         var paid := d.kind == Some(Captured);
         && after.payments == store.payments[p := payment.(status := if paid then PayPaid else PayFailed)]
         && after.orders == store.orders[o := store.orders[o].(status := if paid then OrderPaid else OrderFailed)]
         && after.attempts == store.attempts
              + [Attempt(payment.tenant, p, payment.amount, if paid then AttemptSuccess else AttemptFailed)]
  }

  /** The tables keep provider orders apart and payments on orders. */
  ghost predicate Apart(store: Store) {
    && (forall p, q | 0 <= p < q < |store.payments| :: store.payments[p].providerOrder != store.payments[q].providerOrder)
    && (forall p | 0 <= p < |store.payments| :: store.payments[p].order < |store.orders|)
    && Generated(store.nextEvent) !in store.events
  }

  lemma OnlyNamed(store: Store, d: Delivery, p: nat)
    requires Apart(store) && Named(store, d, p)
    ensures forall q: nat :: Named(store, d, q) <==> q == p
    ensures PaymentsOf(store.payments, d.order.value) == [p]
  {
    forall q: nat | Named(store, d, q) ensures q == p {
    }
    SelectOnly(store.payments, Names(d.order.value), p);
  }

  lemma NamedReply(store: Store, d: Delivery, p: nat)
    requires Apart(store) && Named(store, d, p)
    ensures var (after, reply) := Webhook(store, d);
            && reply == (if !AmountFits(store, d, p) then Rejected(AmountMismatch)
                         else if !CurrencyFits(store, d, p) then Rejected(CurrencyMismatch)
                         else if Known(store, d) then AlreadyProcessed
                         else if d.kind.None? then Rejected(NullViolation)
                         else Accepted)
            && (if reply == Accepted then Records(store, d, p, after) else after == store)
  {
    OnlyNamed(store, d, p);
    if d.amount.Some? {
      RoundedIff(store.payments[p].amount, d.amount.value);
    }
    hide PaymentsOf, RoundedSubunits, IsNearest;
  }

  lemma UnnamedReply(store: Store, d: Delivery)
    requires forall p: nat :: !Named(store, d, p)
    ensures Webhook(store, d) == (store, if d.order.None? then NoOrderId else UnknownOrder)
  {
    if d.order.Some? {
      var found := PaymentsOf(store.payments, d.order.value);
      if found != [] {
        assert found[0] in found;
        assert Named(store, d, found[0]);
      }
    }
  }

  lemma ReplyIs(store: Store, d: Delivery, reply: Reply)
    requires Apart(store)
    ensures Webhook(store, d).1 == reply <==> Replies(store, d, reply)
  {
    hide Webhook, AmountFits, CurrencyFits;
    if p: nat :| Named(store, d, p) {
      OnlyNamed(store, d, p);
      NamedReply(store, d, p);
      assert Agrees(store, d, p) <==> AmountFits(store, d, p) && CurrencyFits(store, d, p);
      assert forall q: nat :: Agrees(store, d, q) ==> Named(store, d, q) && q == p;
    } else {
      UnnamedReply(store, d);
    }
  }

  lemma ReachableIsApart(s: Sys)
    requires Reachable(s)
    ensures Apart(s.store)
  {
    ReachableInv(s);
    BankIsLinked(s.store, s.sent);
    hide CartsOk, DeskOk, AttemptsOk, LedgerOk, Reachable;
  }

  /** In a reachable state every notification gets exactly the reply that the tables and its
      own fields call for. */
  lemma NotificationReplyIff(s: Sys, d: Delivery)
    requires Reachable(s)
    ensures forall reply :: Webhook(s.store, d).1 == reply <==> Replies(s.store, d, reply)
  {
    ReachableIsApart(s);
    hide Apart, Webhook, Replies, Reachable;
    forall reply ensures Webhook(s.store, d).1 == reply <==> Replies(s.store, d, reply) {
      ReplyIs(s.store, d, reply);
    }
  }

  /** Only an accepted one writes, and it writes exactly its event and the verdict that is
      due on its one payment. */
  lemma NotificationWrites(s: Sys, d: Delivery)
    requires Reachable(s)
    ensures var (after, reply) := Webhook(s.store, d);
            && (reply != Accepted ==> after == s.store)
            && (reply == Accepted ==> exists p: nat :: Agrees(s.store, d, p) && s.store.payments[p].order < |s.store.orders|
                                                       && Records(s.store, d, p, after))
  {
    ReachableIsApart(s);
    hide Webhook, Records, Reachable, AmountFits, CurrencyFits;
    if p: nat :| Named(s.store, d, p) {
      NamedReply(s.store, d, p);
      assert Webhook(s.store, d).1 == Accepted ==> Agrees(s.store, d, p);
    } else {
      UnnamedReply(s.store, d);
    }
  }
}
