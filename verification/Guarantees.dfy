/** What the invariants mean for carts, orders and money, in every reachable state. */
module Guarantees {
  import opened Prelude
  import opened Tables
  import opened Carts
  import opened Shelf
  import opened Checkout
  import opened Payments
  import opened Webhooks
  import opened Machine
  import opened CartInvariant
  import opened DeskInvariant
  import opened LedgerInvariant
  import opened Safety
  import opened Deliveries

  // ----- carts -----

  /** The cart lookup never raises for finding two rows, and a cart has one line per key. */
  lemma OneActiveCartPerOwner(s: Sys, who: Who)
    requires Reachable(s)
    ensures |ActiveCarts(s.store.shop.carts, who)| <= 1
    ensures forall c | 0 <= c < |s.store.shop.carts| :: LinesOk(s.store.shop.carts[c].items, s.nextId)
  {
    ReachableInv(s);
    OpenCartFindsTheOne(s.store.shop.carts, who, s.nextId);
  }

  // ----- one order per cart -----

  /** Orders, confirmations, converted carts and confirmed quotes correspond one to one:
      the n-th order and the n-th confirmation share a quote and a cart, and every
      converted cart and every confirmed quote belongs to exactly one n. */
  lemma OneOrderPerCart(s: Sys)
    requires Reachable(s)
    ensures |s.store.orders| == |s.store.confirmations|
    ensures forall n | 0 <= n < |s.store.orders| ::
              OrderOk(s.store.shop.carts, s.store.quotes, s.store.confirmations[n], s.store.orders[n])
    ensures forall n, m | 0 <= n < m < |s.store.orders| ::
              s.store.orders[n].cart != s.store.orders[m].cart
              && s.store.confirmations[n].quote != s.store.confirmations[m].quote
    ensures forall c | 0 <= c < |s.store.shop.carts| ::
              s.store.shop.carts[c].status == CartConverted <==> HasOrder(s.store.orders, c)
    ensures forall q | 0 <= q < |s.store.quotes| ::
              s.store.quotes[q].status == QuoteConfirmed <==> HasConfirmation(s.store.confirmations, q)
  {
    ReachableInv(s);
    forall n, m | 0 <= n < m < |s.store.orders|
      ensures s.store.confirmations[n].quote != s.store.confirmations[m].quote
    {
      assert OrderOk(s.store.shop.carts, s.store.quotes, s.store.confirmations[n], s.store.orders[n]);
      assert OrderOk(s.store.shop.carts, s.store.quotes, s.store.confirmations[m], s.store.orders[m]);
    }
    forall c | 0 <= c < |s.store.shop.carts| && HasOrder(s.store.orders, c)
      ensures s.store.shop.carts[c].status == CartConverted
    {
      var n :| 0 <= n < |s.store.orders| && s.store.orders[n].cart == c;
      assert OrderOk(s.store.shop.carts, s.store.quotes, s.store.confirmations[n], s.store.orders[n]);
    }
    forall q | 0 <= q < |s.store.quotes| && HasConfirmation(s.store.confirmations, q)
      ensures s.store.quotes[q].status == QuoteConfirmed
    {
      var n :| 0 <= n < |s.store.confirmations| && s.store.confirmations[n].quote == q;
      assert OrderOk(s.store.shop.carts, s.store.quotes, s.store.confirmations[n], s.store.orders[n]);
    }
  }

  /** Once a quote's cart is converted nobody can confirm that quote, now or after any
      further steps, whatever quotes the cart had. */
  lemma LeftoverQuoteIsDead(s: Sys, q: nat, steps: seq<Step>, who: Who, allowed: bool)
    requires Reachable(s) && q < |s.store.quotes|
    requires s.store.quotes[q].cart < |s.store.shop.carts|
    requires s.store.shop.carts[s.store.quotes[q].cart].status == CartConverted
    ensures var later := Run(s, steps);
            ConfirmQuote(later.store, EnvOf(later), who, q, allowed).Err?
  {
    ReachableInv(s);
    RunInv(s, steps);
    RunLater(s, steps);
    var later := Run(s, steps);
    assert QuoteLater(s.store.quotes[q], later.store.quotes[q]);
    assert CartLater(s.store.shop.carts[s.store.quotes[q].cart], later.store.shop.carts[s.store.quotes[q].cart]);
    if ConfirmQuote(later.store, EnvOf(later), who, q, allowed).Ok? {
      ConfirmsOwnCart(later.store, EnvOf(later), who, q, allowed);
    }
  }

  /** Once its time is past an unconfirmed quote is never confirmed, by anybody, after any
      steps; nor is it ever marked expired, because the mark is rolled back. */
  lemma {:induction false} ExpiredQuoteIsDead(s: Sys, q: nat, steps: seq<Step>)
    requires Reachable(s) && q < |s.store.quotes|
    requires s.store.quotes[q].status == QuoteActive && s.store.quotes[q].expiresAt < s.now
    ensures var later := Run(s, steps);
            && q < |later.store.quotes| && later.store.quotes[q] == s.store.quotes[q] && s.now <= later.now
            && forall who, allowed :: ConfirmQuote(later.store, EnvOf(later), who, q, allowed).Err?
  {
    if steps != [] {
      ExpiredQuoteIsDead(s, q, steps[..|steps| - 1]);
      ExpiredQuoteKept(Run(s, steps[..|steps| - 1]), q, steps[|steps| - 1]);
      hide Next;
    }
    hide OpenCart, Findings;
  }

  lemma ExpiredQuoteKept(s: Sys, q: nat, step: Step)
    requires q < |s.store.quotes| && s.store.quotes[q].expiresAt < s.now
    ensures var later := Next(s, step);
            q < |later.store.quotes| && later.store.quotes[q] == s.store.quotes[q] && s.now <= later.now
  {
    hide Mutate, OpenCart, Findings, Screen;
  }

  /** Order `n`, the confirmation and quote behind it and the cart under them have one
      tenant and currency, the amounts agree, and the customer owns the cart. */
  ghost predicate OneChain(store: Store, n: nat) {
    && n < |store.orders| == |store.confirmations|
    && var order, confirmation := store.orders[n], store.confirmations[n];
       && confirmation.quote < |store.quotes| && order.cart < |store.shop.carts|
       && var quote, cart := store.quotes[confirmation.quote], store.shop.carts[order.cart];
          && quote.cart == order.cart
          && order.customer == cart.user
          && order.tenant == confirmation.tenant == quote.tenant == cart.tenant
          && order.currency == confirmation.currency == quote.currency == cart.currency == INR
          && order.total == confirmation.amount == quote.total
  }

  /** Confirmation never compares users, yet every order's customer owns the quote's cart,
      and tenant, currency and amount agree all along the chain. */
  lemma OwnershipChain(s: Sys, n: nat)
    requires Reachable(s) && n < |s.store.orders|
    ensures OneChain(s.store, n)
  {
    ReachableInv(s);
    assert OrderOk(s.store.shop.carts, s.store.quotes, s.store.confirmations[n], s.store.orders[n]);
  }

  /** Every payment, settled or not, carries on its order's chain. */
  lemma PaymentChain(s: Sys, p: nat)
    requires Reachable(s) && p < |s.store.payments|
    ensures var payment := s.store.payments[p];
            && payment.order < |s.store.orders| && OneChain(s.store, payment.order)
            && var order := s.store.orders[payment.order];
               payment.tenant == order.tenant && payment.currency == order.currency && payment.amount == order.total
  {
    ReachableInv(s);
    assert PaymentOk(s.store.orders, s.sent, s.store.payments[p]);
    OwnershipChain(s, s.store.payments[p].order);
  }

  /** And so does every attempt. */
  lemma AttemptChain(s: Sys, a: nat)
    requires Reachable(s) && a < |s.store.attempts|
    ensures var attempt := s.store.attempts[a];
            && attempt.payment < |s.store.payments|
            && var payment := s.store.payments[attempt.payment];
               && payment.order < |s.store.orders| && OneChain(s.store, payment.order)
               && attempt.tenant == s.store.orders[payment.order].tenant && attempt.amount == s.store.orders[payment.order].total
  {
    ReachableInv(s);
    assert AttemptOk(s.store.payments, s.store.attempts[a]);
    PaymentChain(s, s.store.attempts[a].payment);
  }

  /** An order's items are its converted cart's lines, one for one, and neither changes
      in any later state. */
  lemma FrozenOrder(s: Sys, n: nat, steps: seq<Step>)
    requires Reachable(s) && n < |s.store.orders|
    ensures var later := Run(s, steps).store;
            && n < |later.orders| && later.orders[n].items == s.store.orders[n].items
            && later.orders[n].cart == s.store.orders[n].cart < |s.store.shop.carts| <= |later.shop.carts|
            && var cart := later.shop.carts[later.orders[n].cart];
               && cart == s.store.shop.carts[s.store.orders[n].cart]
               && |later.orders[n].items| == |cart.items|
               && forall i | 0 <= i < |cart.items| ::
                    var item, l := later.orders[n].items[i], cart.items[i];
                    item.product == l.product && item.variant == l.variant && item.quantity == l.quantity
                    && item.unitPrice == l.price && item.lineTotal == l.price * l.quantity
  {
    ReachableInv(s);
    RunLater(s, steps);
    assert OrderOk(s.store.shop.carts, s.store.quotes, s.store.confirmations[n], s.store.orders[n]);
    assert OrderLater(s.store.orders[n], Run(s, steps).store.orders[n]);
    var c := s.store.orders[n].cart;
    assert CartLater(s.store.shop.carts[c], Run(s, steps).store.shop.carts[c]);
  }

  // ----- orders and payments -----

  /** The status of an order is determined by its payment, of which there is at most one. */
  lemma OrderPaymentCoupling(s: Sys, o: nat)
    requires Reachable(s) && o < |s.store.orders|
    ensures s.store.orders[o].status == OrderCreated <==> !HasPayment(s.store.payments, o)
    ensures forall p | 0 <= p < |s.store.payments| && s.store.payments[p].order == o ::
              && (s.store.orders[o].status == OrderPending <==> s.store.payments[p].status == PayCreated)
              && (s.store.orders[o].status == OrderPaid <==> s.store.payments[p].status == PayPaid)
              && (s.store.orders[o].status == OrderFailed <==> s.store.payments[p].status == PayFailed)
    ensures forall p, q | 0 <= p < q < |s.store.payments| :: s.store.payments[p].order != s.store.payments[q].order
  {
    ReachableInv(s);
    CreatedOrderHasNoPayment(s.store.orders, s.store.payments, s.sent, o);
    forall p | 0 <= p < |s.store.payments| && s.store.payments[p].order == o
      ensures PaymentOk(s.store.orders, s.sent, s.store.payments[p])
    {
    }
  }

  /** The branch that hands back an existing payment is never taken. */
  lemma ExistingPaymentBranchUnreachable(s: Sys, o: nat)
    requires Reachable(s) && o < |s.store.orders| && s.store.orders[o].status == OrderCreated
    ensures PaymentsAwaiting(s.store.payments, o) == []
  {
    ReachableInv(s);
    CreatedOrderHasNoPayment(s.store.orders, s.store.payments, s.sent, o);
  }

  /** A settled order or payment keeps its status for ever. */
  lemma SettledStays(s: Sys, steps: seq<Step>)
    requires Reachable(s)
    ensures var later := Run(s, steps).store;
            && |s.store.orders| <= |later.orders| && |s.store.payments| <= |later.payments|
            && (forall o | 0 <= o < |s.store.orders| && (s.store.orders[o].status == OrderPaid || s.store.orders[o].status == OrderFailed) ::
                  later.orders[o] == s.store.orders[o])
            && (forall p | 0 <= p < |s.store.payments| && !Open(s.store.payments[p].status) ::
                  later.payments[p] == s.store.payments[p])
  {
    ReachableInv(s);
    RunLater(s, steps);
    hide Inv, Run, BankLater, CartsLater, QuotesLater;
    LaterKeepsSettled(s.store, Run(s, steps).store);
  }

  lemma LaterKeepsSettled(a: Store, b: Store)
    requires BankLater(a, b)
    ensures |a.orders| <= |b.orders| && |a.payments| <= |b.payments|
    ensures forall o | 0 <= o < |a.orders| && (a.orders[o].status == OrderPaid || a.orders[o].status == OrderFailed) ::
              b.orders[o] == a.orders[o]
    ensures forall p | 0 <= p < |a.payments| && !Open(a.payments[p].status) :: b.payments[p] == a.payments[p]
  {
    forall o | 0 <= o < |a.orders| ensures OrderLater(a.orders[o], b.orders[o]) {
    }
    forall p | 0 <= p < |a.payments| ensures PaymentLater(a.payments[p], b.payments[p]) {
    }
  }

  // ----- the ledger -----

  predicate Settles(store: Store, a: nat, o: nat) {
    && a < |store.attempts| && store.attempts[a].status == AttemptSuccess
    && store.attempts[a].payment < |store.payments| && store.payments[store.attempts[a].payment].order == o
  }

  /** Per tenant, what PAID orders come to is what successful attempts brought in. */
  lemma LedgerConservation(s: Sys, tenant: Id)
    requires Reachable(s)
    ensures Total(s.store.orders, PaidBy(tenant)) == Total(s.store.attempts, ReceivedBy(tenant))
  {
    ReachableInv(s);
  }

  /** A PAID order has exactly one successful attempt, for its own total; no other order
      has any. */
  lemma OneReceiptPerPaidOrder(s: Sys, o: nat)
    requires Reachable(s) && o < |s.store.orders|
    ensures s.store.orders[o].status == OrderPaid <==> exists a: nat :: Settles(s.store, a, o)
    ensures forall a: nat, b: nat | Settles(s.store, a, o) && Settles(s.store, b, o) :: a == b
    ensures forall a: nat | Settles(s.store, a, o) :: s.store.attempts[a].amount == s.store.orders[o].total
  {
    ReachableInv(s);
    PaidIffReceipt(s.store, s.sent, o);
    ReceiptsAreOne(s.store, s.sent, o);
  }

  lemma PaidIffReceipt(store: Store, sent: seq<ProviderOrder>, o: nat)
    requires PaymentsOk(store.orders, store.payments, sent) && AttemptsOk(store.payments, store.attempts)
    requires o < |store.orders|
    ensures store.orders[o].status == OrderPaid <==> exists a: nat :: Settles(store, a, o)
    ensures forall a: nat | Settles(store, a, o) :: store.attempts[a].amount == store.orders[o].total
  {
    if store.orders[o].status == OrderPaid {
      PaidHasReceipt(store, sent, o);
    }
    forall a: nat | Settles(store, a, o)
      ensures store.orders[o].status == OrderPaid && store.attempts[a].amount == store.orders[o].total
    {
      ReceiptMeansPaid(store, sent, a, o);
    }
    hide PaymentsOk, AttemptsOk, Settles;
  }

  lemma PaidHasReceipt(store: Store, sent: seq<ProviderOrder>, o: nat)
    requires PaymentsOk(store.orders, store.payments, sent) && AttemptsOk(store.payments, store.attempts)
    requires o < |store.orders| && store.orders[o].status == OrderPaid
    ensures exists a: nat :: Settles(store, a, o)
  {
    assert HasPayment(store.payments, o);
    var p: nat :| p < |store.payments| && store.payments[p].order == o;
    assert PaymentOk(store.orders, sent, store.payments[p]);
    assert HasAttempt(store.attempts, p);
    var a: nat :| a < |store.attempts| && store.attempts[a].payment == p;
    assert AttemptOk(store.payments, store.attempts[a]);
    assert Settles(store, a, o);
  }

  lemma ReceiptMeansPaid(store: Store, sent: seq<ProviderOrder>, a: nat, o: nat)
    requires PaymentsOk(store.orders, store.payments, sent) && AttemptsOk(store.payments, store.attempts)
    requires o < |store.orders| && Settles(store, a, o)
    ensures store.orders[o].status == OrderPaid && store.attempts[a].amount == store.orders[o].total
  {
    assert AttemptOk(store.payments, store.attempts[a]);
    assert PaymentOk(store.orders, sent, store.payments[store.attempts[a].payment]);
  }

  lemma ReceiptsAreOne(store: Store, sent: seq<ProviderOrder>, o: nat)
    requires PaymentsOk(store.orders, store.payments, sent) && AttemptsOk(store.payments, store.attempts)
    ensures forall a: nat, b: nat | Settles(store, a, o) && Settles(store, b, o) :: a == b
  {
  }

  /** A capture or failure that passes screening, is not a repeat and finds its payment open
      settles that payment, its order and one new attempt accordingly, and nothing else. */
  lemma VerdictSettles(s: Sys, d: Delivery, p: nat)
    requires Reachable(s) && p < |s.store.payments| && Open(s.store.payments[p].status)
    requires Screen(s.store.payments, d) == Pass(p) && (d.kind == Some(Captured) || d.kind == Some(Failed))
    requires d.id.Some? ==> Given(d.id.value) !in s.store.events
    ensures s.store.payments[p].order < |s.store.orders|
    ensures var paid, payment, o := d.kind == Some(Captured), s.store.payments[p], s.store.payments[p].order;
            var (later, reply) := Webhook(s.store, d);
            && reply == Accepted
            && later.payments == s.store.payments[p := payment.(status := if paid then PayPaid else PayFailed)]
            && later.orders == s.store.orders[o := s.store.orders[o].(status := if paid then OrderPaid else OrderFailed)]
            && later.attempts == s.store.attempts
                 + [Attempt(payment.tenant, p, payment.amount, if paid then AttemptSuccess else AttemptFailed)]
            && later.shop == s.store.shop && later.quotes == s.store.quotes && later.confirmations == s.store.confirmations
  {
    ReachableInv(s);
    hide CartsOk, DeskOk, PaymentsOk, AttemptsOk, LedgerOk;
    BankIsLinked(s.store, s.sent);
    assert Generated(s.store.nextEvent) !in s.store.events;
    DecisiveWebhook(s.store, d, p);
    hide Screen;
  }

  /** In every reachable state, any notifications whatever settle the tables by the first
      one that counts for each payment, and sending them again changes nothing. */
  lemma NotificationsSettleOnce(s: Sys, ds: seq<Delivery>, again: seq<Delivery>)
    requires Reachable(s) && forall d | d in again :: d in ds
    ensures Linked(s.store) && Settled(s.store, ds, |ds|, Deliver(s.store, ds))
    ensures var once, twice := Deliver(s.store, ds), Deliver(s.store, ds + again);
            twice.payments == once.payments && twice.orders == once.orders && twice.attempts == once.attempts
  {
    ReachableInv(s);
    hide CartsOk, DeskOk, BankOk, Settled, Deliver;
    FirstVerdictWins(s.store, s.sent, ds, |ds|);
    assert ds[..|ds|] == ds;
    RedeliveryIsHarmless(s.store, s.sent, ds, again);
    DeliverSplit(s.store, ds, again);
  }

  // ----- what can be delivered -----

  /** Validation finds nothing exactly when every line is on offer at its price and in stock. */
  lemma {:induction false} NoFindingsMeansAtOffer(catalog: Catalog, tenant: Id, items: seq<Line>)
    ensures Findings(catalog, tenant, items) == [] <==> forall i | 0 <= i < |items| :: AtOffer(catalog, tenant, items[i])
  {
    if items != [] {
      var n := |items| - 1;
      NoFindingsMeansAtOffer(catalog, tenant, items[..n]);
      AtOfferIff(catalog, tenant, items[n]);
      assert LineFindings(catalog, tenant, items[n]) == [] <==> AtOffer(catalog, tenant, items[n]);
      assert forall i | 0 <= i < n :: items[..n][i] == items[i];
      assert Findings(catalog, tenant, items) == Findings(catalog, tenant, items[..n]) + LineFindings(catalog, tenant, items[n]);
    }
  }

  function OrderedOf(product: Id, variant: Option<Id>): OrderItem -> int {
    (i: OrderItem) => if i.product == product && i.variant == variant then i.quantity else 0
  }

  lemma {:induction false} OrderedIsDemand(tenant: Id, items: seq<Line>, product: Id, variant: Option<Id>)
    ensures Total(OrderItemsOf(tenant, items), OrderedOf(product, variant)) == Demand(items, product, variant)
  {
    if items != [] {
      var n := |items| - 1;
      OrderedIsDemand(tenant, items[..n], product, variant);
      assert OrderItemsOf(tenant, items)[..n] == OrderItemsOf(tenant, items[..n]);
    }
  }

  /** With one line per key, being in stock line by line is being in stock key by key. */
  lemma DemandWithinStock(catalog: Catalog, tenant: Id, items: seq<Line>, bound: Id, product: Id, variant: Option<Id>)
    requires LinesOk(items, bound) && forall i | 0 <= i < |items| :: AtOffer(catalog, tenant, items[i])
    ensures Holds(catalog, tenant, product, variant, Demand(items, product, variant))
  {
    if i :| 0 <= i < |items| && items[i].product == product && items[i].variant == variant {
      DemandIsTheLine(items, bound, i);
    } else {
      TotalOfNone(items, PiecesOf(product, variant));
    }
  }

  /** Whenever an order is created, every item is on offer at the price it carries and the
      pieces it asks for of any product and variant are in stock. */
  lemma FulfillableAtConfirm(s: Sys, who: Who, q: nat, allowed: bool, after: Store)
    requires Reachable(s) && ConfirmQuote(s.store, EnvOf(s), who, q, allowed) == Ok(after)
    ensures |after.orders| == |s.store.orders| + 1
    ensures var items := after.orders[|s.store.orders|].items;
            && (forall i | 0 <= i < |items| ::
                  Sellable(s.store.shop.catalog, who.tenant, items[i].product, items[i].variant)
                  && Costs(s.store.shop.catalog, items[i].product, items[i].variant, items[i].unitPrice))
            && (forall p, v :: Holds(s.store.shop.catalog, who.tenant, p, v, Total(items, OrderedOf(p, v))))
  {
    hide LinesOk, DeskOk, BankOk, Demand, Holds, Sellable, Costs;
    ReachableInv(s);
    ConfirmQuoteShape(s.store, EnvOf(s), who, q, allowed, after);
    ConfirmsOwnCart(s.store, EnvOf(s), who, q, allowed);
    var c := s.store.quotes[q].cart;
    var lines := s.store.shop.carts[c].items;
    NoFindingsMeansAtOffer(s.store.shop.catalog, who.tenant, lines);
    forall p, v
      ensures Holds(s.store.shop.catalog, who.tenant, p, v, Total(after.orders[|s.store.orders|].items, OrderedOf(p, v)))
    {
      OrderedIsDemand(who.tenant, lines, p, v);
      DemandWithinStock(s.store.shop.catalog, who.tenant, lines, s.nextId, p, v);
    }
    forall i | 0 <= i < |lines| ensures AtOffer(s.store.shop.catalog, who.tenant, lines[i]) {
    }
  }
}
