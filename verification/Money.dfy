/** The amount of a cart as it travels from the cart page to the provider and back. */
module Money {
  import opened Prelude
  import opened Tables
  import opened Carts
  import opened Checkout
  import opened Payments
  import opened Webhooks
  import opened Machine
  import opened CartInvariant
  import opened DeskInvariant
  import opened LedgerInvariant
  import opened Safety

  /** The largest cart, in paise, whose total a payment row can hold. */
  const LARGEST_PAYABLE := 84_745_762

  // ----- from the cart to the quote -----

  /** A quote is 118% of the cart's total with nothing lost, and fits a payment row
      exactly up to the largest payable cart. */
  lemma QuoteOfCart(s: Sys, who: Who, cartId: Id, allowed: bool, after: Store)
    requires Reachable(s) && CreateQuote(s.store, EnvOf(s), who, cartId, allowed) == Ok(after)
    ensures |after.quotes| == |s.store.quotes| + 1
    ensures var quote := after.quotes[|s.store.quotes|];
            && quote.cart < |after.shop.carts| && after.shop.carts[quote.cart].id == cartId
            && IsActiveCartOf(after.shop.carts[quote.cart], who)
            && quote.status == QuoteActive && quote.expiresAt == s.now + 900
            && var paise := CartTotal(after.shop.carts[quote.cart].items);
               && quote.subtotal == 100 * paise && 100 * quote.total == 118 * quote.subtotal
               && quote.discount == 0 && quote.total == quote.subtotal + quote.tax
               && (FitsNumeric10_4(quote.total) <==> paise <= LARGEST_PAYABLE)
  {
    hide DeskOk, BankOk, Findings, CurrentOffer, ActiveCarts;
    ReachableInv(s);
    CreateQuoteShape(s.store, EnvOf(s), who, cartId, allowed, after);
    OpenCartFindsTheOne(s.store.shop.carts, who, s.nextId);
    var (carts, c) := OpenCart(s.store.shop.carts, who, s.nextId).value;
    CartTotalNotNegative(carts[c].items, s.nextId + 1);
    hide CartsOk, OpenCart, CartTotal, CreateQuote;
  }

  // ----- from the quote to the order -----

  function ItemTotal(i: OrderItem): int {
    i.lineTotal
  }

  lemma {:induction false} ItemsTotalIsCartTotal(tenant: Id, items: seq<Line>)
    ensures Total(OrderItemsOf(tenant, items), ItemTotal) == CartTotal(items)
  {
    if items != [] {
      var n := |items| - 1;
      ItemsTotalIsCartTotal(tenant, items[..n]);
      assert OrderItemsOf(tenant, items)[..n] == OrderItemsOf(tenant, items[..n]);
    }
  }

  /** An order's subtotal is the sum of its items exactly when the quoted subtotal is what
      the cart page shows at the moment of confirming. */
  lemma SubtotalIsItemsIff(s: Sys, who: Who, q: nat, allowed: bool, after: Store)
    requires Reachable(s) && ConfirmQuote(s.store, EnvOf(s), who, q, allowed) == Ok(after)
    ensures q < |s.store.quotes| && s.store.quotes[q].cart < |s.store.shop.carts| && |after.orders| == |s.store.orders| + 1
    ensures var order := after.orders[|s.store.orders|];
            order.subtotal == 100 * Total(order.items, ItemTotal)
            <==> s.store.quotes[q].subtotal == 100 * CartTotal(s.store.shop.carts[s.store.quotes[q].cart].items)
  {
    ReachableInv(s);
    ConfirmQuoteShape(s.store, EnvOf(s), who, q, allowed, after);
    ConfirmsOwnCart(s.store, EnvOf(s), who, q, allowed);
    ItemsTotalIsCartTotal(who.tenant, s.store.shop.carts[s.store.quotes[q].cart].items);
  }

  /** If the cart's lines at confirmation are those that were quoted, whatever happened in
      between, the order's subtotal is the sum of its items and its total 118% of it. */
  lemma UnchangedCartTotals(s: Sys, who: Who, cartId: Id, allowed: bool, steps: seq<Step>, buyer: Who, allowed': bool)
    requires Reachable(s)
    ensures var s1 := Next(s, QuoteCall(who, cartId, allowed));
            var s2 := Run(s1, steps);
            var r := ConfirmQuote(s2.store, EnvOf(s2), buyer, |s.store.quotes|, allowed');
            CreateQuote(s.store, EnvOf(s), who, cartId, allowed).Ok? && r.Ok? && SameLines(s1.store, s2.store, |s.store.quotes|)
            ==> LastOrderAddsUp(r.value)
  {
    hide Inv, Next, CreateQuote, ConfirmQuote, LastOrderAddsUp;
    var s1 := Next(s, QuoteCall(who, cartId, allowed));
    var s2 := Run(s1, steps);
    var q := |s.store.quotes|;
    if CreateQuote(s.store, EnvOf(s), who, cartId, allowed).Ok? && ConfirmQuote(s2.store, EnvOf(s2), buyer, q, allowed').Ok?
       && SameLines(s1.store, s2.store, q)
    {
      hide SameLines;
      QuotedStep(s, who, cartId, allowed);
      RunInv(s1, steps);
      RunLater(s1, steps);
      SameLinesAddUp(s1, s2, q, buyer, allowed');
    }
  }

  /** The cart of a quote has the same lines in both stores. */
  ghost predicate SameLines(a: Store, b: Store, q: nat) {
    q < |a.quotes| && a.quotes[q].cart < |a.shop.carts| && a.quotes[q].cart < |b.shop.carts|
    && a.shop.carts[a.quotes[q].cart].items == b.shop.carts[a.quotes[q].cart].items
  }

  ghost predicate LastOrderAddsUp(store: Store) {
    |store.orders| >= 1
    && var order := store.orders[|store.orders| - 1];
       order.subtotal == 100 * Total(order.items, ItemTotal) && order.total == 118 * Total(order.items, ItemTotal)
  }

  /** The quote's amounts are those of its cart's lines. */
  ghost predicate QuotesItsCart(store: Store, q: nat) {
    q < |store.quotes| && store.quotes[q].cart < |store.shop.carts|
    && var paise := CartTotal(store.shop.carts[store.quotes[q].cart].items);
       store.quotes[q].subtotal == 100 * paise && store.quotes[q].total == 118 * paise
  }

  lemma QuotedStep(s: Sys, who: Who, cartId: Id, allowed: bool)
    requires Reachable(s) && CreateQuote(s.store, EnvOf(s), who, cartId, allowed).Ok?
    ensures var s1 := Next(s, QuoteCall(who, cartId, allowed)); Inv(s1) && QuotesItsCart(s1.store, |s.store.quotes|)
  {
    var quoted := CreateQuote(s.store, EnvOf(s), who, cartId, allowed).value;
    ReachableInv(s);
    StepInv(s, QuoteCall(who, cartId, allowed));
    QuoteOfCart(s, who, cartId, allowed, quoted);
    hide Inv, CreateQuote;
    assert Next(s, QuoteCall(who, cartId, allowed)).store == quoted;
  }

  lemma SameLinesAddUp(s1: Sys, s2: Sys, q: nat, buyer: Who, allowed: bool)
    requires Inv(s2) && Later(s1.store, s2.store)
    requires QuotesItsCart(s1.store, q) && SameLines(s1.store, s2.store, q)
    requires ConfirmQuote(s2.store, EnvOf(s2), buyer, q, allowed).Ok?
    ensures LastOrderAddsUp(ConfirmQuote(s2.store, EnvOf(s2), buyer, q, allowed).value)
  {
    hide CartsOk, DeskOk, BankOk, Findings, BankLater, CartTotal;
    assert QuoteLater(s1.store.quotes[q], s2.store.quotes[q]);
    ConfirmQuoteShape(s2.store, EnvOf(s2), buyer, q, allowed, ConfirmQuote(s2.store, EnvOf(s2), buyer, q, allowed).value);
    ConfirmsOwnCart(s2.store, EnvOf(s2), buyer, q, allowed);
    ItemsTotalIsCartTotal(buyer.tenant, s2.store.shop.carts[s2.store.quotes[q].cart].items);
    hide ConfirmQuote, OpenCart;
  }

  // ----- from the order to the provider and back -----

  /** Rounding is to a nearest subunit, and to the even one from half way. */
  lemma RoundedIsNearest(amount: int)
    ensures -50 <= 100 * RoundedSubunits(amount) - amount <= 50
    ensures amount % 100 == 50 ==> RoundedSubunits(amount) % 2 == 0
    ensures 0 <= amount ==> 0 <= RoundedSubunits(amount) - TruncatedSubunits(amount) <= 1
  {
  }

  predicate Echoes(d: Delivery, providerOrder: Id, sent: ProviderOrder) {
    && d.order == Some(providerOrder)
    && (d.amount == None || d.amount == Some(sent.subunits))
    && (d.currency == None || d.currency == Some(sent.currency))
  }

  /** A notification that repeats what Razorpay was sent always reaches its payment. The
      truncating fake is at most one subunit below what is expected. */
  lemma EchoIsNeverAMismatch(s: Sys, p: nat, d: Delivery)
    requires Reachable(s) && p < |s.store.payments|
    ensures s.store.payments[p].providerOrder < |s.sent|
    ensures var sent := s.sent[s.store.payments[p].providerOrder];
            && (sent.provider == Razorpay && Echoes(d, s.store.payments[p].providerOrder, sent) ==>
                  Screen(s.store.payments, d) == Pass(p))
            && 0 <= RoundedSubunits(s.store.payments[p].amount) - sent.subunits <= 1
  {
    hide CartsOk, QuoteOk, AttemptsOk, LedgerOk;
    ReachableInv(s);
    var payment := s.store.payments[p];
    assert PaymentOk(s.store.orders, s.sent, payment);
    assert OrderOk(s.store.shop.carts, s.store.quotes, s.store.confirmations[payment.order], s.store.orders[payment.order]);
    OrderTotalNotNegative(s, payment.order);
    RoundedIsNearest(payment.amount);
    FoundAlone(s.store.orders, s.store.payments, s.sent, p);
  }

  lemma OrderTotalNotNegative(s: Sys, o: nat)
    requires Inv(s) && o < |s.store.orders|
    ensures Priced(s.store.orders[o].subtotal, s.store.orders[o].discount, s.store.orders[o].tax, s.store.orders[o].total)
  {
    assert OrderOk(s.store.shop.carts, s.store.quotes, s.store.confirmations[o], s.store.orders[o]);
    assert QuoteOk(s.store.shop.carts, s.store.quotes[s.store.confirmations[o].quote]);
  }

  lemma FoundAlone(orders: seq<Order>, payments: seq<Payment>, sent: seq<ProviderOrder>, p: nat)
    requires PaymentsOk(orders, payments, sent) && p < |payments|
    ensures PaymentsOf(payments, payments[p].providerOrder) == [p]
  {
    forall q | 0 <= q < |payments| && q != p
      ensures !Names(payments[p].providerOrder)(payments[q])
    {
      assert if q < p then payments[q].providerOrder != payments[p].providerOrder
             else payments[p].providerOrder != payments[q].providerOrder;
    }
    SelectOnly(payments, Names(payments[p].providerOrder), p);
  }

  /** A notification passes screening for a payment exactly when it names that payment's
      provider order and any amount and currency it gives are the payment's. */
  lemma ScreenedIff(s: Sys, p: nat, d: Delivery)
    requires Reachable(s) && p < |s.store.payments|
    ensures var payment := s.store.payments[p];
            Screen(s.store.payments, d) == Pass(p)
            <==> && d.order == Some(payment.providerOrder)
                 && (d.amount == None || d.amount == Some(RoundedSubunits(payment.amount)))
                 && (d.currency == None || d.currency == Some(payment.currency))
  {
    hide CartsOk, DeskOk, AttemptsOk, LedgerOk, Screen, PaymentsOf;
    ReachableInv(s);
    FoundAlone(s.store.orders, s.store.payments, s.sent, p);
    hide PaymentsOk, Inv, Reachable;
    ScreenedAlone(s.store.payments, p, d);
  }

  lemma ScreenedAlone(payments: seq<Payment>, p: nat, d: Delivery)
    requires p < |payments| && PaymentsOf(payments, payments[p].providerOrder) == [p]
    ensures Screen(payments, d) == Pass(p)
            <==> && d.order == Some(payments[p].providerOrder)
                 && (d.amount == None || d.amount == Some(RoundedSubunits(payments[p].amount)))
                 && (d.currency == None || d.currency == Some(payments[p].currency))
  {
    hide RoundedSubunits, Select;
    if Screen(payments, d) == Pass(p) {
      assert p in PaymentsOf(payments, d.order.value);
    }
  }

  // ----- which orders can be paid -----

  /** Asking for payment of a CREATED order succeeds exactly up to the largest payable
      cart; above it the provider is left with an order that no payment names. */
  lemma PaymentFitsIff(s: Sys, o: nat, provider: Provider)
    requires Reachable(s) && o < |s.store.orders| && s.store.orders[o].status == OrderCreated
    ensures var r := CreatePayment(s.store, s.sent, provider, s.store.orders[o].tenant, o);
            && |r.sent| == |s.sent| + 1
            && (r.result.Ok? <==> s.store.orders[o].subtotal <= 100 * LARGEST_PAYABLE)
            && (r.result.Err? ==> r.result == Err(NumericOverflow))
  {
    CreatedOrderIsPriced(s, o);
    PaymentFits(s.store, s.sent, o, provider);
  }

  lemma CreatedOrderIsPriced(s: Sys, o: nat)
    requires Reachable(s) && o < |s.store.orders| && s.store.orders[o].status == OrderCreated
    ensures PaymentsAwaiting(s.store.payments, o) == []
    ensures var order := s.store.orders[o]; Priced(order.subtotal, order.discount, order.tax, order.total)
  {
    ReachableInv(s);
    CreatedOrderHasNoPayment(s.store.orders, s.store.payments, s.sent, o);
    OrderTotalNotNegative(s, o);
  }

  lemma PaymentFits(store: Store, sent: seq<ProviderOrder>, o: nat, provider: Provider)
    requires o < |store.orders| && store.orders[o].status == OrderCreated && PaymentsAwaiting(store.payments, o) == []
    requires var order := store.orders[o]; Priced(order.subtotal, order.discount, order.tax, order.total)
    ensures var order := store.orders[o];
            var r := CreatePayment(store, sent, provider, order.tenant, o);
            && r.sent == sent + [ProviderOrder(provider, SubunitsSent(provider, order.total), order.currency)]
            && if order.subtotal <= 100 * LARGEST_PAYABLE then
                 r.result == Ok(store.(
                   payments := store.payments + [Payment(order.tenant, o, |sent|, order.total, order.currency, PayCreated)],
                   orders := store.orders[o := order.(status := OrderPending)]))
               else r.result == Err(NumericOverflow)
  {
  }

  /** Any order above the largest payable cart stays CREATED for ever. */
  lemma OversizedOrderIsNeverPaid(s: Sys, o: nat, steps: seq<Step>)
    requires Reachable(s) && o < |s.store.orders| && s.store.orders[o].subtotal > 100 * LARGEST_PAYABLE
    ensures var later := Run(s, steps).store; o < |later.orders| && later.orders[o].status == OrderCreated
  {
    ReachableInv(s);
    OrderKept(s, o, steps);
    RunInv(s, steps);
    SettledOrderWasPayable(Run(s, steps), o);
  }

  lemma OrderKept(s: Sys, o: nat, steps: seq<Step>)
    requires Inv(s) && o < |s.store.orders|
    ensures o < |Run(s, steps).store.orders| && OrderLater(s.store.orders[o], Run(s, steps).store.orders[o])
  {
    RunLater(s, steps);
  }

  lemma SettledOrderWasPayable(s: Sys, o: nat)
    requires Inv(s) && o < |s.store.orders|
    ensures s.store.orders[o].subtotal > 100 * LARGEST_PAYABLE ==> s.store.orders[o].status == OrderCreated
  {
    OrderTotalNotNegative(s, o);
    PendingOrderFits(s.store.orders, s.store.payments, s.sent, o);
  }

  lemma PendingOrderFits(orders: seq<Order>, payments: seq<Payment>, sent: seq<ProviderOrder>, o: nat)
    requires PaymentsOk(orders, payments, sent) && o < |orders|
    ensures orders[o].status != OrderCreated ==> FitsNumeric10_4(orders[o].total)
  {
    if orders[o].status != OrderCreated {
      var p :| 0 <= p < |payments| && payments[p].order == o;
      assert PaymentOk(orders, sent, payments[p]);
    }
  }

  /** The two steps that pay an order: ask for payment, and be told of the capture. */
  function PayingSteps(s: Sys, o: nat): seq<Step>
    requires o < |s.store.orders|
  {
    var order := s.store.orders[o];
    [PayCall(order.tenant, o, Razorpay),
     WebhookCall(Delivery(None, Some(Captured), Some(|s.sent|), Some(RoundedSubunits(order.total)), Some(order.currency)))]
  }

  lemma CapturePays(s: Sys, p: nat, d: Delivery)
    requires Inv(s) && p < |s.store.payments| && Open(s.store.payments[p].status)
    requires d.id == None && d.kind == Some(Captured) && d.order == Some(s.store.payments[p].providerOrder)
    requires d.amount == Some(RoundedSubunits(s.store.payments[p].amount)) && d.currency == Some(s.store.payments[p].currency)
    ensures s.store.payments[p].order < |s.store.orders| == |Webhook(s.store, d).0.orders|
    ensures Webhook(s.store, d).0.orders[s.store.payments[p].order].status == OrderPaid
  {
    hide CartsOk, DeskOk, AttemptsOk, LedgerOk;
    FoundAlone(s.store.orders, s.store.payments, s.sent, p);
    assert PaymentOk(s.store.orders, s.sent, s.store.payments[p]);
    assert Screen(s.store.payments, d) == Pass(p);
    assert Generated(s.store.nextEvent) !in s.store.events;
  }

  lemma RunOfTwo(s: Sys, first: Step, second: Step)
    ensures Run(s, [first, second]) == Next(Next(s, first), second)
  {
    assert [first][..0] == [];
    assert Run(s, [first]) == Next(Run(s, []), first) == Next(s, first);
    assert [first, second][..1] == [first];
  }

  lemma PayingStepsPay(s: Sys, o: nat)
    requires Reachable(s) && o < |s.store.orders| && s.store.orders[o].status == OrderCreated
    requires s.store.orders[o].subtotal <= 100 * LARGEST_PAYABLE
    ensures var later := Run(s, PayingSteps(s, o)).store; o < |later.orders| && later.orders[o].status == OrderPaid
  {
    var pay, capture := PayingSteps(s, o)[0], PayingSteps(s, o)[1];
    PayStep(s, o, pay);
    CaptureStep(Next(s, pay), |s.store.payments|);
    RunOfTwo(s, pay, capture);
  }

  function CaptureOf(payment: Payment): Step {
    WebhookCall(Delivery(None, Some(Captured), Some(payment.providerOrder),
                         Some(RoundedSubunits(payment.amount)), Some(payment.currency)))
  }

  lemma CaptureStep(s: Sys, p: nat)
    requires Inv(s) && p < |s.store.payments| && s.store.payments[p].status == PayCreated
    ensures var later := Next(s, CaptureOf(s.store.payments[p])).store;
            s.store.payments[p].order < |later.orders| && later.orders[s.store.payments[p].order].status == OrderPaid
  {
    hide Inv, Webhook;
    CapturePays(s, p, CaptureOf(s.store.payments[p]).delivery);
  }

  lemma PayStep(s: Sys, o: nat, pay: Step)
    requires Reachable(s) && o < |s.store.orders| && s.store.orders[o].status == OrderCreated
    requires s.store.orders[o].subtotal <= 100 * LARGEST_PAYABLE && pay == PayCall(s.store.orders[o].tenant, o, Razorpay)
    ensures var order := s.store.orders[o];
            Next(s, pay).store.payments
            == s.store.payments + [Payment(order.tenant, o, |s.sent|, order.total, order.currency, PayCreated)]
    ensures |Next(s, pay).store.orders| == |s.store.orders| && Inv(Next(s, pay))
  {
    ReachableInv(s);
    StepInv(s, pay);
    CreatedOrderIsPriced(s, o);
    PaymentFits(s.store, s.sent, o, Razorpay);
    hide Inv, CreatePayment, PaymentsAwaiting, Priced;
  }

  /** A CREATED order can still be paid exactly when its cart was payable. */
  lemma PayableIff(s: Sys, o: nat)
    requires Reachable(s) && o < |s.store.orders| && s.store.orders[o].status == OrderCreated
    ensures s.store.orders[o].subtotal <= 100 * LARGEST_PAYABLE
            <==> exists steps :: var later := Run(s, steps).store; o < |later.orders| && later.orders[o].status == OrderPaid
  {
    if s.store.orders[o].subtotal <= 100 * LARGEST_PAYABLE {
      PayingStepsPay(s, o);
    } else {
      forall steps
        ensures var later := Run(s, steps).store; o < |later.orders| && later.orders[o].status == OrderCreated
      {
        OversizedOrderIsNeverPaid(s, o, steps);
      }
    }
  }
}
