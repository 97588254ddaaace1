/** What holds in every reachable state, and what no later step changes. */
module Safety {
  import opened Prelude
  import opened Tables
  import opened Carts
  import opened Checkout
  import opened Payments
  import opened Webhooks
  import opened Machine
  import opened CartInvariant
  import opened DeskInvariant
  import opened LedgerInvariant

  ghost predicate Inv(s: Sys) {
    && CartsOk(s.store.shop.carts, s.nextId)
    && DeskOk(s.store.shop.carts, s.store.quotes, s.store.confirmations, s.store.orders)
    && BankOk(s.store, s.sent)
  }

  lemma InitInv(now: int, deadAtExp: bool)
    ensures Inv(Init(now, deadAtExp))
  {
  }

  lemma CartStepInv(s: Sys, shop: Shop)
    requires Inv(s) && CartsOk(shop.carts, s.nextId + 2) && ActiveLinesOnly(s.store.shop.carts, shop.carts)
    ensures Inv(s.(store := s.store.(shop := shop), nextId := s.nextId + 2))
  {
    hide LinesOk, QuoteOk, OrderOk, PaymentsOk, AttemptsOk, LedgerOk;
    CartStepKeepsDeskOk(s.store.shop.carts, shop.carts, s.store.quotes, s.store.confirmations, s.store.orders);
  }

  lemma IdleStepInv(s: Sys)
    requires Inv(s)
    ensures Inv(s.(nextId := s.nextId + 2))
  {
    hide LinesOk, QuoteOk, OrderOk, PaymentsOk, AttemptsOk, LedgerOk;
    CartsOkGrows(s.store.shop.carts, s.nextId, s.nextId + 2);
  }

  lemma VisitInv(s: Sys, who: Who)
    requires Inv(s)
    ensures Inv(Next(s, VisitCart(who)))
  {
    hide CartsOk, DeskOk, BankOk, ActiveLinesOnly;
    OpeningKeepsDeskOk(s.store.shop.carts, who, s.nextId, s.store.quotes, s.store.confirmations, s.store.orders);
    var (carts, _) := OpenCart(s.store.shop.carts, who, s.nextId).value;
    CartStepInv(s, s.store.shop.(carts := carts));
  }

  lemma DoneKeepsCartsOk(s: Sys, step: Step, shop: Shop)
    requires CartsOk(s.store.shop.carts, s.nextId)
    requires step.CartCall? && CartAnswer(s, step) == Done(shop)
    ensures CartsOk(shop.carts, s.nextId + 2) && ActiveLinesOnly(s.store.shop.carts, shop.carts)
  {
    hide CartsOk;
    MutateKeepsCartsOk(s.store.shop, EnvOf(s), step.who, step.op, step.token, shop);
  }

  lemma CartCallInv(s: Sys, step: Step)
    requires Inv(s) && step.CartCall?
    ensures Inv(Next(s, step))
  {
    hide CartsOk, DeskOk, BankOk, ActiveLinesOnly, Mutate;
    var answer := CartAnswer(s, step);
    match answer {
      case Raise(_) => IdleStepInv(s);
      case Ask(claims) => IdleStepInv(s.(issued := s.issued + [claims]));
      case Done(shop) =>
        DoneKeepsCartsOk(s, step, shop);
        CartStepInv(s, shop);
    }
  }

  lemma QuoteCallInv(s: Sys, who: Who, cartId: Id, allowed: bool)
    requires Inv(s)
    ensures Inv(Next(s, QuoteCall(who, cartId, allowed)))
  {
    hide CartsOk, DeskOk, BankOk, ConfirmQuote, CreateQuote, CreatePayment, Webhook;
    match CreateQuote(s.store, EnvOf(s), who, cartId, allowed) {
      case Err(_) => IdleStepInv(s);
      case Ok(after) =>
        CreateQuoteKeepsDeskOk(s.store, EnvOf(s), who, cartId, allowed, after);
        BankFrame(s.store, after, s.sent);
    }
  }

  lemma ConfirmCallInv(s: Sys, who: Who, q: nat, allowed: bool)
    requires Inv(s)
    ensures Inv(Next(s, ConfirmCall(who, q, allowed)))
  {
    hide CartsOk, DeskOk, BankOk, ConfirmQuote, CreateQuote, CreatePayment, Webhook;
    match ConfirmQuote(s.store, EnvOf(s), who, q, allowed) {
      case Err(_) => IdleStepInv(s);
      case Ok(after) =>
        ConfirmQuoteKeepsDeskOk(s.store, EnvOf(s), who, q, allowed, after);
        NewOrderKeepsBankOk(s.store, after, s.sent);
    }
  }

  lemma BankStepInv(s: Sys, after: Store, sent: seq<ProviderOrder>)
    requires Inv(s) && BankOk(after, sent) && OnlyStatus(s.store.orders, after.orders)
    requires after.shop == s.store.shop && after.quotes == s.store.quotes && after.confirmations == s.store.confirmations
    ensures Inv(s.(store := after, sent := sent, nextId := s.nextId + 2))
  {
    hide CartsOk, DeskOk, BankOk, OnlyStatus;
    CartsOkGrows(s.store.shop.carts, s.nextId, s.nextId + 2);
    OrderStatusKeepsDeskOk(s.store.shop.carts, s.store.quotes, s.store.confirmations, s.store.orders, after.orders);
  }

  lemma PayCallInv(s: Sys, tenant: Id, o: nat, provider: Provider)
    requires Inv(s)
    ensures Inv(Next(s, PayCall(tenant, o, provider)))
  {
    hide CartsOk, DeskOk, BankOk, ConfirmQuote, CreateQuote, CreatePayment, Webhook;
    CreatePaymentKeepsBankOk(s.store, s.sent, provider, tenant, o);
    var outcome := CreatePayment(s.store, s.sent, provider, tenant, o);
    BankStepInv(s, if outcome.result.Ok? then outcome.result.value else s.store, outcome.sent);
  }

  lemma WebhookCallInv(s: Sys, d: Delivery)
    requires Inv(s)
    ensures Inv(Next(s, WebhookCall(d)))
  {
    hide CartsOk, DeskOk, BankOk, ConfirmQuote, CreateQuote, CreatePayment, Webhook;
    WebhookKeepsBankOk(s.store, s.sent, d);
    BankStepInv(s, Webhook(s.store, d).0, s.sent);
  }

  lemma CatalogStepInv(s: Sys, step: Step)
    requires Inv(s) && (step.Tick? || step.PutProduct? || step.PutVariant? || step.PutStock?)
    ensures Inv(Next(s, step))
  {
    hide DeskOk, PaymentsOk, AttemptsOk, LedgerOk, LinesOk;
    IdleStepInv(s);
  }

  lemma StepInv(s: Sys, step: Step)
    requires Inv(s)
    ensures Inv(Next(s, step))
  {
    hide Inv, Next;
    match step {
      case VisitCart(who) => VisitInv(s, who);
      case CartCall(_, _, _) => CartCallInv(s, step);
      case QuoteCall(who, cartId, allowed) => QuoteCallInv(s, who, cartId, allowed);
      case ConfirmCall(who, q, allowed) => ConfirmCallInv(s, who, q, allowed);
      case PayCall(tenant, o, provider) => PayCallInv(s, tenant, o, provider);
      case WebhookCall(d) => WebhookCallInv(s, d);
      case _ => CatalogStepInv(s, step);
    }
  }

  lemma {:induction false} RunInv(s: Sys, steps: seq<Step>)
    requires Inv(s)
    ensures Inv(Run(s, steps))
  {
    hide Inv;
    if steps != [] {
      RunInv(s, steps[..|steps| - 1]);
      StepInv(Run(s, steps[..|steps| - 1]), steps[|steps| - 1]);
    }
  }

  ghost predicate Reachable(s: Sys) {
    exists now, deadAtExp, steps :: s == Run(Init(now, deadAtExp), steps)
  }

  /** Every run from the empty database keeps all the invariants. */
  lemma ReachableInv(s: Sys)
    requires Reachable(s)
    ensures Inv(s)
  {
    var now, deadAtExp, steps :| s == Run(Init(now, deadAtExp), steps);
    InitInv(now, deadAtExp);
    RunInv(Init(now, deadAtExp), steps);
  }

  // ----- nothing that matters is taken back -----

  function Rank(status: OrderStatus): nat {
    match status
    case OrderCreated => 0
    case OrderPending => 1
    case _ => 2
  }

  /** A later row: only the fields that may still change have changed. */
  ghost predicate CartLater(a: Cart, b: Cart) {
    a.id == b.id && SameOwner(a, b) && a.currency == b.currency && (a.status == CartConverted ==> b == a)
  }

  predicate QuoteLater(a: Quote, b: Quote) {
    b == a.(status := b.status) && (a.status == QuoteActive || b == a)
  }

  predicate OrderLater(a: Order, b: Order) {
    b == a.(status := b.status) && (a.status == b.status || Rank(a.status) < Rank(b.status))
  }

  predicate PaymentLater(a: Payment, b: Payment) {
    b == a.(status := b.status) && (Open(a.status) || b == a)
  }

  ghost predicate CartsLater(a: seq<Cart>, b: seq<Cart>) {
    |a| <= |b| && forall c | 0 <= c < |a| :: CartLater(a[c], b[c])
  }

  ghost predicate QuotesLater(a: seq<Quote>, b: seq<Quote>) {
    |a| <= |b| && forall q | 0 <= q < |a| :: QuoteLater(a[q], b[q])
  }

  ghost predicate OrdersLater(a: seq<Order>, b: seq<Order>) {
    |a| <= |b| && forall o | 0 <= o < |a| :: OrderLater(a[o], b[o])
  }

  ghost predicate PaymentsLater(a: seq<Payment>, b: seq<Payment>) {
    |a| <= |b| && forall p | 0 <= p < |a| :: PaymentLater(a[p], b[p])
  }

  ghost predicate BankLater(a: Store, b: Store) {
    OrdersLater(a.orders, b.orders) && PaymentsLater(a.payments, b.payments)
    && a.attempts <= b.attempts && a.events <= b.events
  }

  ghost predicate Later(a: Store, b: Store) {
    && CartsLater(a.shop.carts, b.shop.carts)
    && QuotesLater(a.quotes, b.quotes)
    && a.confirmations <= b.confirmations
    && BankLater(a, b)
  }

  lemma LaterTransitive(a: Store, b: Store, c: Store)
    requires Later(a, b) && Later(b, c)
    ensures Later(a, c)
  {
    forall i | 0 <= i < |a.shop.carts| ensures CartLater(a.shop.carts[i], c.shop.carts[i]) {
      assert CartLater(a.shop.carts[i], b.shop.carts[i]) && CartLater(b.shop.carts[i], c.shop.carts[i]);
    }
    forall i | 0 <= i < |a.quotes| ensures QuoteLater(a.quotes[i], c.quotes[i]) {
      assert QuoteLater(a.quotes[i], b.quotes[i]) && QuoteLater(b.quotes[i], c.quotes[i]);
    }
    forall i | 0 <= i < |a.orders| ensures OrderLater(a.orders[i], c.orders[i]) {
      assert OrderLater(a.orders[i], b.orders[i]) && OrderLater(b.orders[i], c.orders[i]);
    }
    forall i | 0 <= i < |a.payments| ensures PaymentLater(a.payments[i], c.payments[i]) {
      assert PaymentLater(a.payments[i], b.payments[i]) && PaymentLater(b.payments[i], c.payments[i]);
    }
  }

  lemma ShopStepLater(a: Store, b: Store)
    requires CartsLater(a.shop.carts, b.shop.carts) && a.quotes <= b.quotes && a.confirmations == b.confirmations
    requires b.orders == a.orders && b.payments == a.payments && b.attempts == a.attempts && b.events == a.events
    ensures Later(a, b)
  {
  }

  lemma BankStepLater(a: Store, b: Store)
    requires b.shop.carts == a.shop.carts && a.quotes == b.quotes && a.confirmations == b.confirmations
    requires BankLater(a, b)
    ensures Later(a, b)
  {
  }

  lemma PaymentLaterBank(store: Store, sent: seq<ProviderOrder>, provider: Provider, tenant: Id, o: nat)
    ensures var r := CreatePayment(store, sent, provider, tenant, o).result;
            r.Ok? ==> BankLater(store, r.value)
  {
  }

  lemma PayCallLater(s: Sys, tenant: Id, o: nat, provider: Provider)
    ensures Later(s.store, Next(s, PayCall(tenant, o, provider)).store)
  {
    PaymentLaterBank(s.store, s.sent, provider, tenant, o);
    BankStepLater(s.store, Next(s, PayCall(tenant, o, provider)).store);
  }

  lemma RecordLater(store: Store, sent: seq<ProviderOrder>, d: Delivery, p: nat)
    requires PaymentsOk(store.orders, store.payments, sent) && p < |store.payments|
    ensures BankLater(store, Record(store, d, p, store.payments[p].status).0)
  {
    assert PaymentOk(store.orders, sent, store.payments[p]);
  }

  lemma WebhookCallLater(s: Sys, d: Delivery)
    requires Inv(s)
    ensures Later(s.store, Next(s, WebhookCall(d)).store)
  {
    hide CartsOk, DeskOk, BankLater, Record, PaymentsOk, AttemptsOk, LedgerOk;
    WebhookKeepsBankOk(s.store, s.sent, d);
    var screening := Screen(s.store.payments, d);
    if screening.Pass? {
      RecordLater(s.store, s.sent, d, screening.payment);
    }
    BankStepLater(s.store, Next(s, WebhookCall(d)).store);
  }

  lemma ConfirmCallLater(s: Sys, who: Who, q: nat, allowed: bool)
    requires Inv(s)
    ensures Later(s.store, Next(s, ConfirmCall(who, q, allowed)).store)
  {
    hide CartsOk, DeskOk, BankOk, ConfirmQuote, OpenCart, Findings;
    var r := ConfirmQuote(s.store, EnvOf(s), who, q, allowed);
    if r.Ok? {
      ConfirmQuoteShape(s.store, EnvOf(s), who, q, allowed, r.value);
      ConfirmsOwnCart(s.store, EnvOf(s), who, q, allowed);
    }
  }

  lemma OpeningLater(carts: seq<Cart>, who: Who, nextId: Id)
    requires CartsOk(carts, nextId)
    ensures OpenCart(carts, who, nextId).Ok? && CartsLater(carts, OpenCart(carts, who, nextId).value.0)
  {
    OpenCartFindsTheOne(carts, who, nextId);
  }

  lemma QuoteCallLater(s: Sys, who: Who, cartId: Id, allowed: bool)
    requires Inv(s)
    ensures Later(s.store, Next(s, QuoteCall(who, cartId, allowed)).store)
  {
    hide DeskOk, BankOk, CreateQuote, OpenCart;
    OpeningLater(s.store.shop.carts, who, s.nextId);
    var r := CreateQuote(s.store, EnvOf(s), who, cartId, allowed);
    if r.Ok? {
      CreateQuoteShape(s.store, EnvOf(s), who, cartId, allowed, r.value);
      ShopStepLater(s.store, r.value);
    } else {
      ShopStepLater(s.store, s.store);
    }
  }

  lemma CartCallLater(s: Sys, step: Step)
    requires Inv(s) && step.CartCall?
    ensures Later(s.store, Next(s, step).store)
  {
    hide CartsOk, DeskOk, BankOk, Mutate;
    var answer := CartAnswer(s, step);
    if answer.Done? {
      MutateKeepsCartsOk(s.store.shop, EnvOf(s), step.who, step.op, step.token, answer.shop);
      ShopStepLater(s.store, s.store.(shop := answer.shop));
    } else {
      ShopStepLater(s.store, s.store);
    }
  }

  lemma StepLater(s: Sys, step: Step)
    requires Inv(s)
    ensures Later(s.store, Next(s, step).store)
  {
    hide CartsOk, DeskOk, BankOk, OrderLater, QuoteLater, PaymentLater;
    match step {
      case VisitCart(who) =>
        OpeningLater(s.store.shop.carts, who, s.nextId);
        ShopStepLater(s.store, Next(s, step).store);
      case CartCall(_, _, _) => CartCallLater(s, step);
      case QuoteCall(who, cartId, allowed) => QuoteCallLater(s, who, cartId, allowed);
      case ConfirmCall(who, q, allowed) => ConfirmCallLater(s, who, q, allowed);
      case PayCall(tenant, o, provider) => PayCallLater(s, tenant, o, provider);
      case WebhookCall(d) => WebhookCallLater(s, d);
      case _ => ShopStepLater(s.store, Next(s, step).store);
    }
  }

  /** Over any run: converted carts, confirmed quotes, order contents and amounts,
      payment amounts, confirmations and attempts stay; settled statuses stay. */
  lemma {:induction false} RunLater(s: Sys, steps: seq<Step>)
    requires Inv(s)
    ensures Later(s.store, Run(s, steps).store)
  {
    if steps != [] {
      var front := steps[..|steps| - 1];
      RunInv(s, front);
      RunLater(s, front);
      StepLater(Run(s, front), steps[|steps| - 1]);
      LaterTransitive(s.store, Run(s, front).store, Run(s, steps).store);
    }
  }
}
