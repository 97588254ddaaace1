/** Carts, quotes, confirmations and orders: what every step keeps about them. */
module DeskInvariant {
  import opened Prelude
  import opened Tables
  import opened Carts
  import opened Checkout
  import opened CartInvariant

  /** A quote belongs to a cart of its tenant; its amounts are 100, 18 and 118 times the
      quoted paise. */
  ghost predicate QuoteOk(carts: seq<Cart>, quote: Quote) {
    && quote.cart < |carts|
    && quote.tenant == carts[quote.cart].tenant
    && quote.currency == carts[quote.cart].currency
    && quote.status != QuoteExpired
    && Priced(quote.subtotal, quote.discount, quote.tax, quote.total)
  }

  predicate Priced(subtotal: int, discount: int, tax: int, total: int) {
    var paise := subtotal / 100;
    paise >= 0 && subtotal == 100 * paise && discount == 0 && tax == 18 * paise && total == 118 * paise
  }

  /** An order, the confirmation written with it, the quote confirmed and the cart converted. */
  ghost predicate OrderOk(carts: seq<Cart>, quotes: seq<Quote>, confirmation: Confirmation, order: Order) {
    && confirmation.quote < |quotes|
    && order.cart < |carts|
    && var quote := quotes[confirmation.quote];
       var cart := carts[order.cart];
       && quote.status == QuoteConfirmed && cart.status == CartConverted
       && quote.cart == order.cart
       && order.customer == cart.user
       && order.tenant == confirmation.tenant == quote.tenant == cart.tenant
       && order.currency == confirmation.currency == quote.currency == cart.currency
       && order.subtotal == quote.subtotal && order.discount == quote.discount && order.tax == quote.tax
       && order.total == confirmation.amount == quote.total
       && order.items == OrderItemsOf(cart.tenant, cart.items)
  }

  ghost predicate HasOrder(orders: seq<Order>, c: nat) {
    exists n :: 0 <= n < |orders| && orders[n].cart == c
  }

  ghost predicate HasConfirmation(confirmations: seq<Confirmation>, q: nat) {
    exists n :: 0 <= n < |confirmations| && confirmations[n].quote == q
  }

  /** The n-th confirmation and the n-th order were written together. Different orders
      have different carts, and every converted cart and confirmed quote has its order. */
  ghost predicate DeskOk(carts: seq<Cart>, quotes: seq<Quote>, confirmations: seq<Confirmation>, orders: seq<Order>) {
    && |confirmations| == |orders|
    && (forall q | 0 <= q < |quotes| :: QuoteOk(carts, quotes[q]))
    && (forall n | 0 <= n < |orders| :: OrderOk(carts, quotes, confirmations[n], orders[n]))
    && (forall n, m | 0 <= n < m < |orders| :: orders[n].cart != orders[m].cart)
    && (forall c | 0 <= c < |carts| && carts[c].status == CartConverted :: HasOrder(orders, c))
    && (forall q | 0 <= q < |quotes| && quotes[q].status == QuoteConfirmed :: HasConfirmation(confirmations, q))
  }

  // ----- cart steps -----

  /** Only lines of active carts change, and new carts are active. */
  ghost predicate ActiveLinesOnly(before: seq<Cart>, after: seq<Cart>) {
    && |before| <= |after|
    && (forall c | 0 <= c < |before| ::
          after[c] == before[c]
          || (before[c].status == CartActive && after[c] == before[c].(items := after[c].items)))
    && (forall c | |before| <= c < |after| :: after[c].status == CartActive)
  }

  lemma CartStepKeepsDeskOk(before: seq<Cart>, after: seq<Cart>, quotes: seq<Quote>,
                            confirmations: seq<Confirmation>, orders: seq<Order>)
    requires DeskOk(before, quotes, confirmations, orders) && ActiveLinesOnly(before, after)
    ensures DeskOk(after, quotes, confirmations, orders)
  {
    forall q | 0 <= q < |quotes| ensures QuoteOk(after, quotes[q]) {
      assert QuoteOk(before, quotes[q]);
    }
    forall n | 0 <= n < |orders| ensures OrderOk(after, quotes, confirmations[n], orders[n]) {
      assert OrderOk(before, quotes, confirmations[n], orders[n]);
    }
  }

  // ----- quoting -----

  lemma CartTotalNotNegative(items: seq<Line>, bound: Id)
    requires LinesOk(items, bound)
    ensures CartTotal(items) >= 0
  {
    if items != [] {
      var l := items[|items| - 1];
      assert l.price * l.quantity >= 0;
      CartTotalNotNegative(items[..|items| - 1], bound);
    }
  }

  lemma NewQuoteKeepsDeskOk(carts: seq<Cart>, quotes: seq<Quote>, confirmations: seq<Confirmation>, orders: seq<Order>,
                            quote: Quote)
    requires DeskOk(carts, quotes, confirmations, orders)
    requires QuoteOk(carts, quote) && quote.status == QuoteActive
    ensures DeskOk(carts, quotes + [quote], confirmations, orders)
  {
    var after := quotes + [quote];
    forall n | 0 <= n < |orders| ensures OrderOk(carts, after, confirmations[n], orders[n]) {
      assert OrderOk(carts, quotes, confirmations[n], orders[n]);
    }
  }

  lemma OpeningKeepsDeskOk(before: seq<Cart>, who: Who, nextId: Id, quotes: seq<Quote>,
                           confirmations: seq<Confirmation>, orders: seq<Order>)
    requires CartsOk(before, nextId) && DeskOk(before, quotes, confirmations, orders)
    ensures OpenCart(before, who, nextId).Ok?
    ensures var (carts, c) := OpenCart(before, who, nextId).value;
            CartsOk(carts, nextId + 2) && ActiveLinesOnly(before, carts) && DeskOk(carts, quotes, confirmations, orders)
  {
    hide LinesOk, DeskOk, OpenCart;
    OpenCartFindsTheOne(before, who, nextId);
    var (carts, c) := OpenCart(before, who, nextId).value;
    CartsOkGrows(carts, nextId + 1, nextId + 2);
    CartStepKeepsDeskOk(before, carts, quotes, confirmations, orders);
  }

  lemma PricedQuoteOk(carts: seq<Cart>, c: nat, bound: Id, expiresAt: int)
    requires CartsOk(carts, bound) && c < |carts|
    ensures QuoteOk(carts, PricedQuote(carts[c].tenant, c, carts[c].currency, CartTotal(carts[c].items), expiresAt))
  {
    CartTotalNotNegative(carts[c].items, bound);
  }

  lemma CreateQuoteShape(store: Store, env: Env, who: Who, cartId: Id, allowed: bool, after: Store)
    requires CreateQuote(store, env, who, cartId, allowed) == Ok(after)
    ensures var (carts, c) := OpenCart(store.shop.carts, who, env.nextId).value;
            var quote := PricedQuote(carts[c].tenant, c, carts[c].currency, CartTotal(carts[c].items), env.now + FIFTEEN_MINUTES);
            && carts[c].items != []
            && after == store.(shop := store.shop.(carts := carts), quotes := store.quotes + [quote])
  {
  }

  /** No payment, attempt or event is touched. */
  ghost predicate BankUntouched(before: Store, after: Store) {
    after.payments == before.payments && after.attempts == before.attempts
    && after.events == before.events && after.nextEvent == before.nextEvent
  }

  lemma CreateQuoteKeepsDeskOk(store: Store, env: Env, who: Who, cartId: Id, allowed: bool, after: Store)
    requires CartsOk(store.shop.carts, env.nextId)
    requires DeskOk(store.shop.carts, store.quotes, store.confirmations, store.orders)
    requires CreateQuote(store, env, who, cartId, allowed) == Ok(after)
    ensures after.orders == store.orders && BankUntouched(store, after)
    ensures CartsOk(after.shop.carts, env.nextId + 2)
    ensures DeskOk(after.shop.carts, after.quotes, after.confirmations, after.orders)
  {
    hide CartsOk, DeskOk, QuoteOk;
    CreateQuoteShape(store, env, who, cartId, allowed, after);
    OpeningKeepsDeskOk(store.shop.carts, who, env.nextId, store.quotes, store.confirmations, store.orders);
    var (carts, c) := OpenCart(store.shop.carts, who, env.nextId).value;
    PricedQuoteOk(carts, c, env.nextId + 2, env.now + FIFTEEN_MINUTES);
    NewQuoteKeepsDeskOk(carts, store.quotes, store.confirmations, store.orders, after.quotes[|store.quotes|]);
  }

  // ----- confirming -----

  lemma ConversionKeepsCartsOk(carts: seq<Cart>, c: nat, bound: Id)
    requires CartsOk(carts, bound) && c < |carts|
    ensures CartsOk(carts[c := carts[c].(status := CartConverted)], bound)
  {
    var after := carts[c := carts[c].(status := CartConverted)];
    forall d, e | 0 <= d < e < |after| && after[d].status == CartActive && after[e].status == CartActive
      ensures !SameOwner(after[d], after[e])
    {
      assert after[d] == carts[d] && after[e] == carts[e];
    }
  }

  lemma ConversionKeepsDeskOk(carts: seq<Cart>, quotes: seq<Quote>, confirmations: seq<Confirmation>, orders: seq<Order>,
                              q: nat, who: Who)
    requires DeskOk(carts, quotes, confirmations, orders)
    requires q < |quotes| && quotes[q].status == QuoteActive && quotes[q].tenant == who.tenant
    requires IsActiveCartOf(carts[quotes[q].cart], who)
    ensures var c := quotes[q].cart;
            DeskOk(carts[c := carts[c].(status := CartConverted)],
                   quotes[q := quotes[q].(status := QuoteConfirmed)],
                   confirmations + [Confirmation(who.tenant, q, quotes[q].total, quotes[q].currency)],
                   orders + [OrderOf(who, quotes[q], c, carts[c].items)])
  {
    var c := quotes[q].cart;
    var carts' := carts[c := carts[c].(status := CartConverted)];
    var quotes' := quotes[q := quotes[q].(status := QuoteConfirmed)];
    var confirmations' := confirmations + [Confirmation(who.tenant, q, quotes[q].total, quotes[q].currency)];
    var orders' := orders + [OrderOf(who, quotes[q], c, carts[c].items)];
    forall r | 0 <= r < |quotes'| ensures QuoteOk(carts', quotes'[r]) {
      assert QuoteOk(carts, quotes[r]);
    }
    forall n | 0 <= n < |orders'| ensures OrderOk(carts', quotes', confirmations'[n], orders'[n]) {
      if n < |orders| {
        assert OrderOk(carts, quotes, confirmations[n], orders[n]);
      }
    }
    forall n, m | 0 <= n < m < |orders'| ensures orders'[n].cart != orders'[m].cart {
      assert OrderOk(carts, quotes, confirmations[n], orders[n]);
    }
    forall d | 0 <= d < |carts'| && carts'[d].status == CartConverted ensures HasOrder(orders', d) {
      var n := if d == c then |orders| else var n :| 0 <= n < |orders| && orders[n].cart == d; n;
      assert orders'[n].cart == d;
    }
    forall r | 0 <= r < |quotes'| && quotes'[r].status == QuoteConfirmed ensures HasConfirmation(confirmations', r) {
      var n := if r == q then |confirmations| else var n :| 0 <= n < |confirmations| && confirmations[n].quote == r; n;
      assert confirmations'[n].quote == r;
    }
  }

  lemma ConfirmQuoteShape(store: Store, env: Env, who: Who, q: nat, allowed: bool, after: Store)
    requires ConfirmQuote(store, env, who, q, allowed) == Ok(after)
    ensures q < |store.quotes| && store.quotes[q].status == QuoteActive && store.quotes[q].tenant == who.tenant
    ensures env.now <= store.quotes[q].expiresAt
    ensures OpenCart(store.shop.carts, who, env.nextId).Ok?
    ensures var (carts, c) := OpenCart(store.shop.carts, who, env.nextId).value;
            var quote := store.quotes[q];
            && c == quote.cart
            && Findings(store.shop.catalog, who.tenant, carts[c].items) == []
            && after == store.(
                  shop := store.shop.(carts := carts[c := carts[c].(status := CartConverted)]),
                  quotes := store.quotes[q := quote.(status := QuoteConfirmed)],
                  confirmations := store.confirmations + [Confirmation(who.tenant, q, quote.total, quote.currency)],
                  orders := store.orders + [OrderOf(who, quote, c, carts[c].items)])
  {
  }

  /** A quote is confirmed on its own cart, which the caller has active and which was
      there before the call. */
  lemma ConfirmsOwnCart(store: Store, env: Env, who: Who, q: nat, allowed: bool)
    requires CartsOk(store.shop.carts, env.nextId)
    requires DeskOk(store.shop.carts, store.quotes, store.confirmations, store.orders)
    requires ConfirmQuote(store, env, who, q, allowed).Ok?
    ensures OpenCart(store.shop.carts, who, env.nextId) == Ok((store.shop.carts, store.quotes[q].cart))
    ensures IsActiveCartOf(store.shop.carts[store.quotes[q].cart], who)
  {
    ConfirmQuoteShape(store, env, who, q, allowed, ConfirmQuote(store, env, who, q, allowed).value);
    assert QuoteOk(store.shop.carts, store.quotes[q]);
    OpenCartFindsTheOne(store.shop.carts, who, env.nextId);
  }

  lemma ConfirmQuoteKeepsDeskOk(store: Store, env: Env, who: Who, q: nat, allowed: bool, after: Store)
    requires CartsOk(store.shop.carts, env.nextId)
    requires DeskOk(store.shop.carts, store.quotes, store.confirmations, store.orders)
    requires ConfirmQuote(store, env, who, q, allowed) == Ok(after)
    ensures |after.orders| == |store.orders| + 1 && after.orders[..|store.orders|] == store.orders
    ensures after.orders[|store.orders|].status == OrderCreated && BankUntouched(store, after)
    ensures CartsOk(after.shop.carts, env.nextId + 2)
    ensures DeskOk(after.shop.carts, after.quotes, after.confirmations, after.orders)
  {
    hide CartsOk, DeskOk, OpenCart, ConfirmQuote, Findings;
    ConfirmQuoteShape(store, env, who, q, allowed, after);
    ConfirmsOwnCart(store, env, who, q, allowed);
    var carts, c := store.shop.carts, store.quotes[q].cart;
    CartsOkGrows(carts, env.nextId, env.nextId + 2);
    ConversionKeepsCartsOk(carts, c, env.nextId + 2);
    ConversionKeepsDeskOk(carts, store.quotes, store.confirmations, store.orders, q, who);
  }

  // ----- payment steps -----

  predicate OnlyStatus(before: seq<Order>, after: seq<Order>) {
    |before| == |after| && forall n | 0 <= n < |before| :: after[n] == before[n].(status := after[n].status)
  }

  lemma OrderStatusKeepsDeskOk(carts: seq<Cart>, quotes: seq<Quote>, confirmations: seq<Confirmation>,
                               orders: seq<Order>, orders': seq<Order>)
    requires DeskOk(carts, quotes, confirmations, orders) && OnlyStatus(orders, orders')
    ensures DeskOk(carts, quotes, confirmations, orders')
  {
    forall n | 0 <= n < |orders'| ensures OrderOk(carts, quotes, confirmations[n], orders'[n]) {
      assert OrderOk(carts, quotes, confirmations[n], orders[n]);
    }
    forall c | 0 <= c < |carts| && carts[c].status == CartConverted ensures HasOrder(orders', c) {
      var n :| 0 <= n < |orders| && orders[n].cart == c;
      assert orders'[n].cart == c;
    }
  }
}
