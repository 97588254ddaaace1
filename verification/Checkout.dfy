/** Quotes of an active cart and their conversion into orders. */
module Checkout {
  import opened Prelude
  import opened Tables
  import opened Carts

  /** The totals of a cart of `paise`: 18% tax, no discount. A product of two two-place
      decimals has four places, so the tax is `18 * paise` ten-thousandths exactly. */
  function PricedQuote(tenant: Id, cart: nat, currency: string, paise: int, expiresAt: int): Quote {
    var subtotal := 100 * paise;
    var discount := 0;
    var tax := 18 * paise;
    Quote(tenant, cart, currency, subtotal, discount, tax, subtotal - discount + tax, expiresAt, QuoteActive)
  }

  function CreateQuote(store: Store, env: Env, who: Who, cartId: Id, allowed: bool): Result<Store, Error> {
    var (carts, c) :- OpenCart(store.shop.carts, who, env.nextId);
    if carts[c].id != cartId then Err(CartMismatch)
    else if carts[c].items == [] then Err(CartEmpty)
    else if Findings(store.shop.catalog, who.tenant, carts[c].items) != [] then Err(CartInvalid)
    else if !allowed then Err(PolicyDenied)
    else
      var quote := PricedQuote(who.tenant, c, carts[c].currency, CartTotal(carts[c].items), env.now + FIFTEEN_MINUTES);
      Ok(store.(shop := store.shop.(carts := carts), quotes := store.quotes + [quote]))
  }

  function OrderItemOf(tenant: Id, l: Line): OrderItem {
    OrderItem(tenant, l.product, l.variant, l.quantity, l.price, 0, LineTotal(l))
  }

  function OrderItemsOf(tenant: Id, items: seq<Line>): seq<OrderItem> {
    seq(|items|, i requires 0 <= i < |items| => OrderItemOf(tenant, items[i]))
  }

  function OrderOf(who: Who, quote: Quote, cart: nat, items: seq<Line>): Order {
    Order(who.tenant, who.user, cart, quote.currency, quote.subtotal, quote.discount, quote.tax, quote.total,
          OrderCreated, OrderItemsOf(who.tenant, items))
  }

  /** The user is never compared with the quote; only the caller's own active cart is. */
  function ConfirmQuote(store: Store, env: Env, who: Who, q: nat, allowed: bool): Result<Store, Error> {
    if q >= |store.quotes| || store.quotes[q].tenant != who.tenant || store.quotes[q].status != QuoteActive
    then Err(QuoteNotFound)
    else if store.quotes[q].expiresAt < env.now then Err(QuoteHasExpired)
    else
      var quote := store.quotes[q];
      var (carts, c) :- OpenCart(store.shop.carts, who, env.nextId);
      if c != quote.cart then Err(CartMismatch)
      else if Findings(store.shop.catalog, who.tenant, carts[c].items) != [] then Err(CartInvalid)
      else if !allowed then Err(PolicyDenied)
      else
        Ok(store.(
          shop := store.shop.(carts := carts[c := carts[c].(status := CartConverted)]),
          quotes := store.quotes[q := quote.(status := QuoteConfirmed)],
          confirmations := store.confirmations + [Confirmation(who.tenant, q, quote.total, quote.currency)],
          orders := store.orders + [OrderOf(who, quote, c, carts[c].items)]))
  }
}
