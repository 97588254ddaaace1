/** Which answer a quote or confirmation request gets, and the whole of what it writes. */
module DeskReplies {
  import opened Prelude
  import opened Tables
  import opened Carts
  import opened Shelf
  import opened Checkout
  import opened Machine
  import opened CartInvariant
  import opened DeskInvariant
  import opened LedgerInvariant
  import opened CartReplies
  import opened Safety
  import opened Guarantees

  ghost predicate AllAtOffer(shop: Shop, who: Who, cart: Cart) {
    forall i | 0 <= i < |cart.items| :: AtOffer(shop.catalog, who.tenant, cart.items[i])
  }

  // ----- quoting -----

  ghost predicate OwnCartNamed(carts: seq<Cart>, who: Who, cartId: Id, c: nat) {
    c < |carts| && IsActiveCartOf(carts[c], who) && carts[c].id == cartId
  }

  /** A caller without a cart is given a new, empty one, and could only name that. */
  ghost predicate NamesNewCart(carts: seq<Cart>, nextId: Id, who: Who, cartId: Id) {
    !HasCart(carts, who) && cartId == nextId
  }

  ghost predicate QuoteRefused(s: Sys, who: Who, cartId: Id, allowed: bool, e: Error) {
    var carts := s.store.shop.carts;
    match e
    case CartMismatch => !(exists c: nat :: OwnCartNamed(carts, who, cartId, c)) && !NamesNewCart(carts, s.nextId, who, cartId)
    case CartEmpty =>
      (exists c: nat :: OwnCartNamed(carts, who, cartId, c) && carts[c].items == []) || NamesNewCart(carts, s.nextId, who, cartId)
    case CartInvalid =>
      exists c: nat :: OwnCartNamed(carts, who, cartId, c) && carts[c].items != [] && !AllAtOffer(s.store.shop, who, carts[c])
    case PolicyDenied =>
      !allowed && exists c: nat :: OwnCartNamed(carts, who, cartId, c) && carts[c].items != [] && AllAtOffer(s.store.shop, who, carts[c])
    case _ => false
  }

  /** The quote of a cart, good for fifteen minutes. */
  function FreshQuote(who: Who, c: nat, cart: Cart, now: int): Quote {
    var paise := CartTotal(cart.items);
    Quote(who.tenant, c, "INR", 100 * paise, 0, 18 * paise, 118 * paise, now + 900, QuoteActive)
  }

  lemma NamedCart(carts: seq<Cart>, who: Who, nextId: Id, cartId: Id, c: nat)
    requires CartsOk(carts, nextId) && OwnCartNamed(carts, who, cartId, c)
    ensures OpenCart(carts, who, nextId) == Ok((carts, c)) && carts[c].currency == "INR"
    ensures forall d: nat :: OwnCartNamed(carts, who, cartId, d) <==> d == c
    ensures HasCart(carts, who)
  {
    OpenCartFindsTheOne(carts, who, nextId);
    hide OpenCart, LinesOk;
  }

  lemma FreshQuoteIs(who: Who, c: nat, cart: Cart, now: int)
    ensures PricedQuote(who.tenant, c, "INR", CartTotal(cart.items), now + FIFTEEN_MINUTES) == FreshQuote(who, c, cart, now)
  {
    hide CartTotal;
  }

  lemma NamedQuote(s: Sys, who: Who, cartId: Id, allowed: bool, c: nat)
    requires CartsOk(s.store.shop.carts, s.nextId) && OwnCartNamed(s.store.shop.carts, who, cartId, c)
    ensures var cart := s.store.shop.carts[c];
            CreateQuote(s.store, EnvOf(s), who, cartId, allowed)
            == if cart.items == [] then Err(CartEmpty)
               else if !AllAtOffer(s.store.shop, who, cart) then Err(CartInvalid)
               else if !allowed then Err(PolicyDenied)
               else Ok(s.store.(quotes := s.store.quotes + [FreshQuote(who, c, cart, s.now)]))
  {
    NamedCart(s.store.shop.carts, who, s.nextId, cartId, c);
    NoFindingsMeansAtOffer(s.store.shop.catalog, who.tenant, s.store.shop.carts[c].items);
    FreshQuoteIs(who, c, s.store.shop.carts[c], s.now);
    hide CartsOk, OpenCart, Findings, AtOffer, CartTotal, PricedQuote, FreshQuote, HasCart;
  }

  lemma OtherQuote(s: Sys, who: Who, cartId: Id, allowed: bool)
    requires CartsOk(s.store.shop.carts, s.nextId) && forall c: nat :: !OwnCartNamed(s.store.shop.carts, who, cartId, c)
    ensures CreateQuote(s.store, EnvOf(s), who, cartId, allowed)
            == Err(if NamesNewCart(s.store.shop.carts, s.nextId, who, cartId) then CartEmpty else CartMismatch)
  {
    OpenCartFindsTheOne(s.store.shop.carts, who, s.nextId);
    var (after, c) := OpenCart(s.store.shop.carts, who, s.nextId).value;
    hide CartsOk, OpenCart, Findings, CartTotal;
    if HasCart(s.store.shop.carts, who) {
      assert !OwnCartNamed(s.store.shop.carts, who, cartId, c);
    }
  }

  lemma QuoteError(s: Sys, who: Who, cartId: Id, allowed: bool, e: Error)
    requires CartsOk(s.store.shop.carts, s.nextId)
    ensures CreateQuote(s.store, EnvOf(s), who, cartId, allowed) == Err(e) <==> QuoteRefused(s, who, cartId, allowed, e)
  {
    hide CartsOk, CreateQuote, AllAtOffer, FreshQuote;
    if c: nat :| OwnCartNamed(s.store.shop.carts, who, cartId, c) {
      NamedCart(s.store.shop.carts, who, s.nextId, cartId, c);
      NamedQuote(s, who, cartId, allowed, c);
    } else {
      OtherQuote(s, who, cartId, allowed);
    }
    hide OwnCartNamed, HasCart;
  }

  lemma QuoteMade(s: Sys, who: Who, cartId: Id, allowed: bool)
    requires CartsOk(s.store.shop.carts, s.nextId)
    ensures var r, carts := CreateQuote(s.store, EnvOf(s), who, cartId, allowed), s.store.shop.carts;
            && (r.Ok? <==> allowed && exists c: nat :: OwnCartNamed(carts, who, cartId, c) && carts[c].items != []
                                                        && AllAtOffer(s.store.shop, who, carts[c]))
            && (r.Ok? ==> forall c: nat | OwnCartNamed(carts, who, cartId, c) ::
                            r.value == s.store.(quotes := s.store.quotes + [FreshQuote(who, c, carts[c], s.now)]))
  {
    hide CartsOk, CreateQuote, AllAtOffer, FreshQuote;
    if c: nat :| OwnCartNamed(s.store.shop.carts, who, cartId, c) {
      NamedCart(s.store.shop.carts, who, s.nextId, cartId, c);
      NamedQuote(s, who, cartId, allowed, c);
    } else {
      OtherQuote(s, who, cartId, allowed);
    }
    hide OwnCartNamed, HasCart;
  }

  /** In a reachable state a quote is made or refused for exactly the reason that holds, and
      making it writes that one row and nothing else. */
  lemma QuoteIff(s: Sys, who: Who, cartId: Id, allowed: bool)
    requires Reachable(s)
    ensures var r, carts := CreateQuote(s.store, EnvOf(s), who, cartId, allowed), s.store.shop.carts;
            && (forall e :: r == Err(e) <==> QuoteRefused(s, who, cartId, allowed, e))
            && (r.Ok? <==> allowed && exists c: nat :: OwnCartNamed(carts, who, cartId, c) && carts[c].items != []
                                                        && AllAtOffer(s.store.shop, who, carts[c]))
            && (r.Ok? ==> forall c: nat | OwnCartNamed(carts, who, cartId, c) ::
                            r.value == s.store.(quotes := s.store.quotes + [FreshQuote(who, c, carts[c], s.now)]))
  {
    ReachableInv(s);
    hide Reachable, CartsOk, CreateQuote, AllAtOffer, FreshQuote, OwnCartNamed, QuoteRefused;
    QuoteMade(s, who, cartId, allowed);
    forall e
      ensures CreateQuote(s.store, EnvOf(s), who, cartId, allowed) == Err(e) <==> QuoteRefused(s, who, cartId, allowed, e)
    {
      QuoteError(s, who, cartId, allowed, e);
    }
  }

  // ----- confirming -----

  /** The quote is the tenant's and active. */
  predicate OpenFor(s: Sys, who: Who, q: nat) {
    q < |s.store.quotes| && s.store.quotes[q].tenant == who.tenant && s.store.quotes[q].status == QuoteActive
  }

  predicate InTime(s: Sys, who: Who, q: nat) {
    OpenFor(s, who, q) && s.now <= s.store.quotes[q].expiresAt
  }

  /** In time, and of the cart the caller has active. */
  predicate OfOwnCart(s: Sys, who: Who, q: nat) {
    InTime(s, who, q) && s.store.quotes[q].cart < |s.store.shop.carts|
    && IsActiveCartOf(s.store.shop.carts[s.store.quotes[q].cart], who)
  }

  ghost predicate ConfirmRefused(s: Sys, who: Who, q: nat, allowed: bool, e: Error) {
    match e
    case QuoteNotFound => !OpenFor(s, who, q)
    case QuoteHasExpired => OpenFor(s, who, q) && !InTime(s, who, q)
    case CartMismatch => InTime(s, who, q) && !OfOwnCart(s, who, q)
    case CartInvalid => OfOwnCart(s, who, q) && !AllAtOffer(s.store.shop, who, s.store.shop.carts[s.store.quotes[q].cart])
    case PolicyDenied =>
      OfOwnCart(s, who, q) && AllAtOffer(s.store.shop, who, s.store.shop.carts[s.store.quotes[q].cart]) && !allowed
    case _ => false
  }

  predicate Itemizes(tenant: Id, items: seq<OrderItem>, lines: seq<Line>) {
    |items| == |lines| && forall i | 0 <= i < |lines| ::
      var l := lines[i];
      items[i] == OrderItem(tenant, l.product, l.variant, l.quantity, l.price, 0, l.price * l.quantity)
  }

  /** Confirming writes one confirmation and one order with one item per line, marks the quote
      and the cart, and nothing else. */
  ghost predicate Confirmed(s: Sys, who: Who, q: nat, after: Store)
    requires OfOwnCart(s, who, q)
  {
    var quote := s.store.quotes[q];
    var cart := s.store.shop.carts[quote.cart];
    && |after.orders| == |s.store.orders| + 1
    && var items := after.orders[|s.store.orders|].items;
       && Itemizes(who.tenant, items, cart.items)
       && after == s.store.(
            shop := s.store.shop.(carts := s.store.shop.carts[quote.cart := cart.(status := CartConverted)]),
            quotes := s.store.quotes[q := quote.(status := QuoteConfirmed)],
            confirmations := s.store.confirmations + [Confirmation(who.tenant, q, quote.total, quote.currency)],
            orders := s.store.orders + [Order(who.tenant, who.user, quote.cart, quote.currency, quote.subtotal, quote.discount,
                                              quote.tax, quote.total, OrderCreated, items)])
  }

  lemma OwnQuote(s: Sys, who: Who, q: nat, allowed: bool)
    requires CartsOk(s.store.shop.carts, s.nextId) && OfOwnCart(s, who, q)
    ensures var cart, r := s.store.shop.carts[s.store.quotes[q].cart], ConfirmQuote(s.store, EnvOf(s), who, q, allowed);
            if !AllAtOffer(s.store.shop, who, cart) then r == Err(CartInvalid)
            else if !allowed then r == Err(PolicyDenied)
            else r.Ok? && Confirmed(s, who, q, r.value)
  {
    var c := s.store.quotes[q].cart;
    NamedCart(s.store.shop.carts, who, s.nextId, s.store.shop.carts[c].id, c);
    NoFindingsMeansAtOffer(s.store.shop.catalog, who.tenant, s.store.shop.carts[c].items);
    hide CartsOk, OpenCart, Findings, AtOffer;
  }

  lemma OtherConfirm(s: Sys, who: Who, q: nat, allowed: bool)
    requires Inv(s) && !OfOwnCart(s, who, q)
    ensures ConfirmQuote(s.store, EnvOf(s), who, q, allowed)
            == Err(if !OpenFor(s, who, q) then QuoteNotFound else if !InTime(s, who, q) then QuoteHasExpired else CartMismatch)
  {
    OpenCartFindsTheOne(s.store.shop.carts, who, s.nextId);
    if InTime(s, who, q) {
      assert QuoteOk(s.store.shop.carts, s.store.quotes[q]);
    }
    hide CartsOk, DeskOk, BankOk, OpenCart, Findings;
  }

  lemma ConfirmError(s: Sys, who: Who, q: nat, allowed: bool, e: Error)
    requires Inv(s)
    ensures ConfirmQuote(s.store, EnvOf(s), who, q, allowed) == Err(e) <==> ConfirmRefused(s, who, q, allowed, e)
  {
    hide ConfirmQuote, AllAtOffer, Confirmed, DeskOk, BankOk, CartsOk;
    if OfOwnCart(s, who, q) {
      OwnQuote(s, who, q, allowed);
    } else {
      OtherConfirm(s, who, q, allowed);
    }
  }

  /** In a reachable state a confirmation is made or refused for exactly the reason that
      holds, and making it writes exactly what it should. */
  lemma ConfirmIff(s: Sys, who: Who, q: nat, allowed: bool)
    requires Reachable(s)
    ensures var r := ConfirmQuote(s.store, EnvOf(s), who, q, allowed);
            && (forall e :: r == Err(e) <==> ConfirmRefused(s, who, q, allowed, e))
            && (r.Ok? <==> OfOwnCart(s, who, q) && AllAtOffer(s.store.shop, who, s.store.shop.carts[s.store.quotes[q].cart]) && allowed)
            && (r.Ok? ==> Confirmed(s, who, q, r.value))
  {
    ReachableInv(s);
    hide Reachable, ConfirmQuote, AllAtOffer, Confirmed, DeskOk, BankOk, CartsOk, ConfirmRefused;
    forall e
      ensures ConfirmQuote(s.store, EnvOf(s), who, q, allowed) == Err(e) <==> ConfirmRefused(s, who, q, allowed, e)
    {
      ConfirmError(s, who, q, allowed, e);
    }
    if OfOwnCart(s, who, q) {
      OwnQuote(s, who, q, allowed);
    } else {
      OtherConfirm(s, who, q, allowed);
    }
  }
}
