/** Asking and answering with nothing in between: when the second call does what the
    first one promised. */
module Answers {
  import opened Prelude
  import opened Tables
  import opened Carts
  import opened Shelf
  import opened Machine
  import opened CartInvariant
  import opened TwoPhase
  import opened Safety

  /** The pieces of a product and variant already in the caller's active cart. */
  function InCart(carts: seq<Cart>, who: Who, product: Id, variant: Option<Id>): int {
    var found := ActiveCarts(carts, who);
    if found == [] then 0 else assert found[0] in found; Demand(carts[found[0]].items, product, variant)
  }

  /** The store as the first call saw it, some time later, with its token signed. */
  function Answering(env: Env, claims: Claims, seconds: nat): Env {
    env.(issued := env.issued + [claims], now := env.now + seconds, nextId := env.nextId + 4)
  }

  predicate InTime(env: Env, seconds: nat) {
    seconds < FIFTEEN_MINUTES || (seconds == FIFTEEN_MINUTES && !env.deadAtExp)
  }

  lemma VerifyAnswerIff(env: Env, claims: Claims, seconds: nat, who: Who, action: Action, target: Id,
                        quantity: Option<int>, price: Option<nat>, variant: Option<Id>)
    requires claims == Issue(env, who, action, target, quantity, price, variant)
    ensures Verify(Answering(env, claims, seconds), Signed(claims), who, action, target, quantity, variant)
            == if InTime(env, seconds) then Ok(claims) else Err(InvalidToken)
  {
  }

  /** Opening the cart a second time finds the same lines, and the same cart if there was one. */
  lemma OpenedAgain(carts: seq<Cart>, who: Who, first: Id, second: Id)
    requires CartsOk(carts, first) && first < second
    ensures var r, again := OpenCart(carts, who, first), OpenCart(carts, who, second);
            && r.Ok? && again.Ok?
            && again.value.0[again.value.1].items == r.value.0[r.value.1].items
            && (again.value.0[again.value.1].id == r.value.0[r.value.1].id <==> ActiveCarts(carts, who) != [])
  {
    ActiveCartIsUnique(carts, who, first);
  }

  lemma MergesIff(items: seq<Line>, bound: Id, id: Id, product: Id, variant: Option<Id>, quantity: int, offer: Offer)
    requires LinesOk(items, bound) && quantity <= offer.stock
    ensures MergeLine(items, id, product, variant, quantity, offer).Ok?
            <==> Demand(items, product, variant) + quantity <= offer.stock
  {
    var i := LineOfKey(items, product, variant);
    if i == |items| {
      TotalOfNone(items, PiecesOf(product, variant));
    } else {
      DemandIsTheLine(items, bound, i);
    }
  }

  lemma InCartIsDemand(carts: seq<Cart>, who: Who, nextId: Id, product: Id, variant: Option<Id>)
    requires CartsOk(carts, nextId)
    ensures var r := OpenCart(carts, who, nextId);
            r.Ok? && InCart(carts, who, product, variant) == Demand(r.value.0[r.value.1].items, product, variant)
  {
    ActiveCartIsUnique(carts, who, nextId);
  }

  /** The stock still covers what the cart would then hold; only an add can miss it. */
  predicate Covered(shop: Shop, who: Who, op: CartOp) {
    op.Add? ==> Holds(shop.catalog, who.tenant, op.product, op.variant,
                      InCart(shop.carts, who, op.product, op.variant) + op.quantity)
  }

  lemma AddAnswer(shop: Shop, env: Env, who: Who, op: CartOp, claims: Claims, seconds: nat)
    requires CartsOk(shop.carts, env.nextId) && op.Add?
    requires Mutate(shop, env, who, op, None) == Ask(claims)
    ensures Mutate(shop, Answering(env, claims, seconds), who, op, Some(Signed(claims))).Done?
            <==> InTime(env, seconds) && Covered(shop, who, op)
  {
    var offer := CurrentOffer(shop.catalog, who.tenant, op.product, op.variant).value;
    OfferIff(shop.catalog, who.tenant, op.product, op.variant);
    VerifyAnswerIff(env, claims, seconds, who, AddAction, op.product, Some(op.quantity), Some(offer.price), op.variant);
    OpenedAgain(shop.carts, who, env.nextId, env.nextId + 4);
    OpenedLinesOk(shop.carts, who, env.nextId);
    InCartIsDemand(shop.carts, who, env.nextId, op.product, op.variant);
    hide Verify, CartsOk, OpenCart, InCart, Demand, MergeLine, LinesOk, CurrentOffer, Holds;
    var (carts, c) := OpenCart(shop.carts, who, env.nextId + 4).value;
    MergesIff(carts[c].items, env.nextId + 1, env.nextId + 5, op.product, op.variant, op.quantity, offer);
  }

  lemma UpdateAnswer(shop: Shop, env: Env, who: Who, op: CartOp, claims: Claims, seconds: nat)
    requires CartsOk(shop.carts, env.nextId) && op.Update?
    requires Mutate(shop, env, who, op, None) == Ask(claims)
    ensures Mutate(shop, Answering(env, claims, seconds), who, op, Some(Signed(claims))).Done? <==> InTime(env, seconds)
  {
    OpenedAgain(shop.carts, who, env.nextId, env.nextId + 4);
    VerifyAnswerIff(env, claims, seconds, who, UpdateAction, op.item, Some(op.quantity), claims.price, None);
    hide Verify, CartsOk, OpenCart;
  }

  lemma RemoveAnswer(shop: Shop, env: Env, who: Who, op: CartOp, claims: Claims, seconds: nat)
    requires CartsOk(shop.carts, env.nextId) && op.Remove?
    requires Mutate(shop, env, who, op, None) == Ask(claims)
    ensures Mutate(shop, Answering(env, claims, seconds), who, op, Some(Signed(claims))).Done? <==> InTime(env, seconds)
  {
    OpenedAgain(shop.carts, who, env.nextId, env.nextId + 4);
    VerifyAnswerIff(env, claims, seconds, who, RemoveAction, op.item, None, None, None);
    hide Verify, CartsOk, OpenCart;
  }

  lemma ClearAnswer(shop: Shop, env: Env, who: Who, op: CartOp, claims: Claims, seconds: nat)
    requires CartsOk(shop.carts, env.nextId) && op.Clear?
    requires Mutate(shop, env, who, op, None) == Ask(claims)
    ensures Mutate(shop, Answering(env, claims, seconds), who, op, Some(Signed(claims))).Done?
            <==> InTime(env, seconds) && ActiveCarts(shop.carts, who) != []
  {
    OpenedAgain(shop.carts, who, env.nextId, env.nextId + 4);
    VerifyAnswerIff(env, claims, seconds, who, ClearAction, claims.target, None, None, None);
    hide CartsOk, OpenCart, ActiveCarts;
  }

  lemma Asked(s: Sys, who: Who, op: CartOp, claims: Claims, seconds: nat)
    requires CartAnswer(s, CartCall(who, op, None)) == Ask(claims)
    ensures var later := Next(Next(s, CartCall(who, op, None)), Machine.Tick(seconds));
            later.store == s.store && EnvOf(later) == Answering(EnvOf(s), claims, seconds)
  {
    hide Mutate;
  }

  /** A token presented while the shop stands still is honoured exactly when it is
      presented within its fifteen minutes, the stock covers the merged line of an add,
      and a clear has a cart to clear: the cart that a first clear opens is rolled back,
      so its token can never be used. */
  lemma PromptAnswerCommitsIff(s: Sys, who: Who, op: CartOp, claims: Claims, seconds: nat)
    requires Reachable(s)
    requires CartAnswer(s, CartCall(who, op, None)) == Ask(claims)
    ensures var later := Next(Next(s, CartCall(who, op, None)), Machine.Tick(seconds));
            CartAnswer(later, CartCall(who, op, Some(Signed(claims)))).Done?
            <==> && (seconds < 900 || (seconds == 900 && !s.deadAtExp))
                 && Covered(s.store.shop, who, op)
                 && (op.Clear? ==> ActiveCarts(s.store.shop.carts, who) != [])
  {
    ReachableInv(s);
    Asked(s, who, op, claims, seconds);
    hide Mutate, CartsOk, Next, ActiveCarts, InCart;
    match op {
      case Add(_, _, _) => AddAnswer(s.store.shop, EnvOf(s), who, op, claims, seconds);
      case Update(_, _) => UpdateAnswer(s.store.shop, EnvOf(s), who, op, claims, seconds);
      case Remove(_) => RemoveAnswer(s.store.shop, EnvOf(s), who, op, claims, seconds);
      case Clear => ClearAnswer(s.store.shop, EnvOf(s), who, op, claims, seconds);
    }
  }
}
