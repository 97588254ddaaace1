/** Which answer a cart call gets, said on the rows, the clock and the tokens handed out. */
module CartReplies {
  import opened Prelude
  import opened Tables
  import opened Carts
  import opened Shelf
  import opened Checkout
  import opened Payments
  import opened Webhooks
  import opened Machine
  import opened CartInvariant
  import opened DeskInvariant
  import opened LedgerInvariant
  import opened TwoPhase
  import opened Safety

  // ----- the caller's lines -----

  ghost predicate HasCart(carts: seq<Cart>, who: Who) {
    exists c: nat :: c < |carts| && IsActiveCartOf(carts[c], who)
  }

  /** A line of the caller's active cart. */
  ghost predicate InOwnCart(carts: seq<Cart>, who: Who, l: Line) {
    exists c: nat :: c < |carts| && IsActiveCartOf(carts[c], who) && l in carts[c].items
  }

  /** The line of the caller's active cart with this identifier. */
  ghost predicate IsOwnLine(carts: seq<Cart>, who: Who, item: Id, l: Line) {
    InOwnCart(carts, who, l) && l.id == item
  }

  ghost predicate HasLine(carts: seq<Cart>, who: Who, item: Id) {
    exists l :: IsOwnLine(carts, who, item, l)
  }

  // ----- before any token is looked at -----

  predicate Refuses(c: Catalog, tenant: Id, product: Id, variant: Option<Id>, quantity: int, e: Error) {
    if e == InsufficientInventory then Sellable(c, tenant, product, variant) && !Holds(c, tenant, product, variant, quantity)
    else Unsellable(c, tenant, product, variant, e)
  }

  /** What is asked for can be had: at least one piece of something for sale, in stock; or a
      line that is there. */
  ghost predicate Ready(shop: Shop, who: Who, op: CartOp) {
    match op
    case Add(p, v, q) => q >= 1 && Sellable(shop.catalog, who.tenant, p, v) && Holds(shop.catalog, who.tenant, p, v, q)
    case Update(item, q) =>
      q >= 1 && exists l :: IsOwnLine(shop.carts, who, item, l) && Sellable(shop.catalog, who.tenant, l.product, l.variant)
                            && Holds(shop.catalog, who.tenant, l.product, l.variant, q)
    case Remove(item) => HasLine(shop.carts, who, item)
    case Clear => true
  }

  /** Why it cannot. */
  ghost predicate NotReady(shop: Shop, who: Who, op: CartOp, e: Error) {
    match op
    case Add(p, v, q) => if e == BadQuantity then q < 1 else q >= 1 && Refuses(shop.catalog, who.tenant, p, v, q, e)
    case Update(item, q) =>
      if e == BadQuantity then q < 1
      else if e == ItemNotFound then q >= 1 && !HasLine(shop.carts, who, item)
      else q >= 1 && exists l :: IsOwnLine(shop.carts, who, item, l) && Refuses(shop.catalog, who.tenant, l.product, l.variant, q, e)
    case Remove(item) => e == ItemNotFound && !HasLine(shop.carts, who, item)
    case Clear => false
  }

  // ----- the token -----

  /** What a token for the operation is aimed at. A clear without a cart is aimed at the
      cart that would be opened. */
  ghost predicate Aims(carts: seq<Cart>, nextId: Id, who: Who, op: CartOp, target: Id) {
    match op
    case Add(p, _, _) => target == p
    case Update(item, _) => target == item
    case Remove(item) => target == item
    case Clear =>
      (exists c: nat :: c < |carts| && IsActiveCartOf(carts[c], who) && carts[c].id == target)
      || (!HasCart(carts, who) && target == nextId)
  }

  predicate Late(env: Env, exp: int) {
    env.now > exp || (env.deadAtExp && env.now == exp)
  }

  predicate Live(env: Env, c: Claims) {
    c in env.issued && !Late(env, c.exp)
  }

  predicate QuantityFits(op: CartOp, c: Claims) {
    (op.Add? ==> c.quantity == Some(op.quantity)) && (op.Update? ==> c.quantity == Some(op.quantity))
  }

  predicate VariantFits(op: CartOp, c: Claims) {
    op.Add? && op.variant.Some? ==> c.variant == op.variant
  }

  predicate AimFits(env: Env, who: Who, op: CartOp, target: Id, c: Claims) {
    Live(env, c) && c.who == who && c.action == ActionOf(op) && c.target == target
  }

  /** Handed out here, still alive, and for the same caller, action, target, quantity and,
      when the call names one, variant. */
  predicate Fits(env: Env, who: Who, op: CartOp, target: Id, token: Token) {
    token.Signed? && AimFits(env, who, op, target, token.claims)
    && QuantityFits(op, token.claims) && VariantFits(op, token.claims)
  }

  /** The first thing that is wrong with the token. */
  predicate TokenRefused(env: Env, who: Who, op: CartOp, target: Id, token: Token, e: Error) {
    match token
    case Garbage => e == InvalidToken
    case Login(exp) => e == if Late(env, exp) then InvalidToken else WrongTokenType
    case Signed(c) =>
      match e
      case InvalidToken => !Live(env, c)
      case WrongUser => Live(env, c) && c.who.user != who.user
      case WrongTenant => Live(env, c) && c.who.user == who.user && c.who.tenant != who.tenant
      case WrongAction => Live(env, c) && c.who == who && c.action != ActionOf(op)
      case WrongTarget => Live(env, c) && c.who == who && c.action == ActionOf(op) && c.target != target
      case WrongQuantity => AimFits(env, who, op, target, c) && !QuantityFits(op, c)
      case WrongVariant => AimFits(env, who, op, target, c) && QuantityFits(op, c) && !VariantFits(op, c)
      case _ => false
  }

  // ----- after the token -----

  /** What the operation concerns costs this much; a removal or clear has no price. */
  ghost predicate CostsNow(shop: Shop, who: Who, op: CartOp, price: nat) {
    match op
    case Add(p, v, _) => Costs(shop.catalog, p, v, price)
    case Update(item, _) => exists l :: IsOwnLine(shop.carts, who, item, l) && Costs(shop.catalog, l.product, l.variant, price)
    case _ => true
  }

  predicate HasPrice(op: CartOp) {
    op.Add? || op.Update?
  }

  ghost predicate PriceFits(shop: Shop, who: Who, op: CartOp, c: Claims) {
    HasPrice(op) ==> c.price.Some? && CostsNow(shop, who, op, c.price.value)
  }

  ghost predicate PriceRefused(shop: Shop, who: Who, op: CartOp, c: Claims, e: Error) {
    HasPrice(op) && ((e == MissingPrice && c.price.None?)
                     || (e == PriceChanged && c.price.Some? && !CostsNow(shop, who, op, c.price.value)))
  }

  /** An add that joins a line already there is covered in the joint quantity. */
  ghost predicate Room(shop: Shop, who: Who, op: CartOp) {
    op.Add? ==> forall l | InOwnCart(shop.carts, who, l) && l.product == op.product && l.variant == op.variant ::
                  Holds(shop.catalog, who.tenant, op.product, op.variant, l.quantity + op.quantity)
  }

  ghost predicate Refused(shop: Shop, env: Env, who: Who, op: CartOp, target: Id, token: Token, e: Error) {
    || NotReady(shop, who, op, e)
    || (Ready(shop, who, op) && TokenRefused(env, who, op, target, token, e))
    || (Ready(shop, who, op) && Fits(env, who, op, target, token) && PriceRefused(shop, who, op, token.claims, e))
    || (Ready(shop, who, op) && Fits(env, who, op, target, token) && PriceFits(shop, who, op, token.claims)
        && !Room(shop, who, op) && e == InsufficientCombinedInventory)
  }

  ghost predicate Honoured(shop: Shop, env: Env, who: Who, op: CartOp, target: Id, token: Token) {
    Ready(shop, who, op) && Fits(env, who, op, target, token) && PriceFits(shop, who, op, token.claims) && Room(shop, who, op)
  }

  // ----- the answers -----

  ghost predicate AsksRightly(shop: Shop, env: Env, who: Who, op: CartOp, target: Id, c: Claims) {
    c == Claims(who, ActionOf(op), target, QuantityOf(op), c.price, VariantOf(op), env.now + 900)
    && (if HasPrice(op) then c.price.Some? && CostsNow(shop, who, op, c.price.value) else c.price.None?)
  }

  ghost predicate FirstAnswer(shop: Shop, env: Env, who: Who, op: CartOp, target: Id) {
    var a := Mutate(shop, env, who, op, None);
    && (a.Ask? <==> Ready(shop, who, op))
    && (forall e :: a == Raise(e) <==> NotReady(shop, who, op, e))
    && (a.Ask? ==> AsksRightly(shop, env, who, op, target, a.claims))
  }

  ghost predicate SecondAnswer(shop: Shop, env: Env, who: Who, op: CartOp, target: Id, token: Token) {
    var a := Mutate(shop, env, who, op, Some(token));
    && (a.Done? <==> Honoured(shop, env, who, op, target, token))
    && (forall e :: a == Raise(e) <==> Refused(shop, env, who, op, target, token, e))
  }

  lemma VerifyIff(env: Env, who: Who, op: CartOp, target: Id, token: Token)
    ensures var r := Verify(env, token, who, ActionOf(op), target, QuantityOf(op), VariantOf(op));
            && (r.Ok? <==> Fits(env, who, op, target, token))
            && (r.Ok? ==> r.value == token.claims)
            && (forall e :: r == Err(e) <==> TokenRefused(env, who, op, target, token, e))
  {
  }

  lemma NoLinesOk(bound: Id)
    ensures LinesOk([], bound)
  {
  }

  lemma OwnLines(carts: seq<Cart>, who: Who, nextId: Id)
    requires CartsOk(carts, nextId)
    ensures OpenCart(carts, who, nextId).Ok?
    ensures var (after, c) := OpenCart(carts, who, nextId).value;
            && LinesOk(after[c].items, nextId)
            && (forall l :: InOwnCart(carts, who, l) <==> l in after[c].items)
            && (forall target :: Aims(carts, nextId, who, Clear, target) <==> target == after[c].id)
  {
    OpenCartFindsTheOne(carts, who, nextId);
    var (after, c) := OpenCart(carts, who, nextId).value;
    hide LinesOk, OpenCart;
    if HasCart(carts, who) {
      var d: nat :| d < |carts| && IsActiveCartOf(carts[d], who);
      assert after == carts && d == c;
    } else {
      NoLinesOk(nextId);
    }
  }

  lemma FoundLine(carts: seq<Cart>, who: Who, nextId: Id, item: Id)
    requires CartsOk(carts, nextId)
    ensures OpenCart(carts, who, nextId).Ok?
    ensures var (after, c) := OpenCart(carts, who, nextId).value;
            var i := LineOfId(after[c].items, item);
            && (HasLine(carts, who, item) <==> i < |after[c].items|)
            && (i < |after[c].items| ==> forall l :: IsOwnLine(carts, who, item, l) <==> l == after[c].items[i])
  {
    OwnLines(carts, who, nextId);
    var (after, c) := OpenCart(carts, who, nextId).value;
    LineFoundIff(after[c].items, nextId, item);
    hide CartsOk, OpenCart, LinesOk, LineOfId, InOwnCart;
    var i := LineOfId(after[c].items, item);
    if i < |after[c].items| {
      assert IsOwnLine(carts, who, item, after[c].items[i]);
    }
  }

  lemma LineFoundIff(items: seq<Line>, bound: Id, item: Id)
    requires LinesOk(items, bound)
    ensures var i := LineOfId(items, item);
            forall l :: l in items && l.id == item <==> i < |items| && l == items[i]
  {
  }

  lemma RefusalIff(c: Catalog, tenant: Id, product: Id, variant: Option<Id>, quantity: int)
    ensures var r := CurrentOffer(c, tenant, product, variant);
            && (r.Err? ==> forall e :: r.error == e <==> Refuses(c, tenant, product, variant, quantity, e))
            && (r.Ok? && r.value.stock < quantity ==>
                  forall e :: e == InsufficientInventory <==> Refuses(c, tenant, product, variant, quantity, e))
            && (r.Ok? && quantity <= r.value.stock ==> forall e :: !Refuses(c, tenant, product, variant, quantity, e))
  {
    OfferIff(c, tenant, product, variant);
  }

  // ----- the ladder of checks -----

  function OfferCheck(r: Result<Offer, Error>, quantity: int): Option<Error> {
    if r.Err? then Some(r.error) else if r.value.stock < quantity then Some(InsufficientInventory) else None
  }

  ghost predicate Ladder(a: CartOutcome, first: Option<Error>, tok: Result<Claims, Error>, price: Result<(), Error>, room: bool) {
    if first.Some? then a == Raise(first.value)
    else if tok.Err? then a == Raise(tok.error)
    else if price.Err? then a == Raise(price.error)
    else if !room then a == Raise(InsufficientCombinedInventory)
    else a.Done?
  }

  lemma Climb(shop: Shop, env: Env, who: Who, op: CartOp, target: Id, token: Token, a: CartOutcome,
              first: Option<Error>, tok: Result<Claims, Error>, price: Result<(), Error>, room: bool)
    requires Ladder(a, first, tok, price, room)
    requires (first.None? <==> Ready(shop, who, op)) && forall e :: NotReady(shop, who, op, e) <==> first == Some(e)
    requires (tok.Ok? <==> Fits(env, who, op, target, token)) && (tok.Ok? ==> token.Signed? && tok.value == token.claims)
    requires forall e :: tok == Err(e) <==> TokenRefused(env, who, op, target, token, e)
    requires first.None? && tok.Ok? ==>
               (price.Ok? <==> PriceFits(shop, who, op, tok.value))
               && forall e :: price == Err(e) <==> PriceRefused(shop, who, op, tok.value, e)
    requires first.None? && tok.Ok? && price.Ok? ==> (room <==> Room(shop, who, op))
    ensures a.Done? <==> Honoured(shop, env, who, op, target, token)
    ensures forall e :: a == Raise(e) <==> Refused(shop, env, who, op, target, token, e)
  {
    hide Ready, NotReady, Fits, TokenRefused, PriceFits, PriceRefused, Room;
  }

  // ----- add -----

  lemma RoomIff(shop: Shop, who: Who, nextId: Id, op: CartOp, id: Id)
    requires CartsOk(shop.carts, nextId) && op.Add? && Ready(shop, who, op)
    ensures OpenCart(shop.carts, who, nextId).Ok? && CurrentOffer(shop.catalog, who.tenant, op.product, op.variant).Ok?
    ensures var (after, c) := OpenCart(shop.carts, who, nextId).value;
            var r := MergeLine(after[c].items, id, op.product, op.variant, op.quantity,
                               CurrentOffer(shop.catalog, who.tenant, op.product, op.variant).value);
            && (r.Ok? <==> Room(shop, who, op)) && (r.Err? ==> r.error == InsufficientCombinedInventory)
  {
    OwnLines(shop.carts, who, nextId);
    OfferIff(shop.catalog, who.tenant, op.product, op.variant);
    hide CartsOk, OpenCart, CurrentOffer, InOwnCart, Sellable, Holds;
    var (after, c) := OpenCart(shop.carts, who, nextId).value;
    var items := after[c].items;
    var i := LineOfKey(items, op.product, op.variant);
    if i < |items| {
      assert forall l | l in items && l.product == op.product && l.variant == op.variant :: l == items[i];
    }
  }

  /** Where the checks before the token end, for something looked up in the catalogue. */
  ghost predicate Settles(shop: Shop, who: Who, op: CartOp, r: Result<Offer, Error>, quantity: int) {
    if r.Err? then !Ready(shop, who, op) && forall e :: NotReady(shop, who, op, e) <==> e == r.error
    else if r.value.stock < quantity then
      !Ready(shop, who, op) && forall e :: NotReady(shop, who, op, e) <==> e == InsufficientInventory
    else
      && Ready(shop, who, op) && (forall e :: !NotReady(shop, who, op, e))
      && (forall c: Claims :: PriceFits(shop, who, op, c) <==> PriceStands(c, r.value.price).Ok?)
      && (forall c: Claims, e :: PriceRefused(shop, who, op, c, e) <==> PriceStands(c, r.value.price) == Err(e))
      && (forall price: nat :: CostsNow(shop, who, op, price) <==> price == r.value.price)
  }

  lemma AddSettles(shop: Shop, who: Who, op: CartOp)
    requires op.Add?
    ensures op.quantity < 1 ==> !Ready(shop, who, op) && forall e :: NotReady(shop, who, op, e) <==> e == BadQuantity
    ensures op.quantity >= 1 ==>
              Settles(shop, who, op, CurrentOffer(shop.catalog, who.tenant, op.product, op.variant), op.quantity)
  {
    OfferIff(shop.catalog, who.tenant, op.product, op.variant);
    RefusalIff(shop.catalog, who.tenant, op.product, op.variant, op.quantity);
    NoBadQuantity(shop.catalog, who.tenant, op.product, op.variant, op.quantity);
    hide CurrentOffer, Sellable, Unsellable, Holds, Costs, Refuses;
  }

  lemma NoBadQuantity(c: Catalog, tenant: Id, product: Id, variant: Option<Id>, quantity: int)
    ensures !Refuses(c, tenant, product, variant, quantity, BadQuantity)
    ensures !Refuses(c, tenant, product, variant, quantity, ItemNotFound)
  {
  }

  lemma AddFirst(shop: Shop, env: Env, who: Who, op: CartOp, target: Id)
    requires CartsOk(shop.carts, env.nextId) && op.Add? && Aims(shop.carts, env.nextId, who, op, target)
    ensures FirstAnswer(shop, env, who, op, target)
  {
    AddSettles(shop, who, op);
    hide CurrentOffer, CartsOk, OpenCart, Ready, NotReady, PriceFits, PriceRefused, CostsNow;
  }

  lemma AddSecond(shop: Shop, env: Env, who: Who, op: CartOp, target: Id, token: Token)
    requires CartsOk(shop.carts, env.nextId) && op.Add? && Aims(shop.carts, env.nextId, who, op, target)
    ensures SecondAnswer(shop, env, who, op, target, token)
  {
    AddSettles(shop, who, op);
    VerifyIff(env, who, op, target, token);
    hide CurrentOffer, CartsOk, OpenCart, PriceFits, PriceRefused, CostsNow, PriceStands, MergeLine, Verify, Fits, TokenRefused, Room,
      NotReady, Honoured, Refused;
    var r := CurrentOffer(shop.catalog, who.tenant, op.product, op.variant);
    if Ready(shop, who, op) {
      RoomIff(shop, who, env.nextId, op, env.nextId + 1);
    }
    hide Ready;
    var tok := Verify(env, token, who, AddAction, op.product, Some(op.quantity), op.variant);
    var first := if op.quantity < 1 then Some(BadQuantity) else OfferCheck(r, op.quantity);
    var price := if r.Ok? && tok.Ok? then PriceStands(tok.value, r.value.price) else Ok(());
    Climb(shop, env, who, op, target, token, Mutate(shop, env, who, op, Some(token)), first, tok, price, Room(shop, who, op));
  }

  // ----- update -----

  lemma UpdateSettles(shop: Shop, who: Who, nextId: Id, op: CartOp)
    requires CartsOk(shop.carts, nextId) && op.Update?
    ensures OpenCart(shop.carts, who, nextId).Ok?
    ensures var (after, c) := OpenCart(shop.carts, who, nextId).value;
            var i := LineOfId(after[c].items, op.item);
            if op.quantity < 1 then !Ready(shop, who, op) && forall e :: NotReady(shop, who, op, e) <==> e == BadQuantity
            else if i == |after[c].items| then !Ready(shop, who, op) && forall e :: NotReady(shop, who, op, e) <==> e == ItemNotFound
            else
              var l := after[c].items[i];
              Settles(shop, who, op, CurrentOffer(shop.catalog, who.tenant, l.product, l.variant), op.quantity)
  {
    FoundLine(shop.carts, who, nextId, op.item);
    var (after, c) := OpenCart(shop.carts, who, nextId).value;
    var i := LineOfId(after[c].items, op.item);
    hide CurrentOffer, Sellable, Unsellable, Holds, Costs, Refuses, CartsOk, OpenCart, LineOfId, IsOwnLine;
    if i < |after[c].items| {
      var l := after[c].items[i];
      assert IsOwnLine(shop.carts, who, op.item, l);
      OfferIff(shop.catalog, who.tenant, l.product, l.variant);
      RefusalIff(shop.catalog, who.tenant, l.product, l.variant, op.quantity);
      NoBadQuantity(shop.catalog, who.tenant, l.product, l.variant, op.quantity);
    }
  }

  lemma UpdateFirst(shop: Shop, env: Env, who: Who, op: CartOp, target: Id)
    requires CartsOk(shop.carts, env.nextId) && op.Update? && Aims(shop.carts, env.nextId, who, op, target)
    ensures FirstAnswer(shop, env, who, op, target)
  {
    UpdateSettles(shop, who, env.nextId, op);
    hide CurrentOffer, CartsOk, OpenCart, Ready, NotReady, PriceFits, PriceRefused, CostsNow, LineOfId;
  }

  lemma UpdateSecond(shop: Shop, env: Env, who: Who, op: CartOp, target: Id, token: Token)
    requires CartsOk(shop.carts, env.nextId) && op.Update? && Aims(shop.carts, env.nextId, who, op, target)
    ensures SecondAnswer(shop, env, who, op, target, token)
  {
    UpdateSettles(shop, who, env.nextId, op);
    VerifyIff(env, who, op, target, token);
    hide CurrentOffer, CartsOk, OpenCart, PriceFits, PriceRefused, CostsNow, PriceStands, Verify, Fits, TokenRefused,
      NotReady, Ready, Honoured, Refused, LineOfId;
    var (after, c) := OpenCart(shop.carts, who, env.nextId).value;
    var i := LineOfId(after[c].items, op.item);
    var r := if i == |after[c].items| then Err(ItemNotFound)
             else CurrentOffer(shop.catalog, who.tenant, after[c].items[i].product, after[c].items[i].variant);
    var tok := Verify(env, token, who, UpdateAction, op.item, Some(op.quantity), None);
    var first := if op.quantity < 1 then Some(BadQuantity) else OfferCheck(r, op.quantity);
    var price := if r.Ok? && tok.Ok? then PriceStands(tok.value, r.value.price) else Ok(());
    Climb(shop, env, who, op, target, token, Mutate(shop, env, who, op, Some(token)), first, tok, price, true);
  }

  // ----- remove and clear -----

  lemma RemoveBoth(shop: Shop, env: Env, who: Who, op: CartOp, target: Id, token: Token)
    requires CartsOk(shop.carts, env.nextId) && op.Remove? && Aims(shop.carts, env.nextId, who, op, target)
    ensures FirstAnswer(shop, env, who, op, target) && SecondAnswer(shop, env, who, op, target, token)
  {
    FoundLine(shop.carts, who, env.nextId, op.item);
    VerifyIff(env, who, op, target, token);
    hide CartsOk, OpenCart, LineOfId, HasLine, IsOwnLine, Verify, Fits, TokenRefused;
  }

  lemma ClearBoth(shop: Shop, env: Env, who: Who, op: CartOp, target: Id, token: Token)
    requires CartsOk(shop.carts, env.nextId) && op.Clear? && Aims(shop.carts, env.nextId, who, op, target)
    ensures FirstAnswer(shop, env, who, op, target) && SecondAnswer(shop, env, who, op, target, token)
  {
    OwnLines(shop.carts, who, env.nextId);
    VerifyIff(env, who, op, target, token);
    hide CartsOk, OpenCart, HasCart, InOwnCart, Aims, Verify, Fits, TokenRefused, LinesOk;
  }

  // ----- every cart call -----

  /** A call without a token is answered with a question exactly when what it asks for can
      be had; the question names the caller, the aim, the quantity, the variant, the price
      in the rows and an expiry fifteen minutes on. Otherwise it raises for the reason that
      holds. */
  lemma FirstCallIff(s: Sys, who: Who, op: CartOp, target: Id)
    requires Reachable(s) && Aims(s.store.shop.carts, s.nextId, who, op, target)
    ensures var a := CartAnswer(s, CartCall(who, op, None));
            && (a.Ask? <==> Ready(s.store.shop, who, op))
            && (forall e :: a == Raise(e) <==> NotReady(s.store.shop, who, op, e))
            && (a.Ask? ==> AsksRightly(s.store.shop, EnvOf(s), who, op, target, a.claims))
  {
    ReachableInv(s);
    hide Mutate, CartsOk, Ready, NotReady, AsksRightly;
    match op {
      case Add(_, _, _) => AddFirst(s.store.shop, EnvOf(s), who, op, target);
      case Update(_, _) => UpdateFirst(s.store.shop, EnvOf(s), who, op, target);
      case Remove(_) => RemoveBoth(s.store.shop, EnvOf(s), who, op, target, Garbage);
      case Clear => ClearBoth(s.store.shop, EnvOf(s), who, op, target, Garbage);
    }
  }

  /** A call with a token commits exactly when what it asks for can be had, the token fits
      the call, the price in it still stands and a joined line has room; otherwise it
      raises for the first reason that holds. */
  lemma SecondCallIff(s: Sys, who: Who, op: CartOp, target: Id, token: Token)
    requires Reachable(s) && Aims(s.store.shop.carts, s.nextId, who, op, target)
    ensures var a := CartAnswer(s, CartCall(who, op, Some(token)));
            && (a.Done? <==> Honoured(s.store.shop, EnvOf(s), who, op, target, token))
            && (forall e :: a == Raise(e) <==> Refused(s.store.shop, EnvOf(s), who, op, target, token, e))
  {
    ReachableInv(s);
    hide Mutate, CartsOk, Honoured, Refused;
    match op {
      case Add(_, _, _) => AddSecond(s.store.shop, EnvOf(s), who, op, target, token);
      case Update(_, _) => UpdateSecond(s.store.shop, EnvOf(s), who, op, target, token);
      case Remove(_) => RemoveBoth(s.store.shop, EnvOf(s), who, op, target, token);
      case Clear => ClearBoth(s.store.shop, EnvOf(s), who, op, target, token);
    }
  }

  /** Every call has one aim. */
  lemma OneAim(s: Sys, who: Who, op: CartOp) returns (target: Id)
    requires Reachable(s)
    ensures forall t :: Aims(s.store.shop.carts, s.nextId, who, op, t) <==> t == target
  {
    match op {
      case Add(p, _, _) => target := p;
      case Update(item, _) => target := item;
      case Remove(item) => target := item;
      case Clear =>
        ReachableInv(s);
        OwnLines(s.store.shop.carts, who, s.nextId);
        var (after, c) := OpenCart(s.store.shop.carts, who, s.nextId).value;
        target := after[c].id;
    }
  }

  /** Looking at a cart opens an empty one for a caller who has none, and changes nothing else. */
  lemma VisitOpens(s: Sys, who: Who)
    requires Reachable(s)
    ensures var carts, later := s.store.shop.carts, Next(s, VisitCart(who));
            later == s.(nextId := s.nextId + 2, store := s.store.(shop := s.store.shop.(carts :=
                       if HasCart(carts, who) then carts
                       else carts + [Cart(s.nextId, who.tenant, who.user, CartActive, "INR", [])])))
  {
    hide Reachable, DeskOk, BankOk, Mutate, CreateQuote, ConfirmQuote, CreatePayment, Webhook;
    ReachableInv(s);
    OpenCartFindsTheOne(s.store.shop.carts, who, s.nextId);
    hide CartsOk, OpenCart;
  }
}
