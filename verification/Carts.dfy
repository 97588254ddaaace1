/** The cart service: every mutation is asked for first and carried out only when the
    token of that answer comes back. */
module Carts {
  import opened Prelude
  import opened Tables

  datatype Who = Who(tenant: Id, user: Id)

  datatype Action = AddAction | UpdateAction | RemoveAction | ClearAction

  datatype Claims = Claims(
    who: Who, action: Action, target: Id,
    quantity: Option<int>, price: Option<nat>, variant: Option<Id>, exp: int)

  /** What a client may present: bytes that are no token of this server, one of its
      login tokens, or a confirmation token with its claims. */
  datatype Token = Garbage | Login(exp: int) | Signed(claims: Claims)

  /** What a request may use besides the rows: the claims signed so far, the clock, the
      reading of a token's last instant, and identifiers never drawn before. */
  datatype Env = Env(issued: seq<Claims>, now: int, deadAtExp: bool, nextId: Id)

  datatype CartOp =
    | Add(product: Id, variant: Option<Id>, quantity: int)
    | Update(item: Id, quantity: int)
    | Remove(item: Id)
    | Clear

  datatype CartOutcome = Raise(error: Error) | Ask(claims: Claims) | Done(shop: Shop)

  // ----- catalogue -----

  datatype Offer = Offer(price: nat, stock: nat)

  function EffectiveStock(catalog: Catalog, key: StockKey): nat {
    if key in catalog.inventory then
      var inv := catalog.inventory[key];
      if inv.available - inv.reserved > 0 then inv.available - inv.reserved else 0
    else 0
  }

  function CurrentOffer(catalog: Catalog, tenant: Id, product: Id, variant: Option<Id>): Result<Offer, Error> {
    if product !in catalog.products || catalog.products[product].tenant != tenant then Err(ProductNotFound)
    else if !catalog.products[product].active then Err(ProductInactive)
    else
      var stock := EffectiveStock(catalog, StockKey(tenant, product, variant));
      match variant
      case None => Ok(Offer(catalog.products[product].price, stock))
      case Some(v) =>
        if v !in catalog.variants || catalog.variants[v].product != product || catalog.variants[v].tenant != tenant
        then Err(VariantNotFound)
        else if !catalog.variants[v].active then Err(VariantInactive)
        else Ok(Offer(catalog.variants[v].price, stock))
  }

  // ----- confirmation tokens -----

  predicate Expired(env: Env, exp: int) {
    env.now > exp || (env.deadAtExp && env.now == exp)
  }

  function Issue(env: Env, who: Who, action: Action, target: Id,
                 quantity: Option<int>, price: Option<nat>, variant: Option<Id>): Claims {
    Claims(who, action, target, quantity, price, variant, env.now + FIFTEEN_MINUTES)
  }

  /** A signature checks out exactly for claims this server has signed. */
  function Verify(env: Env, token: Token, who: Who, action: Action, target: Id,
                  quantity: Option<int>, variant: Option<Id>): Result<Claims, Error> {
    match token
    case Garbage => Err(InvalidToken)
    case Login(exp) => if Expired(env, exp) then Err(InvalidToken) else Err(WrongTokenType)
    case Signed(c) =>
      if c !in env.issued || Expired(env, c.exp) then Err(InvalidToken)
      else if c.who.user != who.user then Err(WrongUser)
      else if c.who.tenant != who.tenant then Err(WrongTenant)
      else if c.action != action then Err(WrongAction)
      else if c.target != target then Err(WrongTarget)
      else if quantity.Some? && c.quantity != quantity then Err(WrongQuantity)
      else if variant.Some? && c.variant != variant then Err(WrongVariant)
      else Ok(c)
  }

  /** The price shown when the token was issued must still be the price. */
  function PriceStands(c: Claims, price: nat): Result<(), Error> {
    if c.price.None? then Err(MissingPrice)
    else if c.price.value != price then Err(PriceChanged)
    else Ok(())
  }

  // ----- carts -----

  function ActiveFor(who: Who): Cart -> bool {
    (c: Cart) => c.tenant == who.tenant && c.user == who.user && c.status == CartActive
  }

  function ActiveCarts(carts: seq<Cart>, who: Who): seq<nat> {
    Select(carts, ActiveFor(who))
  }

  function NewCart(id: Id, who: Who): Cart {
    Cart(id, who.tenant, who.user, CartActive, INR, [])
  }

  /** The owner's active cart, opened when there is none. */
  function OpenCart(carts: seq<Cart>, who: Who, nextId: Id): (r: Result<(seq<Cart>, nat), Error>)
    ensures r.Ok? ==>
              var (after, c) := r.value;
              c < |after| && after[c].tenant == who.tenant && after[c].user == who.user && after[c].status == CartActive
  {
    var found := ActiveCarts(carts, who);
    if |found| == 0 then Ok((carts + [NewCart(nextId, who)], |carts|))
    else if |found| == 1 then assert found[0] in found; Ok((carts, found[0]))
    else Err(MultipleRows)
  }

  /** The first line that satisfies a condition, or the number of lines. */
  function FirstLine(items: seq<Line>, p: Line -> bool): (i: nat)
    ensures i <= |items|
    ensures i < |items| ==> p(items[i])
    ensures forall j | 0 <= j < i :: !p(items[j])
  {
    if items == [] then 0
    else if p(items[0]) then 0
    else 1 + FirstLine(items[1..], p)
  }

  function LineOfKey(items: seq<Line>, product: Id, variant: Option<Id>): (i: nat)
    ensures i <= |items|
  {
    FirstLine(items, (l: Line) => l.product == product && l.variant == variant)
  }

  function LineOfId(items: seq<Line>, id: Id): (i: nat)
    ensures i <= |items|
  {
    FirstLine(items, (l: Line) => l.id == id)
  }

  function MergeLine(items: seq<Line>, id: Id, product: Id, variant: Option<Id>, quantity: int, offer: Offer)
    : Result<seq<Line>, Error>
  {
    var i := LineOfKey(items, product, variant);
    if i == |items| then Ok(items + [Line(id, product, variant, quantity, offer.price)])
    else
      var combined := items[i].quantity + quantity;
      if offer.stock < combined then Err(InsufficientCombinedInventory)
      else Ok(items[i := items[i].(quantity := combined, price := offer.price)])
  }

  function WithItems(shop: Shop, carts: seq<Cart>, c: nat, items: seq<Line>): Shop
    requires c < |carts|
  {
    shop.(carts := carts[c := carts[c].(items := items)])
  }

  // ----- the four mutations -----

  function AddItem(shop: Shop, env: Env, who: Who, product: Id, variant: Option<Id>, quantity: int, token: Option<Token>)
    : CartOutcome
  {
    if quantity <= 0 then Raise(BadQuantity)
    else
      match CurrentOffer(shop.catalog, who.tenant, product, variant)
      case Err(e) => Raise(e)
      case Ok(offer) =>
        if offer.stock < quantity then Raise(InsufficientInventory)
        else if token.None? then
          Ask(Issue(env, who, AddAction, product, Some(quantity), Some(offer.price), variant))
        else
          match Verify(env, token.value, who, AddAction, product, Some(quantity), variant)
          case Err(e) => Raise(e)
          case Ok(claims) =>
            match PriceStands(claims, offer.price)
            case Err(e) => Raise(e)
            case Ok(_) =>
              match OpenCart(shop.carts, who, env.nextId)
              case Err(e) => Raise(e)
              case Ok((carts, c)) =>
                match MergeLine(carts[c].items, env.nextId + 1, product, variant, quantity, offer)
                case Err(e) => Raise(e)
                case Ok(items) => Done(WithItems(shop, carts, c, items))
  }

  function UpdateItem(shop: Shop, env: Env, who: Who, item: Id, quantity: int, token: Option<Token>): CartOutcome {
    if quantity <= 0 then Raise(BadQuantity)
    else
      match OpenCart(shop.carts, who, env.nextId)
      case Err(e) => Raise(e)
      case Ok((carts, c)) =>
        var items := carts[c].items;
        var i := LineOfId(items, item);
        if i == |items| then Raise(ItemNotFound)
        else
          match CurrentOffer(shop.catalog, who.tenant, items[i].product, items[i].variant)
          case Err(e) => Raise(e)
          case Ok(offer) =>
            if offer.stock < quantity then Raise(InsufficientInventory)
            else if token.None? then
              Ask(Issue(env, who, UpdateAction, item, Some(quantity), Some(offer.price), None))
            else
              match Verify(env, token.value, who, UpdateAction, item, Some(quantity), None)
              case Err(e) => Raise(e)
              case Ok(claims) =>
                match PriceStands(claims, offer.price)
                case Err(e) => Raise(e)
                case Ok(_) =>
                  Done(WithItems(shop, carts, c, items[i := items[i].(quantity := quantity, price := offer.price)]))
  }

  function RemoveItem(shop: Shop, env: Env, who: Who, item: Id, token: Option<Token>): CartOutcome {
    match OpenCart(shop.carts, who, env.nextId)
    case Err(e) => Raise(e)
    case Ok((carts, c)) =>
      var items := carts[c].items;
      var i := LineOfId(items, item);
      if i == |items| then Raise(ItemNotFound)
      else if token.None? then Ask(Issue(env, who, RemoveAction, item, None, None, None))
      else
        match Verify(env, token.value, who, RemoveAction, item, None, None)
        case Err(e) => Raise(e)
        case Ok(_) => Done(WithItems(shop, carts, c, items[..i] + items[i + 1..]))
  }

  function ClearCart(shop: Shop, env: Env, who: Who, token: Option<Token>): CartOutcome {
    match OpenCart(shop.carts, who, env.nextId)
    case Err(e) => Raise(e)
    case Ok((carts, c)) =>
      if token.None? then Ask(Issue(env, who, ClearAction, carts[c].id, None, None, None))
      else
        match Verify(env, token.value, who, ClearAction, carts[c].id, None, None)
        case Err(e) => Raise(e)
        case Ok(_) => Done(WithItems(shop, carts, c, []))
  }

  function Mutate(shop: Shop, env: Env, who: Who, op: CartOp, token: Option<Token>): CartOutcome {
    match op
    case Add(product, variant, quantity) => AddItem(shop, env, who, product, variant, quantity, token)
    case Update(item, quantity) => UpdateItem(shop, env, who, item, quantity, token)
    case Remove(item) => RemoveItem(shop, env, who, item, token)
    case Clear => ClearCart(shop, env, who, token)
  }

  // ----- validation -----

  datatype Finding =
    | PriceMoved(product: Id, variant: Option<Id>, before: nat, current: nat)
    | StockShort(product: Id, variant: Option<Id>, stock: nat)
    | Unavailable(product: Id, variant: Option<Id>, error: Error)

  function LineFindings(catalog: Catalog, tenant: Id, l: Line): seq<Finding> {
    match CurrentOffer(catalog, tenant, l.product, l.variant)
    case Err(e) => [Unavailable(l.product, l.variant, e)]
    case Ok(offer) =>
      (if offer.price != l.price then [PriceMoved(l.product, l.variant, l.price, offer.price)] else [])
      + (if offer.stock < l.quantity then [StockShort(l.product, l.variant, offer.stock)] else [])
  }

  function Findings(catalog: Catalog, tenant: Id, items: seq<Line>): seq<Finding> {
    if items == [] then []
    else
      Findings(catalog, tenant, items[..|items| - 1]) + LineFindings(catalog, tenant, items[|items| - 1])
  }

  function LineTotal(l: Line): int {
    l.price * l.quantity
  }

  /** What the cart page shows as the cart's total, in paise. */
  function CartTotal(items: seq<Line>): int {
    Total(items, LineTotal)
  }
}
