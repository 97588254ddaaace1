/** What every cart operation keeps, and what each does to the cart's contents. */
module CartInvariant {
  import opened Prelude
  import opened Tables
  import opened Carts
  import opened Shelf

  predicate SameKey(a: Line, b: Line) {
    a.product == b.product && a.variant == b.variant
  }

  /** Lines of one cart: one line per product and variant, each of at least one piece. */
  ghost predicate LinesOk(items: seq<Line>, bound: Id) {
    && (forall i | 0 <= i < |items| :: items[i].quantity >= 1 && items[i].id < bound)
    && (forall i, j | 0 <= i < j < |items| :: !SameKey(items[i], items[j]) && items[i].id != items[j].id)
  }

  predicate SameOwner(a: Cart, b: Cart) {
    a.tenant == b.tenant && a.user == b.user
  }

  /** At most one active cart per owner. `bound` is above every identifier drawn so far. */
  ghost predicate CartsOk(carts: seq<Cart>, bound: Id) {
    && (forall c | 0 <= c < |carts| :: carts[c].id < bound && carts[c].currency == INR && LinesOk(carts[c].items, bound))
    && (forall c, d | 0 <= c < d < |carts| :: carts[c].id != carts[d].id)
    && (forall c, d | 0 <= c < d < |carts| ::
          carts[c].status == CartActive && carts[d].status == CartActive ==> !SameOwner(carts[c], carts[d]))
  }

  // ----- opening a cart -----

  predicate IsActiveCartOf(c: Cart, who: Who) {
    c.tenant == who.tenant && c.user == who.user && c.status == CartActive
  }

  /** With the invariant the lookup never finds two carts; it yields the owner's own
      active cart, and a new cart is added only when there was none. */
  lemma OpenCartFindsTheOne(carts: seq<Cart>, who: Who, nextId: Id)
    requires CartsOk(carts, nextId)
    ensures OpenCart(carts, who, nextId).Ok?
    ensures var (after, c) := OpenCart(carts, who, nextId).value;
            && CartsOk(after, nextId + 1)
            && carts <= after
            && (forall d | 0 <= d < |after| && IsActiveCartOf(after[d], who) :: d == c)
            && (if exists d :: 0 <= d < |carts| && IsActiveCartOf(carts[d], who)
                then after == carts
                else after == carts + [Cart(nextId, who.tenant, who.user, CartActive, "INR", [])] && c == |carts|)
  {
    var found := ActiveCarts(carts, who);
    ActiveCartIsUnique(carts, who, nextId);
    hide ActiveCarts;
    if found == [] {
      NewCartKeepsCartsOk(carts, who, nextId);
    } else {
      CartsOkGrows(carts, nextId, nextId + 1);
      assert found[0] in found;
    }
  }

  lemma ActiveCartIsUnique(carts: seq<Cart>, who: Who, nextId: Id)
    requires CartsOk(carts, nextId)
    ensures |ActiveCarts(carts, who)| <= 1
    ensures forall d :: d in ActiveCarts(carts, who) <==> 0 <= d < |carts| && IsActiveCartOf(carts[d], who)
  {
    hide LinesOk;
    SelectAtMostOne(carts, ActiveFor(who));
  }

  lemma NewCartKeepsCartsOk(carts: seq<Cart>, who: Who, nextId: Id)
    requires CartsOk(carts, nextId) && forall d | 0 <= d < |carts| :: !IsActiveCartOf(carts[d], who)
    ensures CartsOk(carts + [NewCart(nextId, who)], nextId + 1)
  {
    CartsOkGrows(carts, nextId, nextId + 1);
    assert LinesOk(NewCart(nextId, who).items, nextId + 1);
    hide LinesOk;
  }

  // ----- what happens to the lines -----

  lemma MergeKeepsLinesOk(items: seq<Line>, id: Id, product: Id, variant: Option<Id>, quantity: int, offer: Offer)
    requires LinesOk(items, id) && quantity >= 1
    ensures var r := MergeLine(items, id, product, variant, quantity, offer);
            r.Ok? ==> LinesOk(r.value, id + 1)
  {
    var i := LineOfKey(items, product, variant);
  }

  lemma SetKeepsLinesOk(items: seq<Line>, bound: Id, i: nat, quantity: int, price: nat)
    requires LinesOk(items, bound) && i < |items| && quantity >= 1
    ensures LinesOk(items[i := items[i].(quantity := quantity, price := price)], bound)
  {
  }

  lemma CutKeepsLinesOk(items: seq<Line>, bound: Id, i: nat)
    requires LinesOk(items, bound) && i < |items|
    ensures LinesOk(items[..i] + items[i + 1..], bound)
  {
  }

  lemma WithItemsKeepsCartsOk(shop: Shop, carts: seq<Cart>, c: nat, items: seq<Line>, bound: Id)
    requires CartsOk(carts, bound) && c < |carts| && LinesOk(items, bound)
    ensures CartsOk(WithItems(shop, carts, c, items).carts, bound)
  {
    var after := WithItems(shop, carts, c, items).carts;
    forall d, e | 0 <= d < e < |after|
      ensures after[d].id != after[e].id
      ensures after[d].status == CartActive && after[e].status == CartActive ==> !SameOwner(after[d], after[e])
    {
      assert SameOwner(after[d], after[e]) <==> SameOwner(carts[d], carts[e]);
    }
  }

  lemma CartsOkGrows(carts: seq<Cart>, bound: Id, more: Id)
    requires CartsOk(carts, bound) && bound <= more
    ensures CartsOk(carts, more)
  {
    forall c | 0 <= c < |carts| ensures LinesOk(carts[c].items, more) {
    }
  }

  // ----- what a committed operation did -----

  /** The lines before and after a committed operation, in the one cart it worked on. */
  ghost predicate Worked(shop: Shop, after: Shop, who: Who, nextId: Id, was: seq<Line>, items: seq<Line>) {
    var r := OpenCart(shop.carts, who, nextId);
    r.Ok? && var (carts, c) := r.value; was == carts[c].items && after == WithItems(shop, carts, c, items)
  }

  lemma WorkedDetermines(shop: Shop, after: Shop, who: Who, nextId: Id,
                         was: seq<Line>, items: seq<Line>, was': seq<Line>, items': seq<Line>)
    requires Worked(shop, after, who, nextId, was, items) && Worked(shop, after, who, nextId, was', items')
    ensures was == was' && items == items'
  {
    var (carts, c) := OpenCart(shop.carts, who, nextId).value;
    assert after.carts[c].items == items;
    assert after.carts[c].items == items';
  }

  /** The lines that a committed operation leaves in the cart whose lines were `was`. */
  function LinesAfter(shop: Shop, who: Who, nextId: Id, op: CartOp, was: seq<Line>): Result<seq<Line>, Error> {
    match op
    case Add(product, variant, quantity) =>
      var offer :- CurrentOffer(shop.catalog, who.tenant, product, variant);
      MergeLine(was, nextId + 1, product, variant, quantity, offer)
    case Update(item, quantity) =>
      var i := LineOfId(was, item);
      if i == |was| then Err(ItemNotFound)
      else
        var offer :- CurrentOffer(shop.catalog, who.tenant, was[i].product, was[i].variant);
        Ok(was[i := was[i].(quantity := quantity, price := offer.price)])
    case Remove(item) =>
      var i := LineOfId(was, item);
      if i == |was| then Err(ItemNotFound) else Ok(was[..i] + was[i + 1..])
    case Clear => Ok([])
  }

  ghost predicate QuantityOk(op: CartOp) {
    (op.Add? ==> op.quantity >= 1) && (op.Update? ==> op.quantity >= 1)
  }

  lemma MutateShape(shop: Shop, env: Env, who: Who, op: CartOp, token: Option<Token>)
    requires Mutate(shop, env, who, op, token).Done?
    ensures QuantityOk(op) && OpenCart(shop.carts, who, env.nextId).Ok?
    ensures var (carts, c) := OpenCart(shop.carts, who, env.nextId).value;
            var lines := LinesAfter(shop, who, env.nextId, op, carts[c].items);
            lines.Ok? && Worked(shop, Mutate(shop, env, who, op, token).shop, who, env.nextId, carts[c].items, lines.value)
  {
  }

  lemma LinesAfterOk(shop: Shop, who: Who, nextId: Id, op: CartOp, was: seq<Line>)
    requires LinesOk(was, nextId + 1) && QuantityOk(op) && LinesAfter(shop, who, nextId, op, was).Ok?
    ensures LinesOk(LinesAfter(shop, who, nextId, op, was).value, nextId + 2)
  {
    match op {
      case Add(product, variant, quantity) =>
        MergeKeepsLinesOk(was, nextId + 1, product, variant, quantity, CurrentOffer(shop.catalog, who.tenant, product, variant).value);
      case Update(item, quantity) =>
        var i := LineOfId(was, item);
        SetKeepsLinesOk(was, nextId + 2, i, quantity, LinesAfter(shop, who, nextId, op, was).value[i].price);
      case Remove(item) =>
        CutKeepsLinesOk(was, nextId + 2, LineOfId(was, item));
      case Clear =>
    }
  }

  /** Active carts of other owners, and converted carts, are as they were. */
  ghost predicate OnlyOwnCart(before: seq<Cart>, after: seq<Cart>, who: Who) {
    && |before| <= |after|
    && (forall c | 0 <= c < |before| ::
          after[c] == before[c]
          || (IsActiveCartOf(before[c], who) && after[c] == before[c].(items := after[c].items)))
    && (forall c | |before| <= c < |after| :: IsActiveCartOf(after[c], who))
  }

  lemma WorkedKeepsCartsOk(shop: Shop, after: Shop, who: Who, nextId: Id, was: seq<Line>, items: seq<Line>)
    requires CartsOk(shop.carts, nextId)
    requires Worked(shop, after, who, nextId, was, items) && LinesOk(items, nextId + 2)
    ensures after.catalog == shop.catalog && CartsOk(after.carts, nextId + 2) && OnlyOwnCart(shop.carts, after.carts, who)
  {
    hide LinesOk, OpenCart;
    OpenCartFindsTheOne(shop.carts, who, nextId);
    var (carts, c) := OpenCart(shop.carts, who, nextId).value;
    CartsOkGrows(carts, nextId + 1, nextId + 2);
    WithItemsKeepsCartsOk(shop, carts, c, items, nextId + 2);
  }

  /** Every committed operation keeps the cart invariant and rewrites the lines of the
      caller's own active cart only. */
  lemma MutateKeepsCartsOk(shop: Shop, env: Env, who: Who, op: CartOp, token: Option<Token>, after: Shop)
    requires CartsOk(shop.carts, env.nextId)
    requires Mutate(shop, env, who, op, token) == Done(after)
    ensures after.catalog == shop.catalog
    ensures CartsOk(after.carts, env.nextId + 2)
    ensures OnlyOwnCart(shop.carts, after.carts, who)
  {
    hide CartsOk, LinesOk, OpenCart, Mutate, LinesAfter, Worked, OnlyOwnCart;
    MutateShape(shop, env, who, op, token);
    OpenedLinesOk(shop.carts, who, env.nextId);
    var (carts, c) := OpenCart(shop.carts, who, env.nextId).value;
    LinesAfterOk(shop, who, env.nextId, op, carts[c].items);
    WorkedKeepsCartsOk(shop, after, who, env.nextId, carts[c].items,
                       LinesAfter(shop, who, env.nextId, op, carts[c].items).value);
  }

  lemma OpenedLinesOk(carts: seq<Cart>, who: Who, nextId: Id)
    requires CartsOk(carts, nextId)
    ensures var r := OpenCart(carts, who, nextId);
            r.Ok? && LinesOk(r.value.0[r.value.1].items, nextId + 1)
  {
    OpenCartFindsTheOne(carts, who, nextId);
  }

  // ----- what each operation means for the contents -----

  function PiecesOf(product: Id, variant: Option<Id>): Line -> int {
    (l: Line) => if l.product == product && l.variant == variant then l.quantity else 0
  }

  /** How many pieces of a product and variant a cart asks for. */
  function Demand(items: seq<Line>, product: Id, variant: Option<Id>): int {
    Total(items, PiecesOf(product, variant))
  }

  /** With one line per key, the demand for a key is that line's quantity. */
  lemma DemandIsTheLine(items: seq<Line>, bound: Id, i: nat)
    requires LinesOk(items, bound) && i < |items|
    ensures Demand(items, items[i].product, items[i].variant) == items[i].quantity
  {
    var f := PiecesOf(items[i].product, items[i].variant);
    forall j | 0 <= j < |items| && j != i
      ensures f(items[j]) == 0
    {
      if j < i { assert !SameKey(items[j], items[i]); } else { assert !SameKey(items[i], items[j]); }
    }
    TotalOfOne(items, f, i);
  }

  /** Adding raises the demand for the one key by the quantity and for no other key, and
      leaves that key's line at the current price and within the stock. */
  lemma AddMeans(shop: Shop, env: Env, who: Who, product: Id, variant: Option<Id>, quantity: int, token: Option<Token>,
                 was: seq<Line>, items: seq<Line>)
    requires AddItem(shop, env, who, product, variant, quantity, token).Done?
    requires Worked(shop, AddItem(shop, env, who, product, variant, quantity, token).shop, who, env.nextId, was, items)
    ensures forall p, v :: Demand(items, p, v) == Demand(was, p, v) + if p == product && v == variant then quantity else 0
    ensures exists i :: 0 <= i < |items| && items[i].product == product && items[i].variant == variant
                        && AtOffer(shop.catalog, who.tenant, items[i])
    ensures forall l | l in was && !(l.product == product && l.variant == variant) :: l in items
  {
    var op := Add(product, variant, quantity);
    MutateShape(shop, env, who, op, token);
    var lines := LinesAfter(shop, who, env.nextId, op, was).value;
    WorkedDetermines(shop, AddItem(shop, env, who, product, variant, quantity, token).shop, who, env.nextId, was, items, was, lines);
    var offer := CurrentOffer(shop.catalog, who.tenant, product, variant).value;
    assert quantity <= offer.stock;
    MergeMeans(was, env.nextId + 1, product, variant, quantity, offer);
    var i := LineOfKey(was, product, variant);
    AtOfferIff(shop.catalog, who.tenant, items[i]);
    assert AtOffer(shop.catalog, who.tenant, items[i]);
  }

  lemma MergeMeans(was: seq<Line>, id: Id, product: Id, variant: Option<Id>, quantity: int, offer: Offer)
    requires MergeLine(was, id, product, variant, quantity, offer).Ok? && quantity <= offer.stock
    ensures var items := MergeLine(was, id, product, variant, quantity, offer).value;
            var i := LineOfKey(was, product, variant);
            && (forall p, v :: Demand(items, p, v) == Demand(was, p, v) + if p == product && v == variant then quantity else 0)
            && i < |items| && items[i].product == product && items[i].variant == variant
            && items[i].price == offer.price && items[i].quantity <= offer.stock
            && (forall l | l in was && !(l.product == product && l.variant == variant) :: l in items)
  {
    var items := MergeLine(was, id, product, variant, quantity, offer).value;
    var i := LineOfKey(was, product, variant);
    forall p, v
      ensures Demand(items, p, v) == Demand(was, p, v) + if p == product && v == variant then quantity else 0
    {
      if i == |was| {
        TotalAppend(was, PiecesOf(p, v), items[i]);
      } else {
        TotalUpdate(was, PiecesOf(p, v), i, items[i]);
      }
    }
    forall l | l in was && !(l.product == product && l.variant == variant)
      ensures l in items
    {
      var j :| 0 <= j < |was| && was[j] == l;
      assert items[j] == l;
    }
  }

  /** Updating sets the quantity of the one line with that identifier, brings it to the
      current price within the stock, and leaves every other line as it was. */
  lemma UpdateMeans(shop: Shop, env: Env, who: Who, item: Id, quantity: int, token: Option<Token>,
                    was: seq<Line>, items: seq<Line>)
    requires CartsOk(shop.carts, env.nextId)
    requires UpdateItem(shop, env, who, item, quantity, token).Done?
    requires Worked(shop, UpdateItem(shop, env, who, item, quantity, token).shop, who, env.nextId, was, items)
    ensures |items| == |was|
    ensures forall i | 0 <= i < |was| && was[i].id != item :: items[i] == was[i]
    ensures exists i :: 0 <= i < |was| && was[i].id == item
                        && items[i] == was[i].(quantity := quantity, price := items[i].price)
                        && AtOffer(shop.catalog, who.tenant, items[i])
                        && Demand(items, was[i].product, was[i].variant) == quantity
  {
    hide CartsOk, OpenCart;
    OpenedLinesOk(shop.carts, who, env.nextId);
    var op := Update(item, quantity);
    MutateShape(shop, env, who, op, token);
    var lines := LinesAfter(shop, who, env.nextId, op, was).value;
    WorkedDetermines(shop, UpdateItem(shop, env, who, item, quantity, token).shop, who, env.nextId, was, items, was, lines);
    var i := LineOfId(was, item);
    LinesAfterOk(shop, who, env.nextId, op, was);
    DemandIsTheLine(items, env.nextId + 2, i);
    AtOfferIff(shop.catalog, who.tenant, items[i]);
    assert AtOffer(shop.catalog, who.tenant, items[i]);
  }

  /** Removing takes out the one line with that identifier and keeps the others in order. */
  lemma RemoveMeans(shop: Shop, env: Env, who: Who, item: Id, token: Option<Token>, was: seq<Line>, items: seq<Line>)
    requires CartsOk(shop.carts, env.nextId)
    requires RemoveItem(shop, env, who, item, token).Done?
    requires Worked(shop, RemoveItem(shop, env, who, item, token).shop, who, env.nextId, was, items)
    ensures forall l | l in items :: l.id != item
    ensures exists i :: 0 <= i < |was| && i <= |items| && was[i].id == item && was == items[..i] + [was[i]] + items[i..]
  {
    hide CartsOk, OpenCart;
    OpenedLinesOk(shop.carts, who, env.nextId);
    MutateShape(shop, env, who, Remove(item), token);
    var i := LineOfId(was, item);
    var lines := LinesAfter(shop, who, env.nextId, Remove(item), was).value;
    assert i < |was| && lines == was[..i] + was[i + 1..];
    WorkedDetermines(shop, RemoveItem(shop, env, who, item, token).shop, who, env.nextId, was, items, was, lines);
    hide LinesAfter, Worked, RemoveItem, LinesOk;
    CutMeans(was, env.nextId + 1, item);
  }

  /** Clearing leaves the caller's cart without lines, so nothing is wanted any more. */
  lemma ClearMeans(shop: Shop, env: Env, who: Who, token: Option<Token>, was: seq<Line>, items: seq<Line>)
    requires ClearCart(shop, env, who, token).Done?
    requires Worked(shop, ClearCart(shop, env, who, token).shop, who, env.nextId, was, items)
    ensures items == [] && forall p, v :: Demand(items, p, v) == 0
  {
    MutateShape(shop, env, who, Clear, token);
    WorkedDetermines(shop, ClearCart(shop, env, who, token).shop, who, env.nextId, was, items, was, []);
  }

  lemma CutMeans(was: seq<Line>, bound: Id, item: Id)
    requires LinesOk(was, bound) && LineOfId(was, item) < |was|
    ensures var i := LineOfId(was, item);
            var items := was[..i] + was[i + 1..];
            && (forall l | l in items :: l.id != item)
            && i <= |items| && was[i].id == item && was == items[..i] + [was[i]] + items[i..]
  {
    var i := LineOfId(was, item);
    forall j | 0 <= j < |was| && j != i ensures was[j].id != was[i].id {
      assert if j < i then was[j].id != was[i].id else was[i].id != was[j].id;
    }
    hide LinesOk, LineOfId;
    var items := was[..i] + was[i + 1..];
    forall l | l in items ensures l.id != item {
      var k :| 0 <= k < |items| && items[k] == l;
      assert l == was[if k < i then k else k + 1];
    }
  }
}
