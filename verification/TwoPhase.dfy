/** Every committed cart operation was asked for first: the two phases over whole runs. */
module TwoPhase {
  import opened Prelude
  import opened Tables
  import opened Carts
  import opened Shelf
  import opened Checkout
  import opened Machine
  import opened CartInvariant
  import opened DeskInvariant
  import opened LedgerInvariant
  import opened Safety

  function ActionOf(op: CartOp): Action {
    match op
    case Add(_, _, _) => AddAction
    case Update(_, _) => UpdateAction
    case Remove(_) => RemoveAction
    case Clear => ClearAction
  }

  /** What the operation is aimed at; for a clear, the caller's active cart. */
  function TargetOf(carts: seq<Cart>, nextId: Id, who: Who, op: CartOp): Option<Id> {
    match op
    case Add(product, _, _) => Some(product)
    case Update(item, _) => Some(item)
    case Remove(item) => Some(item)
    case Clear =>
      var r := OpenCart(carts, who, nextId);
      if r.Ok? then Some(r.value.0[r.value.1].id) else None
  }

  /** The catalogue price of what an add or update concerns. */
  function PriceOf(shop: Shop, nextId: Id, who: Who, op: CartOp): Option<nat> {
    match op
    case Add(product, variant, _) =>
      var offer := CurrentOffer(shop.catalog, who.tenant, product, variant);
      if offer.Ok? then Some(offer.value.price) else None
    case Update(item, _) =>
      var r := OpenCart(shop.carts, who, nextId);
      if r.Err? then None
      else
        var items := r.value.0[r.value.1].items;
        var i := LineOfId(items, item);
        if i == |items| then None
        else
          var offer := CurrentOffer(shop.catalog, who.tenant, items[i].product, items[i].variant);
          if offer.Ok? then Some(offer.value.price) else None
    case _ => None
  }

  /** The price of an add is in the variant's row or else the product's; that of an update in
      the rows of what its line holds. */
  lemma PriceOfIsTheRows(shop: Shop, nextId: Id, who: Who, op: CartOp, price: nat)
    requires PriceOf(shop, nextId, who, op) == Some(price)
    ensures op.Add? || op.Update?
    ensures op.Add? ==> Costs(shop.catalog, op.product, op.variant, price)
    ensures op.Update? ==>
              OpenCart(shop.carts, who, nextId).Ok?
              && var (after, c) := OpenCart(shop.carts, who, nextId).value;
                 exists i :: 0 <= i < |after[c].items| && after[c].items[i].id == op.item
                             && Costs(shop.catalog, after[c].items[i].product, after[c].items[i].variant, price)
  {
    match op {
      case Add(product, variant, _) => OfferIff(shop.catalog, who.tenant, product, variant);
      case Update(item, _) =>
        var (after, c) := OpenCart(shop.carts, who, nextId).value;
        var i := LineOfId(after[c].items, item);
        OfferIff(shop.catalog, who.tenant, after[c].items[i].product, after[c].items[i].variant);
        hide CurrentOffer, OpenCart, Costs, Holds, Sellable;
        assert Costs(shop.catalog, after[c].items[i].product, after[c].items[i].variant, price);
      case _ =>
    }
  }

  function QuantityOf(op: CartOp): Option<int> {
    match op
    case Add(_, _, quantity) => Some(quantity)
    case Update(_, quantity) => Some(quantity)
    case _ => None
  }

  function VariantOf(op: CartOp): Option<Id> {
    if op.Add? then op.variant else None
  }

  // ----- what an answer says about its token -----

  lemma AskMeans(shop: Shop, env: Env, who: Who, op: CartOp, token: Option<Token>, claims: Claims)
    requires Mutate(shop, env, who, op, token) == Ask(claims)
    ensures token.None?
    ensures claims.who == who && claims.action == ActionOf(op) && claims.exp == env.now + 900
    ensures TargetOf(shop.carts, env.nextId, who, op) == Some(claims.target)
    ensures claims.quantity == QuantityOf(op) && claims.variant == VariantOf(op)
    ensures claims.price == PriceOf(shop, env.nextId, who, op)
  {
  }

  lemma DoneMeans(shop: Shop, env: Env, who: Who, op: CartOp, token: Option<Token>)
    requires Mutate(shop, env, who, op, token).Done?
    ensures token.Some? && token.value.Signed?
    ensures var claims := token.value.claims;
            && claims in env.issued && !Expired(env, claims.exp)
            && claims.who == who && claims.action == ActionOf(op)
            && TargetOf(shop.carts, env.nextId, who, op) == Some(claims.target)
            && (op.Add? || op.Update? ==>
                  claims.quantity == QuantityOf(op) && claims.price.Some? && claims.price == PriceOf(shop, env.nextId, who, op))
            && (VariantOf(op).Some? ==> claims.variant == VariantOf(op))
  {
    hide CurrentOffer, ActiveCarts, Expired, LineOfKey, LineOfId;
  }

  // ----- every token has its moment of issue -----

  ghost predicate IssuedAt(start: Sys, steps: seq<Step>, j: nat, claims: Claims) {
    && j < |steps| && steps[j].CartCall?
    && CartAnswer(Before(start, steps, j), steps[j]) == Ask(claims)
  }

  lemma IssuesOnlyWhatIsAsked(s: Sys, step: Step, claims: Claims)
    requires claims in Next(s, step).issued && claims !in s.issued
    ensures step.CartCall? && CartAnswer(s, step) == Ask(claims)
  {
    hide Mutate, OpenCart, CreateQuote, ConfirmQuote;
  }

  lemma {:induction false} TokensWereIssued(start: Sys, steps: seq<Step>, claims: Claims)
    requires start.issued == [] && claims in Run(start, steps).issued
    ensures exists j: nat :: IssuedAt(start, steps, j, claims)
  {
    hide Next;
    if steps == [] {
      assert false;
    } else {
      var n := |steps| - 1;
      var front := steps[..n];
      if claims in Run(start, front).issued {
        TokensWereIssued(start, front, claims);
        var j: nat :| IssuedAt(start, front, j, claims);
        assert steps[..j] == front[..j];
        assert IssuedAt(start, steps, j, claims);
      } else {
        IssuesOnlyWhatIsAsked(Run(start, front), steps[n], claims);
        assert IssuedAt(start, steps, n, claims);
      }
    }
  }

  // ----- the protocol -----

  /** The two calls ask for the same thing. An add that names no variant may answer a
      question about one. */
  predicate SameRequest(asked: CartOp, done: CartOp) {
    match done
    case Add(product, variant, quantity) =>
      asked.Add? && asked.product == product && asked.quantity == quantity
      && (variant.Some? ==> asked.variant == variant)
    case Update(item, quantity) => asked == done
    case Remove(item) => asked == done
    case Clear => asked == done
  }

  /** Call `j` was answered with the token that call `k` presents, its fifteen minutes not
      yet over, for the same caller and request; and the price shown then is the
      catalogue's at `k`. */
  ghost predicate Backs(start: Sys, steps: seq<Step>, j: nat, k: nat) {
    && j < k < |steps| && steps[j].CartCall? && steps[k].CartCall?
    && var s, t := Before(start, steps, j), Before(start, steps, k);
       && CartAnswer(s, steps[j]).Ask?
       && var claims := CartAnswer(s, steps[j]).claims;
          && steps[j].token.None? && steps[k].token == Some(Signed(claims))
          && steps[j].who == steps[k].who && SameRequest(steps[j].op, steps[k].op)
          && !Expired(EnvOf(t), s.now + 900)
          && TargetOf(t.store.shop.carts, t.nextId, steps[k].who, steps[k].op)
             == TargetOf(s.store.shop.carts, s.nextId, steps[j].who, steps[j].op) == Some(claims.target)
          && (steps[k].op.Add? || steps[k].op.Update? ==>
                PriceOf(t.store.shop, t.nextId, steps[k].who, steps[k].op)
                == PriceOf(s.store.shop, s.nextId, steps[j].who, steps[j].op) == claims.price && claims.price.Some?)
  }

  /** Step `k` is a cart operation that commits. */
  ghost predicate Commits(start: Sys, steps: seq<Step>, k: nat) {
    k < |steps| && steps[k].CartCall? && CartAnswer(Before(start, steps, k), steps[k]).Done?
  }

  /** Every committed operation of a run is backed by an earlier call of the run. */
  lemma CommitsWereAskedFor(start: Sys, steps: seq<Step>)
    requires start.issued == []
    ensures forall k: nat | Commits(start, steps, k) :: exists j: nat :: Backs(start, steps, j, k)
  {
    forall k: nat | Commits(start, steps, k)
      ensures exists j: nat :: Backs(start, steps, j, k)
    {
      CommitWasAskedFor(start, steps, k);
    }
  }

  lemma CommitWasAskedFor(start: Sys, steps: seq<Step>, k: nat)
    requires start.issued == [] && Commits(start, steps, k)
    ensures exists j: nat :: Backs(start, steps, j, k)
  {
    var t := Before(start, steps, k);
    DoneMeans(t.store.shop, EnvOf(t), steps[k].who, steps[k].op, steps[k].token);
    var claims := steps[k].token.value.claims;
    TokensWereIssued(start, steps[..k], claims);
    var j: nat :| IssuedAt(start, steps[..k], j, claims);
    hide Mutate, OpenCart, Run, TargetOf, PriceOf, IssuedAt;
    AskedEarlier(start, steps, j, k, claims);
    var s := Before(start, steps, j);
    AskMeans(s.store.shop, EnvOf(s), steps[j].who, steps[j].op, steps[j].token, claims);
    assert Backs(start, steps, j, k);
  }

  lemma AskedEarlier(start: Sys, steps: seq<Step>, j: nat, k: nat, claims: Claims)
    requires k <= |steps| && IssuedAt(start, steps[..k], j, claims)
    ensures j < k && steps[j].CartCall? && CartAnswer(Before(start, steps, j), steps[j]) == Ask(claims)
  {
    assert steps[..k][..j] == steps[..j];
  }

  /** What a committed add or update stores is the price that was shown. */
  lemma StoredPriceWasShown(start: Sys, steps: seq<Step>, k: nat, was: seq<Line>, items: seq<Line>)
    requires Reachable(start) && start.issued == []
    requires Commits(start, steps, k) && (steps[k].op.Add? || steps[k].op.Update?)
    requires var t := Before(start, steps, k);
             Worked(t.store.shop, CartAnswer(t, steps[k]).shop, steps[k].who, t.nextId, was, items)
    ensures exists j: nat, i :: Backs(start, steps, j, k) && 0 <= i < |items|
                           && (if steps[k].op.Add? then items[i].product == steps[k].op.product && items[i].variant == steps[k].op.variant
                               else items[i].id == steps[k].op.item)
                           && CartAnswer(Before(start, steps, j), steps[j]).claims.price == Some(items[i].price)
  {
    CommitWasAskedFor(start, steps, k);
    var j: nat :| Backs(start, steps, j, k);
    var t := Before(start, steps, k);
    ReachableInv(start);
    RunInv(start, steps[..k]);
    var i := StoredLine(t.store.shop, EnvOf(t), steps[k].who, steps[k].op, steps[k].token, was, items);
    assert Backs(start, steps, j, k) && 0 <= i < |items|;
  }

  lemma StoredLine(shop: Shop, env: Env, who: Who, op: CartOp, token: Option<Token>, was: seq<Line>, items: seq<Line>)
    returns (i: nat)
    requires CartsOk(shop.carts, env.nextId) && (op.Add? || op.Update?)
    requires Mutate(shop, env, who, op, token).Done?
    requires Worked(shop, Mutate(shop, env, who, op, token).shop, who, env.nextId, was, items)
    ensures i < |items| && PriceOf(shop, env.nextId, who, op) == Some(items[i].price)
    ensures if op.Add? then items[i].product == op.product && items[i].variant == op.variant else items[i].id == op.item
  {
    MutateShape(shop, env, who, op, token);
    var lines := LinesAfter(shop, who, env.nextId, op, was).value;
    WorkedDetermines(shop, Mutate(shop, env, who, op, token).shop, who, env.nextId, was, items, was, lines);
    hide CartsOk, Mutate;
    i := if op.Add? then LineOfKey(was, op.product, op.variant) else LineOfId(was, op.item);
  }

  // ----- clearing -----

  ghost predicate NewFrom(before: seq<Cart>, after: seq<Cart>, nextId: Id) {
    |before| <= |after| && forall c | |before| <= c < |after| :: after[c].id >= nextId
  }

  lemma OpenedIsNew(carts: seq<Cart>, who: Who, nextId: Id)
    requires CartsOk(carts, nextId)
    ensures OpenCart(carts, who, nextId).Ok? && NewFrom(carts, OpenCart(carts, who, nextId).value.0, nextId)
  {
    OpenCartFindsTheOne(carts, who, nextId);
  }

  lemma DoneIsNew(shop: Shop, env: Env, who: Who, op: CartOp, token: Option<Token>)
    requires CartsOk(shop.carts, env.nextId) && Mutate(shop, env, who, op, token).Done?
    ensures NewFrom(shop.carts, Mutate(shop, env, who, op, token).shop.carts, env.nextId)
  {
    MutateShape(shop, env, who, op, token);
    hide Mutate;
    OpenedIsNew(shop.carts, who, env.nextId);
    hide CartsOk, OpenCart, LinesAfter;
  }

  lemma QuotedIsNew(store: Store, env: Env, who: Who, cartId: Id, allowed: bool)
    requires CartsOk(store.shop.carts, env.nextId) && CreateQuote(store, env, who, cartId, allowed).Ok?
    ensures NewFrom(store.shop.carts, CreateQuote(store, env, who, cartId, allowed).value.shop.carts, env.nextId)
  {
    OpenedIsNew(store.shop.carts, who, env.nextId);
    CreateQuoteShape(store, env, who, cartId, allowed, CreateQuote(store, env, who, cartId, allowed).value);
    hide CartsOk, OpenCart, CreateQuote;
  }

  lemma ConfirmedIsNew(store: Store, env: Env, who: Who, q: nat, allowed: bool)
    requires CartsOk(store.shop.carts, env.nextId) && ConfirmQuote(store, env, who, q, allowed).Ok?
    ensures NewFrom(store.shop.carts, ConfirmQuote(store, env, who, q, allowed).value.shop.carts, env.nextId)
  {
    OpenedIsNew(store.shop.carts, who, env.nextId);
    ConfirmQuoteShape(store, env, who, q, allowed, ConfirmQuote(store, env, who, q, allowed).value);
    hide CartsOk, OpenCart, ConfirmQuote;
  }

  /** A cart opened by a step carries an identifier drawn by that step. */
  lemma NewCartsAreNew(s: Sys, step: Step)
    requires Inv(s)
    ensures NewFrom(s.store.shop.carts, Next(s, step).store.shop.carts, s.nextId)
  {
    hide CartsOk, DeskOk, BankOk, OpenCart, Mutate, CreateQuote, ConfirmQuote;
    match step {
      case VisitCart(who) => OpenedIsNew(s.store.shop.carts, who, s.nextId);
      case CartCall(who, op, token) =>
        if CartAnswer(s, step).Done? {
          DoneIsNew(s.store.shop, EnvOf(s), who, op, token);
        }
      case QuoteCall(who, cartId, allowed) =>
        if CreateQuote(s.store, EnvOf(s), who, cartId, allowed).Ok? {
          QuotedIsNew(s.store, EnvOf(s), who, cartId, allowed);
        }
      case ConfirmCall(who, q, allowed) =>
        if ConfirmQuote(s.store, EnvOf(s), who, q, allowed).Ok? {
          ConfirmedIsNew(s.store, EnvOf(s), who, q, allowed);
        }
      case PayCall(_, _, _) =>
      case WebhookCall(_) =>
      case _ =>
    }
  }

  lemma {:induction false} LaterCartsAreNew(s: Sys, steps: seq<Step>)
    requires Inv(s)
    ensures s.nextId <= Run(s, steps).nextId
    ensures |s.store.shop.carts| <= |Run(s, steps).store.shop.carts|
    ensures forall c | |s.store.shop.carts| <= c < |Run(s, steps).store.shop.carts| ::
              Run(s, steps).store.shop.carts[c].id >= s.nextId
  {
    if steps != [] {
      var front := Run(s, steps[..|steps| - 1]);
      var step := steps[|steps| - 1];
      LaterCartsAreNew(s, steps[..|steps| - 1]);
      RunInv(s, steps[..|steps| - 1]);
      NewCartsAreNew(front, step);
      KeptCartIds(front, step);
      NextIdGrows(front, step);
      hide Inv, Next;
    }
  }

  lemma NextIdGrows(s: Sys, step: Step)
    ensures Next(s, step).nextId == s.nextId + 2
  {
    hide Mutate, CreateQuote, ConfirmQuote, OpenCart;
  }

  lemma KeptCartIds(s: Sys, step: Step)
    requires Inv(s)
    ensures |s.store.shop.carts| <= |Next(s, step).store.shop.carts|
    ensures forall c | 0 <= c < |s.store.shop.carts| :: Next(s, step).store.shop.carts[c].id == s.store.shop.carts[c].id
  {
    StepLater(s, step);
    hide Inv, Next;
    forall c | 0 <= c < |s.store.shop.carts|
      ensures Next(s, step).store.shop.carts[c].id == s.store.shop.carts[c].id
    {
      assert CartLater(s.store.shop.carts[c], Next(s, step).store.shop.carts[c]);
    }
  }

  lemma AskKeepsStore(s: Sys, step: Step)
    requires step.CartCall? && CartAnswer(s, step).Ask?
    ensures Next(s, step).store == s.store && Next(s, step).nextId == s.nextId + 2
  {
    hide Mutate;
  }

  /** The cart a token's identifier belongs to, if any later state has one, was already
      there when the token was signed: an identifier drawn for a cart that was rolled back
      is never seen again. */
  lemma TargetCartWasOpen(start: Sys, steps: seq<Step>, j: nat, k: nat)
    requires j < k < |steps| && Inv(Before(start, steps, j))
    requires steps[j].CartCall? && steps[j].op.Clear? && CartAnswer(Before(start, steps, j), steps[j]).Ask?
    ensures var s, t := Before(start, steps, j), Before(start, steps, k);
            var target := CartAnswer(s, steps[j]).claims.target;
            target < t.nextId
            && forall c: nat | c < |t.store.shop.carts| && t.store.shop.carts[c].id == target ::
              c < |s.store.shop.carts| && IsActiveCartOf(s.store.shop.carts[c], steps[j].who) && s.store.shop.carts[c].id == target
  {
    var s := Before(start, steps, j);
    var s1 := Next(s, steps[j]);
    var rest := steps[j + 1..k];
    BeforeFrom(start, steps, j, k);
    AskKeepsStore(s, steps[j]);
    StepInv(s, steps[j]);
    LaterCartsAreNew(s1, rest);
    KeptCartIdsOverRun(s1, rest);
    AskMeans(s.store.shop, EnvOf(s), steps[j].who, steps[j].op, steps[j].token, CartAnswer(s, steps[j]).claims);
    ClearTarget(s.store.shop.carts, steps[j].who, s.nextId);
  }

  lemma KeptCartIdsOverRun(s: Sys, steps: seq<Step>)
    requires Inv(s)
    ensures |s.store.shop.carts| <= |Run(s, steps).store.shop.carts|
    ensures forall c | 0 <= c < |s.store.shop.carts| :: Run(s, steps).store.shop.carts[c].id == s.store.shop.carts[c].id
  {
    RunLater(s, steps);
    hide Inv, Run;
    forall c | 0 <= c < |s.store.shop.carts|
      ensures Run(s, steps).store.shop.carts[c].id == s.store.shop.carts[c].id
    {
      assert CartLater(s.store.shop.carts[c], Run(s, steps).store.shop.carts[c]);
    }
  }

  lemma ClearTarget(carts: seq<Cart>, who: Who, nextId: Id)
    requires CartsOk(carts, nextId)
    ensures TargetOf(carts, nextId, who, Clear).Some?
    ensures forall c: nat | c < |carts| && TargetOf(carts, nextId, who, Clear) == Some(carts[c].id) :: IsActiveCartOf(carts[c], who)
    ensures TargetOf(carts, nextId, who, Clear).value <= nextId
  {
    OpenCartFindsTheOne(carts, who, nextId);
  }

  /** A committed clear empties the very cart that was active when it was asked for. */
  lemma ClearedCartWasAskedFor(start: Sys, steps: seq<Step>, k: nat)
    requires Reachable(start) && start.issued == []
    requires Commits(start, steps, k) && steps[k].op.Clear?
    ensures exists j: nat, c: nat ::
              Backs(start, steps, j, k)
              && c < |Before(start, steps, j).store.shop.carts|
              && IsActiveCartOf(Before(start, steps, j).store.shop.carts[c], steps[k].who)
              && OpenCart(Before(start, steps, k).store.shop.carts, steps[k].who, Before(start, steps, k).nextId)
                 == Ok((Before(start, steps, k).store.shop.carts, c))
  {
    CommitWasAskedFor(start, steps, k);
    var j: nat :| Backs(start, steps, j, k);
    ReachableInv(start);
    RunInv(start, steps[..j]);
    RunInv(start, steps[..k]);
    TargetCartWasOpen(start, steps, j, k);
    var t := Before(start, steps, k);
    hide Run, Mutate, OpenCart, TargetOf;
    var c := ClearedRow(t.store.shop.carts, steps[k].who, t.nextId, CartAnswer(Before(start, steps, j), steps[j]).claims.target);
  }

  lemma ClearedRow(carts: seq<Cart>, who: Who, nextId: Id, target: Id) returns (c: nat)
    requires CartsOk(carts, nextId) && target < nextId
    requires TargetOf(carts, nextId, who, Clear) == Some(target)
    ensures c < |carts| && carts[c].id == target && OpenCart(carts, who, nextId) == Ok((carts, c))
  {
    OpenCartFindsTheOne(carts, who, nextId);
    c := OpenCart(carts, who, nextId).value.1;
  }

  // ----- the variant of an add -----

  /** The variant added is the variant shown exactly when the add names one or the token
      names none. */
  lemma AddedVariantWasShownIff(shop: Shop, env: Env, who: Who, product: Id, variant: Option<Id>, quantity: int, token: Option<Token>)
    requires Mutate(shop, env, who, Add(product, variant, quantity), token).Done?
    ensures token.Some? && token.value.Signed?
    ensures token.value.claims.variant == variant <==> variant.Some? || token.value.claims.variant.None?
  {
    DoneMeans(shop, env, who, Add(product, variant, quantity), token);
  }
}
