/** Every request as one step of a state machine. A request that raises leaves the rows
    as they were, because its transaction is never committed. */
module Machine {
  import opened Prelude
  import opened Tables
  import opened Carts
  import opened Checkout
  import opened Payments
  import opened Webhooks

  /** The committed rows and what a rollback does not undo: the orders created at the
      provider, the tokens handed out, the clock and the identifiers drawn. */
  datatype Sys = Sys(
    store: Store, sent: seq<ProviderOrder>, issued: seq<Claims>, now: int, deadAtExp: bool, nextId: Id)

  datatype Step =
    | Tick(seconds: nat)
    | PutProduct(product: Id, productRow: Product)
    | PutVariant(variant: Id, variantRow: Variant)
    | PutStock(key: StockKey, stockRow: Stock)
    | VisitCart(who: Who)
    | CartCall(who: Who, op: CartOp, token: Option<Token>)
    | QuoteCall(who: Who, cartId: Id, allowed: bool)
    | ConfirmCall(who: Who, quote: nat, allowed: bool)
    | PayCall(tenant: Id, order: nat, provider: Provider)
    | WebhookCall(delivery: Delivery)

  const EMPTY_STORE := Store(Shop(Catalog(map[], map[], map[]), []), [], [], [], [], [], {}, 0)

  function Init(now: int, deadAtExp: bool): Sys {
    Sys(EMPTY_STORE, [], [], now, deadAtExp, 0)
  }

  function EnvOf(s: Sys): Env {
    Env(s.issued, s.now, s.deadAtExp, s.nextId)
  }

  function WithCatalog(s: Sys, catalog: Catalog): Sys {
    s.(store := s.store.(shop := s.store.shop.(catalog := catalog)))
  }

  function Commit(s: Sys, r: Result<Store, Error>): Sys {
    match r
    case Ok(store) => s.(store := store)
    case Err(_) => s
  }

  function CartAnswer(s: Sys, step: Step): CartOutcome
    requires step.CartCall?
  {
    Mutate(s.store.shop, EnvOf(s), step.who, step.op, step.token)
  }

  /** The step itself; a request draws at most two identifiers. */
  function Act(s: Sys, step: Step): Sys {
    var catalog := s.store.shop.catalog;
    match step
    case Tick(seconds) => s.(now := s.now + seconds)
    case PutProduct(id, row) => WithCatalog(s, catalog.(products := catalog.products[id := row]))
    case PutVariant(id, row) => WithCatalog(s, catalog.(variants := catalog.variants[id := row]))
    case PutStock(key, row) => WithCatalog(s, catalog.(inventory := catalog.inventory[key := row]))
    case VisitCart(who) =>
      (match OpenCart(s.store.shop.carts, who, s.nextId)
       case Err(_) => s
       case Ok((carts, _)) => s.(store := s.store.(shop := s.store.shop.(carts := carts))))
    case CartCall(who, op, token) =>
      (match CartAnswer(s, step)
       case Raise(_) => s
       case Ask(claims) => s.(issued := s.issued + [claims])
       case Done(shop) => s.(store := s.store.(shop := shop)))
    case QuoteCall(who, cartId, allowed) => Commit(s, CreateQuote(s.store, EnvOf(s), who, cartId, allowed))
    case ConfirmCall(who, q, allowed) => Commit(s, ConfirmQuote(s.store, EnvOf(s), who, q, allowed))
    case PayCall(tenant, o, provider) =>
      var outcome := CreatePayment(s.store, s.sent, provider, tenant, o);
      Commit(s.(sent := outcome.sent), outcome.result)
    case WebhookCall(d) => s.(store := Webhook(s.store, d).0)
  }

  function Next(s: Sys, step: Step): Sys {
    Act(s, step).(nextId := s.nextId + 2)
  }

  function Run(s: Sys, steps: seq<Step>): Sys {
    if steps == [] then s else Next(Run(s, steps[..|steps| - 1]), steps[|steps| - 1])
  }

  /** The state just before step `k` of a run. */
  function Before(s: Sys, steps: seq<Step>, k: nat): Sys
    requires k <= |steps|
  {
    Run(s, steps[..k])
  }

  lemma {:induction false} RunSplit(s: Sys, first: seq<Step>, rest: seq<Step>)
    ensures Run(s, first + rest) == Run(Run(s, first), rest)
  {
    hide Next;
    if rest == [] {
      assert first + rest == first;
    } else {
      var n := |rest| - 1;
      assert (first + rest)[..|first + rest| - 1] == first + rest[..n];
      RunSplit(s, first, rest[..n]);
    }
  }

  /** The state before a later step, seen from the state after an earlier one. */
  lemma BeforeFrom(s: Sys, steps: seq<Step>, j: nat, k: nat)
    requires j < k <= |steps|
    ensures Before(s, steps, k) == Run(Next(Before(s, steps, j), steps[j]), steps[j + 1..k])
  {
    hide Next;
    assert steps[..j + 1][..j] == steps[..j];
    assert Run(s, steps[..j + 1]) == Next(Run(s, steps[..j]), steps[j]);
    assert steps[..k] == steps[..j + 1] + steps[j + 1..k];
    RunSplit(s, steps[..j + 1], steps[j + 1..k]);
  }
}
