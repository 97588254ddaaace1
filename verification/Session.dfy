/** The services and routes as they work on one database session: rows are changed in
    place, and a route commits on success or lets its changes be rolled back. */
module Session {
  import opened Prelude
  import opened Tables
  import opened Carts
  import opened Checkout
  import opened Payments
  import opened Webhooks
  import opened Machine

  /** What happens during an agent's run, as far as the cart is concerned. */
  datatype AgentAct =
    | ShowAct
    | ValidateAct
    | MutateAct(op: CartOp, token: Option<Token>)
    | WaitAct(seconds: nat)

  /** A view or validation may open a cart, and what it opens is kept. */
  function StepOf(who: Who, act: AgentAct): Step {
    match act
    case ShowAct => VisitCart(who)
    case ValidateAct => VisitCart(who)
    case MutateAct(op, token) => CartCall(who, op, token)
    case WaitAct(seconds) => Machine.Tick(seconds)
  }

  function StepsOf(who: Who, acts: seq<AgentAct>): seq<Step> {
    seq(|acts|, i requires 0 <= i < |acts| => StepOf(who, acts[i]))
  }

  lemma OneActMore(s: Sys, who: Who, acts: seq<AgentAct>, k: nat)
    requires k < |acts|
    ensures Run(s, StepsOf(who, acts[..k + 1])) == Next(Run(s, StepsOf(who, acts[..k])), StepOf(who, acts[k]))
  {
    hide Next, StepOf;
    var steps := StepsOf(who, acts[..k + 1]);
    assert steps[..k] == StepsOf(who, acts[..k]);
  }

  lemma CartCallStep(s: Sys, who: Who, op: CartOp, token: Option<Token>)
    ensures var call := CartCall(who, op, token);
            Next(s, call) == match CartAnswer(s, call)
                             case Raise(_) => s.(nextId := s.nextId + 2)
                             case Ask(claims) => s.(issued := s.issued + [claims], nextId := s.nextId + 2)
                             case Done(shop) => s.(store := s.store.(shop := shop), nextId := s.nextId + 2)
  {
    hide Mutate;
  }

  datatype Answer = Raised(error: Error) | NeedsConfirmation(claims: Claims) | Success

  class Session {
    // the session's working rows
    var catalog: Catalog
    var carts: seq<Cart>
    var quotes: seq<Quote>
    var confirmations: seq<Confirmation>
    var orders: seq<Order>
    var payments: seq<Payment>
    var attempts: seq<Attempt>
    var events: set<EventId>
    var nextEvent: nat
    // the rows last committed, and those at each savepoint of the open transaction
    var saved: Store
    var savepoints: seq<Store>
    // what no rollback undoes
    var sent: seq<ProviderOrder>
    var issued: seq<Claims>
    var now: int
    var nextId: Id
    const deadAtExp: bool

    function Rows(): Store
      reads this
    {
      Store(Shop(catalog, carts), quotes, confirmations, orders, payments, attempts, events, nextEvent)
    }

    /** The machine state this session shows to others. */
    function Image(): Sys
      reads this
    {
      Sys(saved, sent, issued, now, deadAtExp, nextId)
    }

    function Env(): Env
      reads this
    {
      Carts.Env.Env(issued, now, deadAtExp, nextId)
    }

    /** The machine state as this session's own transaction sees it. */
    function Working(): Sys
      reads this
    {
      Sys(Rows(), sent, issued, now, deadAtExp, nextId)
    }

    /** Between requests there is nothing uncommitted and no savepoint. */
    predicate Clean()
      reads this
    {
      Rows() == saved && savepoints == []
    }

    constructor (now: int, deadAtExp: bool)
      ensures Clean() && Image() == Init(now, deadAtExp)
    {
      this.now, this.deadAtExp := now, deadAtExp;
      catalog, carts := EMPTY_STORE.shop.catalog, [];
      quotes, confirmations, orders, payments, attempts := [], [], [], [], [];
      events, nextEvent, saved := {}, 0, EMPTY_STORE;
      sent, issued, nextId, savepoints := [], [], 0, [];
    }

    // ----- transactions -----

    method Commit()
      modifies `saved, `nextId
      ensures saved == Rows() && nextId == old(nextId) + 2
    {
      saved := Rows();
      nextId := nextId + 2;
    }

    method Rollback()
      modifies `catalog, `carts, `quotes, `confirmations, `orders, `payments, `attempts, `events, `nextEvent, `nextId
      ensures Rows() == saved == old(saved)
      ensures nextId == old(nextId) + 2
    {
      catalog, carts := saved.shop.catalog, saved.shop.carts;
      quotes, confirmations, orders := saved.quotes, saved.confirmations, saved.orders;
      payments, attempts := saved.payments, saved.attempts;
      events, nextEvent := saved.events, saved.nextEvent;
      nextId := nextId + 2;
    }

    /** Keeps or drops what the request did. */
    method Finish(commit: bool)
      modifies `catalog, `carts, `quotes, `confirmations, `orders, `payments, `attempts, `events, `nextEvent, `nextId, `saved
      ensures Rows() == saved == (if commit then old(Rows()) else old(saved))
      ensures nextId == old(nextId) + 2
    {
      if commit {
        Commit();
      } else {
        Rollback();
      }
    }

    // ----- savepoints -----

    method BeginNested()
      modifies `savepoints
      ensures savepoints == old(savepoints) + [Rows()]
    {
      savepoints := savepoints + [Rows()];
    }

    method Release()
      requires savepoints != []
      modifies `savepoints
      ensures savepoints == old(savepoints)[..|old(savepoints)| - 1]
    {
      savepoints := savepoints[..|savepoints| - 1];
    }

    method RollbackToSavepoint()
      requires savepoints != []
      modifies `catalog, `carts, `quotes, `confirmations, `orders, `payments, `attempts, `events, `nextEvent, `savepoints
      ensures Rows() == old(savepoints)[|old(savepoints)| - 1]
      ensures savepoints == old(savepoints)[..|old(savepoints)| - 1]
    {
      var rows := savepoints[|savepoints| - 1];
      catalog, carts := rows.shop.catalog, rows.shop.carts;
      quotes, confirmations, orders := rows.quotes, rows.confirmations, rows.orders;
      payments, attempts, events, nextEvent := rows.payments, rows.attempts, rows.events, rows.nextEvent;
      savepoints := savepoints[..|savepoints| - 1];
    }

    // ----- cart service -----

    method GetOrCreateCart(who: Who) returns (r: Result<nat, Error>)
      modifies `carts
      ensures match OpenCart(old(carts), who, nextId)
              case Err(e) => r == Err(e) && carts == old(carts)
              case Ok((after, c)) => r == Ok(c) && carts == after && c < |carts|
    {
      var found := ActiveCarts(carts, who);
      if |found| > 1 {
        return Err(MultipleRows);
      }
      if |found| == 0 {
        carts := carts + [NewCart(nextId, who)];
        return Ok(|carts| - 1);
      }
      assert found[0] in found;
      return Ok(found[0]);
    }

    method FindByKey(items: seq<Line>, product: Id, variant: Option<Id>) returns (i: nat)
      ensures i == LineOfKey(items, product, variant)
    {
      i := 0;
      while i < |items| && !(items[i].product == product && items[i].variant == variant)
        invariant i <= |items|
        invariant forall j | 0 <= j < i :: !(items[j].product == product && items[j].variant == variant)
      {
        i := i + 1;
      }
    }

    method FindById(items: seq<Line>, id: Id) returns (i: nat)
      ensures i == LineOfId(items, id)
    {
      i := 0;
      while i < |items| && items[i].id != id
        invariant i <= |items|
        invariant forall j | 0 <= j < i :: items[j].id != id
      {
        i := i + 1;
      }
    }

    /** What a service call that should come to `outcome` has done. */
    twostate predicate Carried(outcome: CartOutcome, r: Answer)
      reads this
    {
      match outcome
      case Raise(e) => r == Raised(e) && issued == old(issued)
      case Ask(claims) => r == NeedsConfirmation(claims) && issued == old(issued) + [claims]
      case Done(shop) => r == Success && Shop(catalog, carts) == shop && issued == old(issued)
    }

    method AddItem(who: Who, product: Id, variant: Option<Id>, quantity: int, token: Option<Token>) returns (r: Answer)
      modifies `carts, `issued
      ensures Carried(Carts.AddItem(old(Rows().shop), old(Env()), who, product, variant, quantity, token), r)
    {
      hide CurrentOffer, ActiveCarts, MergeLine, Verify, PriceStands;
      if quantity <= 0 {
        return Raised(BadQuantity);
      }
      var current := CurrentOffer(catalog, who.tenant, product, variant);
      if current.Err? {
        return Raised(current.error);
      }
      var offer := current.value;
      if offer.stock < quantity {
        return Raised(InsufficientInventory);
      }
      if token.None? {
        var claims := Issue(Env(), who, AddAction, product, Some(quantity), Some(offer.price), variant);
        issued := issued + [claims];
        return NeedsConfirmation(claims);
      }
      var verified := Verify(Env(), token.value, who, AddAction, product, Some(quantity), variant);
      if verified.Err? {
        return Raised(verified.error);
      }
      var stands := PriceStands(verified.value, offer.price);
      if stands.Err? {
        return Raised(stands.error);
      }
      var opened' := GetOrCreateCart(who);
      if opened'.Err? {
        return Raised(opened'.error);
      }
      r := Merge(opened'.value, product, variant, quantity, offer);
    }

    /** Adds to the line of the key, or a line for it. */
    method Merge(c: nat, product: Id, variant: Option<Id>, quantity: int, offer: Offer) returns (r: Answer)
      requires c < |carts|
      modifies `carts
      ensures match MergeLine(old(carts)[c].items, nextId + 1, product, variant, quantity, offer)
              case Err(e) => r == Raised(e) && carts == old(carts)
              case Ok(items) => r == Success && carts == old(carts)[c := old(carts)[c].(items := items)]
    {
      var items := carts[c].items;
      var i := FindByKey(items, product, variant);
      if i < |items| {
        var combined := items[i].quantity + quantity;
        if offer.stock < combined {
          return Raised(InsufficientCombinedInventory);
        }
        items := items[i := items[i].(quantity := combined, price := offer.price)];
      } else {
        items := items + [Line(nextId + 1, product, variant, quantity, offer.price)];
      }
      carts := carts[c := carts[c].(items := items)];
      return Success;
    }

    method UpdateItem(who: Who, item: Id, quantity: int, token: Option<Token>) returns (r: Answer)
      modifies `carts, `issued
      ensures Carried(Carts.UpdateItem(old(Rows().shop), old(Env()), who, item, quantity, token), r)
    {
      if quantity <= 0 {
        return Raised(BadQuantity);
      }
      var opened' := GetOrCreateCart(who);
      if opened'.Err? {
        return Raised(opened'.error);
      }
      var c := opened'.value;
      var items := carts[c].items;
      var i := FindById(items, item);
      if i == |items| {
        return Raised(ItemNotFound);
      }
      var current := CurrentOffer(catalog, who.tenant, items[i].product, items[i].variant);
      if current.Err? {
        return Raised(current.error);
      }
      var offer := current.value;
      if offer.stock < quantity {
        return Raised(InsufficientInventory);
      }
      if token.None? {
        var claims := Issue(Env(), who, UpdateAction, item, Some(quantity), Some(offer.price), None);
        issued := issued + [claims];
        return NeedsConfirmation(claims);
      }
      var verified := Verify(Env(), token.value, who, UpdateAction, item, Some(quantity), None);
      if verified.Err? {
        return Raised(verified.error);
      }
      var stands := PriceStands(verified.value, offer.price);
      if stands.Err? {
        return Raised(stands.error);
      }
      carts := carts[c := carts[c].(items := items[i := items[i].(quantity := quantity, price := offer.price)])];
      return Success;
    }

    method RemoveItem(who: Who, item: Id, token: Option<Token>) returns (r: Answer)
      modifies `carts, `issued
      ensures Carried(Carts.RemoveItem(old(Rows().shop), old(Env()), who, item, token), r)
    {
      var opened' := GetOrCreateCart(who);
      if opened'.Err? {
        return Raised(opened'.error);
      }
      var c := opened'.value;
      var items := carts[c].items;
      var i := FindById(items, item);
      if i == |items| {
        return Raised(ItemNotFound);
      }
      if token.None? {
        var claims := Issue(Env(), who, RemoveAction, item, None, None, None);
        issued := issued + [claims];
        return NeedsConfirmation(claims);
      }
      var verified := Verify(Env(), token.value, who, RemoveAction, item, None, None);
      if verified.Err? {
        return Raised(verified.error);
      }
      carts := carts[c := carts[c].(items := items[..i] + items[i + 1..])];
      return Success;
    }

    method ClearCart(who: Who, token: Option<Token>) returns (r: Answer)
      modifies `carts, `issued
      ensures Carried(Carts.ClearCart(old(Rows().shop), old(Env()), who, token), r)
    {
      var opened' := GetOrCreateCart(who);
      if opened'.Err? {
        return Raised(opened'.error);
      }
      var c := opened'.value;
      if token.None? {
        var claims := Issue(Env(), who, ClearAction, carts[c].id, None, None, None);
        issued := issued + [claims];
        return NeedsConfirmation(claims);
      }
      var verified := Verify(Env(), token.value, who, ClearAction, carts[c].id, None, None);
      if verified.Err? {
        return Raised(verified.error);
      }
      ghost var before := carts;
      var items := carts[c].items;
      for k := 0 to |items|
        modifies `carts
        invariant carts == before[c := before[c].(items := items[k..])]
      {
        carts := carts[c := carts[c].(items := carts[c].items[1..])];
      }
      return Success;
    }

    method ValidateCart(who: Who) returns (r: Result<seq<Finding>, Error>)
      modifies `carts
      ensures match OpenCart(old(carts), who, nextId)
              case Err(e) => r == Err(e) && carts == old(carts)
              case Ok((after, c)) => carts == after && r == Ok(Findings(catalog, who.tenant, after[c].items))
    {
      var opened' := GetOrCreateCart(who);
      if opened'.Err? {
        return Err(opened'.error);
      }
      var items := carts[opened'.value].items;
      var findings := [];
      for k := 0 to |items|
        invariant findings == Findings(catalog, who.tenant, items[..k])
      {
        assert items[..k + 1][..k] == items[..k];
        findings := findings + LineFindings(catalog, who.tenant, items[k]);
      }
      assert items[..|items|] == items;
      return Ok(findings);
    }

    // ----- checkout service -----

    method Subtotal(items: seq<Line>) returns (paise: int)
      ensures paise == CartTotal(items)
    {
      paise := 0;
      for k := 0 to |items|
        invariant paise == CartTotal(items[..k])
      {
        assert items[..k + 1][..k] == items[..k];
        paise := paise + items[k].price * items[k].quantity;
      }
      assert items[..|items|] == items;
    }

    method AddOrderItems(o: nat, tenant: Id, items: seq<Line>)
      requires o < |orders| && orders[o].items == []
      modifies `orders
      ensures orders == old(orders)[o := old(orders)[o].(items := OrderItemsOf(tenant, items))]
    {
      var order := orders[o];
      assert OrderItemsOf(tenant, items[..0]) == [];
      for k := 0 to |items|
        invariant orders == old(orders)[o := order.(items := OrderItemsOf(tenant, items[..k]))]
      {
        var l := items[k];
        var item := OrderItem(tenant, l.product, l.variant, l.quantity, l.price, 0, l.price * l.quantity);
        orders := orders[o := orders[o].(items := orders[o].items + [item])];
        assert OrderItemsOf(tenant, items[..k + 1]) == OrderItemsOf(tenant, items[..k]) + [item];
      }
      assert items[..|items|] == items;
    }

    method CreateQuote(who: Who, cartId: Id, allowed: bool) returns (r: Result<(), Error>)
      modifies `carts, `quotes
      ensures match Checkout.CreateQuote(old(Rows()), old(Env()), who, cartId, allowed)
              case Err(e) => r == Err(e)
              case Ok(store) => r == Ok(()) && Rows() == store
    {
      hide Findings, CurrentOffer, ActiveCarts, CartTotal;
      var opened' := GetOrCreateCart(who);
      if opened'.Err? {
        return Err(opened'.error);
      }
      var c := opened'.value;
      if carts[c].id != cartId {
        return Err(CartMismatch);
      }
      if carts[c].items == [] {
        return Err(CartEmpty);
      }
      ReopenCart(old(carts), who, nextId);
      var findings := ValidateCart(who);
      if findings.value != [] {
        return Err(CartInvalid);
      }
      if !allowed {
        return Err(PolicyDenied);
      }
      var paise := Subtotal(carts[c].items);
      var subtotal, discount, tax := 100 * paise, 0, 18 * paise;
      var quote := Quote(who.tenant, c, carts[c].currency, subtotal, discount, tax, subtotal - discount + tax,
                         now + FIFTEEN_MINUTES, QuoteActive);
      quotes := quotes + [quote];
      return Ok(());
    }

    /** Writes the confirmation, the order and its items, and marks the quote and the cart. */
    method PlaceOrder(who: Who, q: nat, c: nat)
      requires q < |quotes| && c < |carts|
      modifies `carts, `quotes, `confirmations, `orders
      ensures var quote := old(quotes)[q];
              && confirmations == old(confirmations) + [Confirmation(who.tenant, q, quote.total, quote.currency)]
              && orders == old(orders) + [OrderOf(who, quote, c, old(carts)[c].items)]
              && quotes == old(quotes)[q := quote.(status := QuoteConfirmed)]
              && carts == old(carts)[c := old(carts)[c].(status := CartConverted)]
    {
      var quote := quotes[q];
      confirmations := confirmations + [Confirmation(who.tenant, q, quote.total, quote.currency)];
      var order := Order(who.tenant, who.user, c, quote.currency, quote.subtotal, quote.discount, quote.tax, quote.total,
                         OrderCreated, []);
      orders := orders + [order];
      AddOrderItems(|orders| - 1, who.tenant, carts[c].items);
      quotes := quotes[q := quote.(status := QuoteConfirmed)];
      carts := carts[c := carts[c].(status := CartConverted)];
    }

    method ConfirmQuote(who: Who, q: nat, allowed: bool) returns (r: Result<(), Error>)
      modifies `carts, `quotes, `confirmations, `orders
      ensures match Checkout.ConfirmQuote(old(Rows()), old(Env()), who, q, allowed)
              case Err(e) => r == Err(e)
              case Ok(store) => r == Ok(()) && Rows() == store
    {
      hide Findings, CurrentOffer, ActiveCarts, OrderItemsOf, OrderOf;
      if q >= |quotes| || quotes[q].tenant != who.tenant || quotes[q].status != QuoteActive {
        return Err(QuoteNotFound);
      }
      var quote := quotes[q];
      if quote.expiresAt < now {
        quotes := quotes[q := quote.(status := QuoteExpired)];
        return Err(QuoteHasExpired);
      }
      var opened' := GetOrCreateCart(who);
      if opened'.Err? {
        return Err(opened'.error);
      }
      var c := opened'.value;
      if c != quote.cart {
        return Err(CartMismatch);
      }
      ReopenCart(old(carts), who, nextId);
      var findings := ValidateCart(who);
      if findings.value != [] {
        return Err(CartInvalid);
      }
      if !allowed {
        return Err(PolicyDenied);
      }
      PlaceOrder(who, q, c);
      return Ok(());
    }

    // ----- payment service -----

    /** The provider's answer is the identifier of an order it has never given out. */
    method CreateProviderOrder(provider: Provider, amount: int, currency: string) returns (id: Id)
      modifies `sent
      ensures id == old(|sent|) && sent == old(sent) + [ProviderOrder(provider, SubunitsSent(provider, amount), currency)]
    {
      id := |sent|;
      var subunits := if provider == Razorpay then RoundedSubunits(amount) else TruncatedSubunits(amount);
      sent := sent + [ProviderOrder(provider, subunits, currency)];
    }

    method CreatePaymentForOrder(provider: Provider, tenant: Id, o: nat) returns (r: Result<nat, Error>)
      modifies `payments, `orders, `sent
      ensures var outcome := CreatePayment(old(Rows()), old(sent), provider, tenant, o);
              && sent == outcome.sent
              && (outcome.result.Err? ==> r == Err(outcome.result.error))
              && (outcome.result.Ok? ==> r.Ok? && Rows() == outcome.result.value
                                         && r.value < |payments| && payments[r.value].order == o)
    {
      if o >= |orders| || orders[o].tenant != tenant {
        return Err(OrderNotFound);
      }
      if orders[o].status != OrderCreated {
        return Err(OrderNotCreated);
      }
      var existing := PaymentsAwaiting(payments, o);
      if |existing| > 1 {
        return Err(MultipleRows);
      }
      if |existing| == 1 {
        assert existing[0] in existing;
        return Ok(existing[0]);
      }
      var order := orders[o];
      var id := CreateProviderOrder(provider, order.total, order.currency);
      var p := |payments|;
      payments := payments + [Payment(order.tenant, o, id, order.total, order.currency, PayCreated)];
      orders := orders[o := order.(status := OrderPending)];
      if !FitsNumeric10_4(order.total) {
        return Err(NumericOverflow);
      }
      return Ok(p);
    }

    // ----- webhook -----

    method SettlePayment(p: nat, d: Delivery) returns (ok: bool)
      requires p < |payments| && Deciding(d)
      modifies `payments, `orders, `attempts
      ensures ok == (old(payments)[p].order < |old(orders)|)
      ensures ok ==>
                var payment, order := old(payments)[p], old(orders)[old(payments)[p].order];
                && payments == old(payments)[p := payment.(status := VerdictOf(d).0)]
                && orders == old(orders)[payment.order := order.(status := VerdictOf(d).1)]
                && attempts == old(attempts) + [Attempt(payment.tenant, p, payment.amount, VerdictOf(d).2)]
    {
      var o := payments[p].order;
      payments := payments[p := payments[p].(status := if d.kind == Some(Captured) then PayPaid else PayFailed)];
      if o >= |orders| {
        return false;
      }
      orders := orders[o := orders[o].(status := if d.kind == Some(Captured) then OrderPaid else OrderFailed)];
      attempts := attempts + [Attempt(payments[p].tenant, p, payments[p].amount,
                                      if d.kind == Some(Captured) then AttemptSuccess else AttemptFailed)];
      return true;
    }

    /** Whether the handler reached its final commit, and what it replied. */
    method HandleWebhook(d: Delivery) returns (commit: bool, reply: Reply)
      modifies `payments, `orders, `attempts, `events, `nextEvent
      ensures reply == Webhook(old(Rows()), d).1 && (commit <==> reply == Accepted)
      ensures commit ==> Rows() == Webhook(old(Rows()), d).0
      ensures !commit ==> old(Rows()) == Webhook(old(Rows()), d).0
    {
      hide Select, RoundedSubunits;
      if d.order.None? {
        return false, NoOrderId;
      }
      var found := PaymentsOf(payments, d.order.value);
      if |found| > 1 {
        return false, Rejected(MultipleRows);
      }
      if |found| == 0 {
        return false, UnknownOrder;
      }
      assert found[0] in found;
      var p := found[0];
      if d.amount.Some? && d.amount.value != RoundedSubunits(payments[p].amount) {
        return false, Rejected(AmountMismatch);
      }
      if d.currency.Some? && d.currency.value != payments[p].currency {
        return false, Rejected(CurrencyMismatch);
      }
      var eventId := if d.id.Some? then Given(d.id.value) else Generated(nextEvent);
      if eventId in events {
        return false, AlreadyProcessed;
      }
      events := events + {eventId};
      nextEvent := nextEvent + if d.id.Some? then 0 else 1;
      if Deciding(d) && Open(payments[p].status) {
        var ok := SettlePayment(p, d);
        if !ok {
          return false, Rejected(MissingRow);
        }
      }
      if d.kind.None? {
        return false, Rejected(NullViolation);
      }
      return true, Accepted;
    }

    // ----- routes: one request each -----

    method Tick(seconds: nat)
      requires Clean()
      modifies this
      ensures Clean() && Image() == Next(old(Image()), Machine.Tick(seconds))
    {
      now := now + seconds;
      Commit();
    }

    /** The service call behind a cart operation. */
    method CartService(who: Who, op: CartOp, token: Option<Token>) returns (r: Answer)
      modifies `carts, `issued
      ensures Carried(Mutate(old(Rows().shop), old(Env()), who, op, token), r)
    {
      hide Carts.AddItem, Carts.UpdateItem, Carts.RemoveItem, Carts.ClearCart;
      match op {
        case Add(product, variant, quantity) => r := AddItem(who, product, variant, quantity, token);
        case Update(item, quantity) => r := UpdateItem(who, item, quantity, token);
        case Remove(item) => r := RemoveItem(who, item, token);
        case Clear => r := ClearCart(who, token);
      }
    }

    method CartRoute(who: Who, op: CartOp, token: Option<Token>) returns (r: Answer)
      requires Clean()
      modifies this
      ensures Clean() && Image() == Next(old(Image()), CartCall(who, op, token))
      ensures r == match CartAnswer(old(Image()), CartCall(who, op, token))
                   case Raise(e) => Raised(e)
                   case Ask(claims) => NeedsConfirmation(claims)
                   case Done(_) => Success
    {
      CartCallStep(Image(), who, op, token);
      hide Mutate, Next;
      r := CartService(who, op, token);
      Finish(r == Success);
    }

    /** The cart page: a cart opened to show it is rolled back. */
    method ShowCartRoute(who: Who) returns (r: Result<(int, seq<int>), Error>)
      requires Clean()
      modifies this
      ensures Clean() && Image() == old(Image()).(nextId := old(nextId) + 2)
      ensures match OpenCart(old(saved).shop.carts, who, old(nextId))
              case Err(e) => r == Err(e)
              case Ok((carts, c)) =>
                r.Ok? && r.value.0 == CartTotal(carts[c].items) && |r.value.1| == |carts[c].items|
                && forall i | 0 <= i < |carts[c].items| :: r.value.1[i] == carts[c].items[i].price * carts[c].items[i].quantity
    {
      var opened' := GetOrCreateCart(who);
      if opened'.Err? {
        r := Err(opened'.error);
      } else {
        var cartTotal, lineTotals := BuildCartResponse(carts[opened'.value]);
        r := Ok((cartTotal, lineTotals));
      }
      Rollback();
    }

    method QuoteRoute(who: Who, cartId: Id, allowed: bool) returns (r: Result<(), Error>)
      requires Clean()
      modifies this
      ensures Clean() && Image() == Next(old(Image()), QuoteCall(who, cartId, allowed))
      ensures r == match Checkout.CreateQuote(old(saved), old(Env()), who, cartId, allowed)
                   case Ok(_) => Ok(())
                   case Err(e) => Err(e)
    {
      hide Mutate, OpenCart, Checkout.CreateQuote, Checkout.ConfirmQuote, CreatePayment, Webhook;
      r := CreateQuote(who, cartId, allowed);
      Finish(r.Ok?);
    }

    method ConfirmRoute(who: Who, q: nat, allowed: bool) returns (r: Result<(), Error>)
      requires Clean()
      modifies this
      ensures Clean() && Image() == Next(old(Image()), ConfirmCall(who, q, allowed))
      ensures r == match Checkout.ConfirmQuote(old(saved), old(Env()), who, q, allowed)
                   case Ok(_) => Ok(())
                   case Err(e) => Err(e)
    {
      hide Mutate, OpenCart, Checkout.CreateQuote, Checkout.ConfirmQuote, CreatePayment, Webhook;
      r := ConfirmQuote(who, q, allowed);
      Finish(r.Ok?);
    }

    method PayRoute(provider: Provider, tenant: Id, o: nat) returns (r: Result<nat, Error>)
      requires Clean()
      modifies this
      ensures Clean() && Image() == Next(old(Image()), PayCall(tenant, o, provider))
      ensures match CreatePayment(old(saved), old(sent), provider, tenant, o).result
              case Ok(_) => r.Ok? && r.value < |saved.payments| && saved.payments[r.value].order == o
              case Err(e) => r == Err(e)
    {
      hide Mutate, OpenCart, Checkout.CreateQuote, Checkout.ConfirmQuote, CreatePayment, Webhook;
      r := CreatePaymentForOrder(provider, tenant, o);
      Finish(r.Ok?);
    }

    method WebhookRoute(d: Delivery) returns (reply: Reply)
      requires Clean()
      modifies this
      ensures Clean() && Image() == Next(old(Image()), WebhookCall(d))
      ensures reply == Webhook(old(saved), d).1
    {
      hide Mutate, OpenCart, Checkout.CreateQuote, Checkout.ConfirmQuote, CreatePayment, Webhook;
      var commit: bool;
      commit, reply := HandleWebhook(d);
      Finish(commit);
    }

    // ----- the agent's cart tools: one transaction for the whole run -----

    /** A cart operation under a savepoint, which everything but success falls back to. */
    method MutateTool(who: Who, op: CartOp, token: Option<Token>) returns (r: Answer)
      modifies `catalog, `carts, `quotes, `confirmations, `orders, `payments, `attempts, `events, `nextEvent,
        `savepoints, `issued, `nextId
      ensures Working() == Next(old(Working()), CartCall(who, op, token)) && savepoints == old(savepoints)
      ensures r == match CartAnswer(old(Working()), CartCall(who, op, token))
                   case Raise(e) => Raised(e)
                   case Ask(claims) => NeedsConfirmation(claims)
                   case Done(_) => Success
    {
      CartCallStep(Working(), who, op, token);
      hide Mutate, Next;
      BeginNested();
      r := CartService(who, op, token);
      if r == Success {
        Release();
      } else {
        RollbackToSavepoint();
      }
      nextId := nextId + 2;
    }

    /** Shows the cart, without a savepoint: a cart it opens stays. */
    method ShowTool(who: Who) returns (r: Result<int, Error>)
      modifies `carts, `nextId
      ensures Working() == Next(old(Working()), VisitCart(who))
      ensures r == match OpenCart(old(carts), who, old(nextId))
                   case Err(e) => Err(e)
                   case Ok((after, c)) => Ok(CartTotal(after[c].items))
    {
      hide ActiveCarts;
      var opened' := GetOrCreateCart(who);
      if opened'.Err? {
        r := Err(opened'.error);
      } else {
        var cartTotal, _ := BuildCartResponse(carts[opened'.value]);
        r := Ok(cartTotal);
      }
      nextId := nextId + 2;
    }

    method ValidateTool(who: Who) returns (r: Result<seq<Finding>, Error>)
      modifies `carts, `nextId
      ensures Working() == Next(old(Working()), VisitCart(who))
      ensures r == match OpenCart(old(carts), who, old(nextId))
                   case Err(e) => Err(e)
                   case Ok((after, c)) => Ok(Findings(catalog, who.tenant, after[c].items))
    {
      hide ActiveCarts, Findings;
      r := ValidateCart(who);
      nextId := nextId + 2;
    }

    method WaitDuringRun(seconds: nat)
      modifies `now, `nextId
      ensures Working() == Next(old(Working()), Machine.Tick(seconds))
    {
      now := now + seconds;
      nextId := nextId + 2;
    }

    /** The cart tools an agent calls in one run, committed together at its end, leave what
        the same requests one by one would have; until then others see none of it. */
    method AgentRun(who: Who, acts: seq<AgentAct>)
      requires Clean()
      modifies this
      ensures Clean() && Image() == Run(old(Image()), StepsOf(who, acts))
    {
      hide Next, Run;
      ghost var start := Image();
      NoActs(start, who, acts);
      for k := 0 to |acts|
        invariant Working() == Run(start, StepsOf(who, acts[..k]))
        invariant saved == start.store && savepoints == []
      {
        OneActMore(start, who, acts, k);
        match acts[k] {
          case ShowAct => var _ := ShowTool(who);
          case ValidateAct => var _ := ValidateTool(who);
          case MutateAct(op, token) => var _ := MutateTool(who, op, token);
          case WaitAct(seconds) => WaitDuringRun(seconds);
        }
      }
      assert acts[..|acts|] == acts;
      saved := Rows();
    }
  }

  lemma NoActs(s: Sys, who: Who, acts: seq<AgentAct>)
    ensures Run(s, StepsOf(who, acts[..0])) == s
  {
  }

  /** Opening a cart again finds the one just opened. */
  lemma ReopenCart(carts: seq<Cart>, who: Who, nextId: Id)
    ensures var r := OpenCart(carts, who, nextId);
            r.Ok? ==> OpenCart(r.value.0, who, nextId) == r
  {
    if ActiveCarts(carts, who) == [] {
      var after := carts + [NewCart(nextId, who)];
      assert after[..|after| - 1] == carts;
      assert ActiveCarts(after, who) == [|carts|];
    }
  }

  /** The cart page: the total and each line's total. */
  method BuildCartResponse(cart: Cart) returns (cartTotal: int, lineTotals: seq<int>)
    ensures cartTotal == CartTotal(cart.items)
    ensures |lineTotals| == |cart.items|
    ensures forall i | 0 <= i < |cart.items| :: lineTotals[i] == cart.items[i].price * cart.items[i].quantity
  {
    cartTotal, lineTotals := 0, [];
    for k := 0 to |cart.items|
      invariant cartTotal == CartTotal(cart.items[..k])
      invariant |lineTotals| == k && forall i | 0 <= i < k :: lineTotals[i] == cart.items[i].price * cart.items[i].quantity
    {
      var lineTotal := cart.items[k].price * cart.items[k].quantity;
      assert cart.items[..k + 1][..k] == cart.items[..k];
      cartTotal := cartTotal + lineTotal;
      lineTotals := lineTotals + [lineTotal];
    }
    assert cart.items[..|cart.items|] == cart.items;
  }
}
