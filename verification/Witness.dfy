/** Concrete runs showing that hypotheses of the theorems cannot be dropped, and that what
    the code gets wrong can be reached. */
module Witness {
  import opened Prelude
  import opened Tables
  import opened Carts
  import opened Checkout
  import opened Payments
  import opened Webhooks
  import opened Machine
  import opened CartInvariant
  import opened TwoPhase
  import opened Answers
  import opened Safety
  import opened Money
  import opened Race
  import opened Overlap

  const BUYER := Who(0, 0)

  function CatalogAt(price: nat): Catalog {
    Catalog(map[0 := Product(0, true, price)], map[5 := Variant(0, 0, true, price)],
            map[StockKey(0, 0, None) := Stock(10, 0), StockKey(0, 0, Some(5)) := Stock(10, 0)])
  }

  /** A shop with one product, its variant at the same price, and stock of both. */
  function SetUp(price: nat): seq<Step> {
    [PutProduct(0, Product(0, true, price)),
     PutVariant(5, Variant(0, 0, true, price)),
     PutStock(StockKey(0, 0, None), Stock(10, 0)),
     PutStock(StockKey(0, 0, Some(5)), Stock(10, 0))]
  }

  function OpenShop(price: nat): Sys {
    Sys(EMPTY_STORE.(shop := Shop(CatalogAt(price), [])), [], [], 0, false, 8)
  }

  lemma SetUpStep(price: nat, i: nat, products: map<Id, Product>, variants: map<Id, Variant>, inventory: map<StockKey, Stock>, s: Sys)
    requires i < 4 && s == Sys(EMPTY_STORE.(shop := Shop(Catalog(products, variants, inventory), [])), [], [], 0, false, 2 * i)
    ensures Next(s, SetUp(price)[i]) == Sys(EMPTY_STORE.(shop := Shop(Catalog(
                                    if i == 0 then products[0 := Product(0, true, price)] else products,
                                    if i == 1 then variants[5 := Variant(0, 0, true, price)] else variants,
                                    if i == 2 then inventory[StockKey(0, 0, None) := Stock(10, 0)]
                                    else if i == 3 then inventory[StockKey(0, 0, Some(5)) := Stock(10, 0)] else inventory), [])),
                                    [], [], 0, false, 2 * i + 2)
  {
    hide Mutate, OpenCart, CreateQuote, ConfirmQuote, CreatePayment, Webhook;
  }

  lemma SetUpRuns(price: nat)
    ensures Run(Init(0, false), SetUp(price)) == OpenShop(price)
  {
    hide Next;
    var s0 := Init(0, false);
    var s1 := Next(s0, SetUp(price)[0]);
    var s2 := Next(s1, SetUp(price)[1]);
    var s3 := Next(s2, SetUp(price)[2]);
    var products := map[0 := Product(0, true, price)];
    var variants := map[5 := Variant(0, 0, true, price)];
    SetUpStep(price, 0, map[], map[], map[], s0);
    SetUpStep(price, 1, products, map[], map[], s1);
    SetUpStep(price, 2, products, variants, map[], s2);
    SetUpStep(price, 3, products, variants, map[StockKey(0, 0, None) := Stock(10, 0)], s3);
    RunFour(s0, SetUp(price)[0], SetUp(price)[1], SetUp(price)[2], SetUp(price)[3]);
  }

  lemma RunFour(s: Sys, a: Step, b: Step, c: Step, d: Step)
    ensures Run(s, [a, b, c, d]) == Next(Next(Next(Next(s, a), b), c), d)
  {
    hide Next;
    assert [a, b, c, d] == [a, b] + [c, d];
    RunSplit(s, [a, b], [c, d]);
    RunOfTwo(s, a, b);
    RunOfTwo(Run(s, [a, b]), c, d);
  }

  lemma NextIsReachable(s: Sys, step: Step)
    requires Reachable(s)
    ensures Reachable(Next(s, step))
  {
    hide Next;
    var now, deadAtExp, steps :| s == Run(Init(now, deadAtExp), steps);
    assert (steps + [step])[..|steps + [step]| - 1] == steps;
    assert Next(s, step) == Run(Init(now, deadAtExp), steps + [step]);
  }

  lemma OpenShopIsReachable(price: nat)
    ensures Reachable(OpenShop(price))
  {
    SetUpRuns(price);
  }

  // ----- asking, adding, quoting -----

  function TokenAt(price: nat): Claims {
    Claims(BUYER, AddAction, 0, Some(1), Some(price), None, FIFTEEN_MINUTES)
  }

  const ASK := CartCall(BUYER, Add(0, None, 1), None)
  const QUOTE := QuoteCall(BUYER, 10, true)
  const CONFIRM := ConfirmCall(BUYER, 0, true)

  function AddAt(price: nat): Step {
    CartCall(BUYER, Add(0, None, 1), Some(Signed(TokenAt(price))))
  }

  function CartOf(price: nat, quantity: int): Cart {
    Cart(10, 0, 0, CartActive, INR, [Line(11, 0, None, quantity, price)])
  }

  /** The shop with the buyer's cart, after the token has been handed out. */
  function Shopping(price: nat, quantity: int, quotes: seq<Quote>, nextId: Id): Sys {
    Sys(EMPTY_STORE.(shop := Shop(CatalogAt(price), [CartOf(price, quantity)]), quotes := quotes),
        [], [TokenAt(price)], 0, false, nextId)
  }

  function OnePieceQuote(price: nat): Quote {
    Quote(0, 0, INR, 100 * price, 0, 18 * price, 118 * price, FIFTEEN_MINUTES, QuoteActive)
  }

  lemma AskStep(price: nat)
    ensures Next(OpenShop(price), ASK) == OpenShop(price).(issued := [TokenAt(price)], nextId := 10)
  {
  }

  lemma BuyerOffer(price: nat)
    ensures CurrentOffer(CatalogAt(price), 0, 0, None) == Ok(Offer(price, 10))
    ensures CurrentOffer(CatalogAt(price), 0, 0, Some(5)) == Ok(Offer(price, 10))
  {
  }

  lemma FirstAddStep(price: nat)
    ensures Next(OpenShop(price).(issued := [TokenAt(price)], nextId := 10), AddAt(price)) == Shopping(price, 1, [], 12)
  {
    BuyerOffer(price);
    var carts := [] + [NewCart(10, BUYER)];
    var none: seq<Line> := [];
    assert none + CartOf(price, 1).items == CartOf(price, 1).items;
    assert MergeLine(none, 11, 0, None, 1, Offer(price, 10)) == Ok(none + CartOf(price, 1).items);
    assert carts[0 := carts[0].(items := CartOf(price, 1).items)] == [CartOf(price, 1)];
  }

  lemma OwnCart(price: nat, quantity: int, nextId: Id)
    ensures OpenCart([CartOf(price, quantity)], BUYER, nextId) == Ok(([CartOf(price, quantity)], 0))
  {
    SelectOnly([CartOf(price, quantity)], ActiveFor(BUYER), 0);
  }

  lemma OneLine(price: nat, quantity: int)
    requires quantity <= 10
    ensures CartTotal(CartOf(price, quantity).items) == price * quantity
    ensures Findings(CatalogAt(price), 0, CartOf(price, quantity).items) == []
  {
    BuyerOffer(price);
    var items := CartOf(price, quantity).items;
    assert items[..0] == [] && items == [] + items;
    assert LineFindings(CatalogAt(price), 0, items[0]) == [];
    assert Total(items[..0], LineTotal) == 0;
  }

  lemma QuoteStep(price: nat)
    ensures Next(Shopping(price, 1, [], 12), QUOTE) == Shopping(price, 1, [OnePieceQuote(price)], 14)
  {
    OwnCart(price, 1, 12);
    OneLine(price, 1);
    hide Findings, CartTotal, OpenCart;
  }

  function Quoted(price: nat): Sys {
    Shopping(price, 1, [OnePieceQuote(price)], 14)
  }

  lemma QuotedIsReachable(price: nat)
    ensures Reachable(Quoted(price))
  {
    hide Next, Reachable;
    OpenShopIsReachable(price);
    AskStep(price);
    NextIsReachable(OpenShop(price), ASK);
    FirstAddStep(price);
    NextIsReachable(OpenShop(price).(issued := [TokenAt(price)], nextId := 10), AddAt(price));
    QuoteStep(price);
    NextIsReachable(Shopping(price, 1, [], 12), QUOTE);
  }

  // ----- a quote overtaken by its cart -----

  lemma SecondAddStep(price: nat)
    ensures Next(Quoted(price), AddAt(price)) == Shopping(price, 2, [OnePieceQuote(price)], 16)
  {
    BuyerOffer(price);
    OwnCart(price, 1, 14);
    var one := CartOf(price, 1).items;
    assert LineOfKey(one, 0, None) == 0;
    assert one[0 := one[0].(quantity := 2, price := price)] == CartOf(price, 2).items;
    assert MergeLine(one, 15, 0, None, 1, Offer(price, 10)) == Ok(CartOf(price, 2).items);
    assert [CartOf(price, 1)][0 := CartOf(price, 1).(items := CartOf(price, 2).items)] == [CartOf(price, 2)];
    hide CurrentOffer, OpenCart, MergeLine, LineOfKey;
  }

  const OVERTAKEN := Shopping(100, 2, [OnePieceQuote(100)], 16)

  /** A reachable confirmation whose order charges for one piece and lists two: the quote
      was made before the second piece was added. */
  lemma QuoteOvertakenByCart()
    ensures Reachable(OVERTAKEN)
    ensures var r := ConfirmQuote(OVERTAKEN.store, EnvOf(OVERTAKEN), BUYER, 0, true);
            && r.Ok? && |r.value.orders| == 1
            && r.value.orders[0].subtotal == 100 * 100
            && Total(r.value.orders[0].items, ItemTotal) == 200
  {
    QuotedIsReachable(100);
    SecondAddStep(100);
    NextIsReachable(Quoted(100), AddAt(100));
    hide Next, Reachable;
    OwnCart(100, 2, 16);
    OneLine(100, 2);
    ItemsTotalIsCartTotal(0, CartOf(100, 2).items);
    hide OpenCart, Findings;
  }

  // ----- an order that cannot be paid -----

  /** After the buyer of one piece has confirmed. */
  function Ordered(price: nat): Sys {
    Next(Quoted(price), CONFIRM)
  }

  lemma OrderedAtPrice(price: nat)
    ensures Reachable(Ordered(price))
    ensures var store := Ordered(price).store;
            && |store.orders| == 1 && store.orders[0].status == OrderCreated && store.orders[0].tenant == 0
            && store.orders[0].subtotal == 100 * price && store.orders[0].total == 118 * price && store.orders[0].currency == INR
            && store.payments == [] && store.attempts == [] && store.events == {}
    ensures Ordered(price).sent == []
  {
    QuotedIsReachable(price);
    NextIsReachable(Quoted(price), CONFIRM);
    hide Reachable;
    OwnCart(price, 1, 14);
    OneLine(price, 1);
    hide OpenCart, Findings, OrderItemsOf;
  }

  /** One piece at one paisa above the largest payable cart: a reachable CREATED order that
      stays unpaid in every later state. */
  lemma OversizedOrderIsReachable()
    ensures var s := Ordered(LARGEST_PAYABLE + 1);
            && Reachable(s) && |s.store.orders| == 1 && s.store.orders[0].status == OrderCreated
            && s.store.orders[0].subtotal > 100 * LARGEST_PAYABLE
            && forall steps :: |Run(s, steps).store.orders| >= 1 && Run(s, steps).store.orders[0].status == OrderCreated
  {
    OrderedAtPrice(LARGEST_PAYABLE + 1);
    hide Reachable, Ordered;
    var s := Ordered(LARGEST_PAYABLE + 1);
    forall steps
      ensures |Run(s, steps).store.orders| >= 1 && Run(s, steps).store.orders[0].status == OrderCreated
    {
      OversizedOrderIsNeverPaid(s, 0, steps);
    }
  }

  // ----- two captures that overlap -----

  const PAYING := Next(Ordered(100), PayCall(0, 0, Razorpay))
  const FIRST := Delivery(Some(1), Some(Captured), Some(0), None, None)
  const SECOND := Delivery(Some(2), Some(Captured), Some(0), None, None)

  lemma PayingIsReachable()
    ensures Reachable(PAYING)
    ensures PAYING.store.payments == [Payment(0, 0, 0, 11_800, INR, PayCreated)]
    ensures |PAYING.store.orders| == 1 && PAYING.store.attempts == [] && PAYING.store.events == {}
  {
    OrderedAtPrice(100);
    hide Reachable, Ordered, Inv;
    var s := Ordered(100);
    NextIsReachable(s, PayCall(0, 0, Razorpay));
    PayStep(s, 0, PayCall(0, 0, Razorpay));
    hide RoundedSubunits;
  }

  /** A reachable payment that two overlapping captures settle twice. */
  lemma TwoCapturesAreReachable()
    ensures Reachable(PAYING)
    ensures var attempt := Attempt(0, 0, 11_800, AttemptSuccess);
            var after := Interleave(Start(PAYING.store, [FIRST, SECOND]), [FIRST, SECOND], Overlapping(0, 1)).store;
            after.attempts == [attempt, attempt] && !OnePerPayment(after)
  {
    PayingIsReachable();
    hide Reachable, Interleave, Screen;
    ScreenedIff(PAYING, 0, FIRST);
    ScreenedIff(PAYING, 0, SECOND);
    TwoCapturesRace(PAYING.store, FIRST, SECOND, 0);
    var after := Interleave(Start(PAYING.store, [FIRST, SECOND]), [FIRST, SECOND], Overlapping(0, 1)).store;
    assert after.attempts[0].payment == after.attempts[1].payment;
  }

  // ----- a clear without a cart -----

  const CLEAR := CartCall(BUYER, Clear, None)

  /** A reachable clear of a cart that is not there hands out a token that is refused at
      once and ever after. */
  lemma DeadClearToken(claims: Claims, seconds: nat)
    requires CartAnswer(OpenShop(100), CLEAR) == Ask(claims)
    ensures Reachable(OpenShop(100))
    ensures !CartAnswer(Next(Next(OpenShop(100), CLEAR), Machine.Tick(seconds)), CartCall(BUYER, Clear, Some(Signed(claims)))).Done?
  {
    OpenShopIsReachable(100);
    hide Reachable, Next;
    PromptAnswerCommitsIff(OpenShop(100), BUYER, Clear, claims, seconds);
    hide Mutate, Covered;
    assert ActiveCarts(OpenShop(100).store.shop.carts, BUYER) == [];
  }

  lemma ClearIsAnswered()
    ensures CartAnswer(OpenShop(100), CLEAR).Ask?
  {
  }

  // ----- an add that names no variant -----

  const VARIANT_TOKEN := Claims(BUYER, AddAction, 0, Some(1), Some(100), Some(5), FIFTEEN_MINUTES)
  const ASK_VARIANT := CartCall(BUYER, Add(0, Some(5), 1), None)
  const ADD_PLAIN := CartCall(BUYER, Add(0, None, 1), Some(Signed(VARIANT_TOKEN)))
  const VARIANT_SHOWN := OpenShop(100).(issued := [VARIANT_TOKEN], nextId := 10)

  /** A reachable add without variant carried out on a token that was shown for one. */
  lemma VariantOfTokenNotCompared()
    ensures Reachable(VARIANT_SHOWN) && CartAnswer(VARIANT_SHOWN, ADD_PLAIN).Done?
    ensures VARIANT_TOKEN.variant != ADD_PLAIN.op.variant
  {
    OpenShopIsReachable(100);
    hide Reachable;
    BuyerOffer(100);
    assert Next(OpenShop(100), ASK_VARIANT) == VARIANT_SHOWN;
    NextIsReachable(OpenShop(100), ASK_VARIANT);
  }
}
