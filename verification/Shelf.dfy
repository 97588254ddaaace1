/** What the catalogue's rows say about selling something, and that the price and stock
    lookup says the same. */
module Shelf {
  import opened Prelude
  import opened Tables
  import opened Carts

  // ----- the rows -----

  predicate Listed(c: Catalog, tenant: Id, product: Id) {
    product in c.products && c.products[product].tenant == tenant
  }

  predicate Sold(c: Catalog, tenant: Id, product: Id) {
    Listed(c, tenant, product) && c.products[product].active
  }

  predicate VariantListed(c: Catalog, tenant: Id, product: Id, v: Id) {
    v in c.variants && c.variants[v].tenant == tenant && c.variants[v].product == product
  }

  /** The product is the tenant's and active, and so is the variant of it, if one is named. */
  predicate Sellable(c: Catalog, tenant: Id, product: Id, variant: Option<Id>) {
    && Sold(c, tenant, product)
    && (variant.Some? ==> VariantListed(c, tenant, product, variant.value) && c.variants[variant.value].active)
  }

  /** Why it cannot be sold. */
  predicate Unsellable(c: Catalog, tenant: Id, product: Id, variant: Option<Id>, e: Error) {
    match e
    case ProductNotFound => !Listed(c, tenant, product)
    case ProductInactive => Listed(c, tenant, product) && !c.products[product].active
    case VariantNotFound => Sold(c, tenant, product) && variant.Some? && !VariantListed(c, tenant, product, variant.value)
    case VariantInactive =>
      Sold(c, tenant, product) && variant.Some? && VariantListed(c, tenant, product, variant.value)
      && !c.variants[variant.value].active
    case _ => false
  }

  /** A variant costs what its own row says, a plain product what the product's does. */
  predicate Costs(c: Catalog, product: Id, variant: Option<Id>, price: nat) {
    if variant.Some? then variant.value in c.variants && c.variants[variant.value].price == price
    else product in c.products && c.products[product].price == price
  }

  /** `n` pieces can be had: none are needed, or a stock row has them beyond what is reserved. */
  predicate Holds(c: Catalog, tenant: Id, product: Id, variant: Option<Id>, n: int) {
    var key := StockKey(tenant, product, variant);
    n <= 0 || (key in c.inventory && c.inventory[key].reserved + n <= c.inventory[key].available)
  }

  /** The line can be sold, at the price it carries, in the quantity it asks for. */
  predicate AtOffer(c: Catalog, tenant: Id, l: Line) {
    && Sellable(c, tenant, l.product, l.variant)
    && Costs(c, l.product, l.variant, l.price)
    && Holds(c, tenant, l.product, l.variant, l.quantity)
  }

  // ----- the lookup -----

  lemma StockIff(c: Catalog, tenant: Id, product: Id, variant: Option<Id>, n: int)
    ensures Holds(c, tenant, product, variant, n) <==> n <= EffectiveStock(c, StockKey(tenant, product, variant))
  {
  }

  /** The lookup succeeds exactly for what can be sold, with the row's price and as many
      pieces as can be had, and otherwise raises for the reason that holds. */
  lemma OfferIff(c: Catalog, tenant: Id, product: Id, variant: Option<Id>)
    ensures var r := CurrentOffer(c, tenant, product, variant);
            && (r.Ok? <==> Sellable(c, tenant, product, variant))
            && (forall e :: r == Err(e) <==> Unsellable(c, tenant, product, variant, e))
            && (r.Ok? ==> forall price: nat :: Costs(c, product, variant, price) <==> r.value.price == price)
            && (r.Ok? ==> forall n: int :: Holds(c, tenant, product, variant, n) <==> n <= r.value.stock)
  {
  }

  lemma AtOfferIff(c: Catalog, tenant: Id, l: Line)
    ensures AtOffer(c, tenant, l)
            <==> var r := CurrentOffer(c, tenant, l.product, l.variant);
                 r.Ok? && l.price == r.value.price && l.quantity <= r.value.stock
  {
    OfferIff(c, tenant, l.product, l.variant);
    hide CurrentOffer, Sellable, Costs, Holds;
  }

  // ----- what validation reports -----

  /** Validating a line reports that it cannot be sold and why, or the old and the current
      price if they differ and then how many pieces there are if that is too few. */
  lemma LineFindingsAre(c: Catalog, tenant: Id, l: Line)
    ensures forall e | Unsellable(c, tenant, l.product, l.variant, e) ::
              LineFindings(c, tenant, l) == [Unavailable(l.product, l.variant, e)]
    ensures Sellable(c, tenant, l.product, l.variant) ==>
              forall price: nat, n: nat | Costs(c, l.product, l.variant, price) && Holds(c, tenant, l.product, l.variant, n)
                                          && !Holds(c, tenant, l.product, l.variant, n + 1) ::
                LineFindings(c, tenant, l)
                == (if price == l.price then [] else [PriceMoved(l.product, l.variant, l.price, price)])
                   + (if Holds(c, tenant, l.product, l.variant, l.quantity) then [] else [StockShort(l.product, l.variant, n)])
  {
    OfferIff(c, tenant, l.product, l.variant);
    hide CurrentOffer, Sellable, Unsellable, Costs, Holds;
    if Sellable(c, tenant, l.product, l.variant) {
      var offer := CurrentOffer(c, tenant, l.product, l.variant).value;
      assert forall n: nat :: Holds(c, tenant, l.product, l.variant, n) && !Holds(c, tenant, l.product, l.variant, n + 1) ==> n == offer.stock;
    }
  }
}
