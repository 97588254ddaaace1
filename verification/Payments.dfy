/** The payment of an order and the provider's side of it. */
module Payments {
  import opened Prelude
  import opened Tables

  datatype Provider = Razorpay | FakeProvider

  /** An order created at the provider; its identifier is its position, so never reused. */
  datatype ProviderOrder = ProviderOrder(provider: Provider, subunits: int, currency: string)

  /** The first amount that a ten-digit column with four decimal places cannot hold. */
  const NUMERIC_10_4_LIMIT := 10_000_000_000

  predicate FitsNumeric10_4(amount: int) {
    -NUMERIC_10_4_LIMIT < amount < NUMERIC_10_4_LIMIT
  }

  /** Ten-thousandths to whole subunits, halves to even. */
  function RoundedSubunits(amount: int): int {
    var q, r := amount / 100, amount % 100;
    if r < 50 || (r == 50 && q % 2 == 0) then q else q + 1
  }

  /** Ten-thousandths to whole subunits, towards zero. */
  function TruncatedSubunits(amount: int): int {
    if amount >= 0 then amount / 100 else -((-amount) / 100)
  }

  function SubunitsSent(provider: Provider, amount: int): int {
    match provider
    case Razorpay => RoundedSubunits(amount)
    case FakeProvider => TruncatedSubunits(amount)
  }

  function PaymentsAwaiting(payments: seq<Payment>, order: nat): seq<nat> {
    Select(payments, (p: Payment) => p.order == order && (p.status == PayCreated || p.status == PayPending))
  }

  /** What a payment request did at the provider, and to the rows. */
  datatype PayOutcome = PayOutcome(sent: seq<ProviderOrder>, result: Result<Store, Error>)

  /** The provider is called before the row is written, so a row that does not fit
      leaves an order at the provider that no payment names. */
  function CreatePayment(store: Store, sent: seq<ProviderOrder>, provider: Provider, tenant: Id, o: nat): PayOutcome {
    if o >= |store.orders| || store.orders[o].tenant != tenant then PayOutcome(sent, Err(OrderNotFound))
    else if store.orders[o].status != OrderCreated then PayOutcome(sent, Err(OrderNotCreated))
    else
      var existing := PaymentsAwaiting(store.payments, o);
      if |existing| > 1 then PayOutcome(sent, Err(MultipleRows))
      else if |existing| == 1 then PayOutcome(sent, Ok(store))
      else
        var order := store.orders[o];
        var sent' := sent + [ProviderOrder(provider, SubunitsSent(provider, order.total), order.currency)];
        if !FitsNumeric10_4(order.total) then PayOutcome(sent', Err(NumericOverflow))
        else
          PayOutcome(sent', Ok(store.(
            payments := store.payments + [Payment(order.tenant, o, |sent|, order.total, order.currency, PayCreated)],
            orders := store.orders[o := order.(status := OrderPending)])))
  }
}
