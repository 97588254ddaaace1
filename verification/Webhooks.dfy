/** The provider's notifications. */
module Webhooks {
  import opened Prelude
  import opened Tables
  import opened Payments

  datatype EventKind = Captured | Failed | OtherKind

  /** The fields of a notification that the handler reads; each may be missing. */
  datatype Delivery = Delivery(
    id: Option<Id>, kind: Option<EventKind>, order: Option<Id>, amount: Option<int>, currency: Option<string>)

  datatype Reply = NoOrderId | UnknownOrder | AlreadyProcessed | Accepted | Rejected(error: Error)

  predicate Open(status: PaymentStatus) {
    status == PayCreated || status == PayPending || status == PayAuthorized
  }

  predicate Deciding(d: Delivery) {
    d.kind == Some(Captured) || d.kind == Some(Failed)
  }

  function VerdictOf(d: Delivery): (PaymentStatus, OrderStatus, AttemptStatus) {
    if d.kind == Some(Captured) then (PayPaid, OrderPaid, AttemptSuccess) else (PayFailed, OrderFailed, AttemptFailed)
  }

  function Names(providerOrder: Id): Payment -> bool {
    (p: Payment) => p.providerOrder == providerOrder
  }

  function PaymentsOf(payments: seq<Payment>, providerOrder: Id): seq<nat> {
    Select(payments, Names(providerOrder))
  }

  datatype Screening = Stop(reply: Reply) | Pass(payment: nat)

  /** Finds the payment and compares what was paid with what was asked for. */
  function Screen(payments: seq<Payment>, d: Delivery): (r: Screening)
    ensures r.Pass? ==> r.payment < |payments|
  {
    if d.order.None? then Stop(NoOrderId)
    else
      var found := PaymentsOf(payments, d.order.value);
      if |found| > 1 then Stop(Rejected(MultipleRows))
      else if |found| == 0 then Stop(UnknownOrder)
      else
        assert found[0] in found;
        var p := payments[found[0]];
        if d.amount.Some? && d.amount.value != RoundedSubunits(p.amount) then Stop(Rejected(AmountMismatch))
        else if d.currency.Some? && d.currency.value != p.currency then Stop(Rejected(CurrencyMismatch))
        else Pass(found[0])
  }

  function EventIdOf(store: Store, d: Delivery): EventId {
    if d.id.Some? then Given(d.id.value) else Generated(store.nextEvent)
  }

  function LogEvent(store: Store, d: Delivery): Store {
    store.(events := store.events + {EventIdOf(store, d)},
           nextEvent := store.nextEvent + if d.id.Some? then 0 else 1)
  }

  /** The effect of a notification that passed screening and is new, when the handler
      last saw the payment in status `seen`. */
  function Record(store: Store, d: Delivery, p: nat, seen: PaymentStatus): (Store, Reply)
    requires p < |store.payments|
  {
    var payment := store.payments[p];
    if d.kind.None? then (store, Rejected(NullViolation))
    else if !Deciding(d) || !Open(seen) then (LogEvent(store, d), Accepted)
    else if payment.order >= |store.orders| then (store, Rejected(MissingRow))
    else
      var (paymentStatus, orderStatus, attemptStatus) := VerdictOf(d);
      (LogEvent(store, d).(
         payments := store.payments[p := payment.(status := paymentStatus)],
         orders := store.orders[payment.order := store.orders[payment.order].(status := orderStatus)],
         attempts := store.attempts + [Attempt(payment.tenant, p, payment.amount, attemptStatus)]),
       Accepted)
  }

  function Webhook(store: Store, d: Delivery): (Store, Reply) {
    match Screen(store.payments, d)
    case Stop(reply) => (store, reply)
    case Pass(p) =>
      if EventIdOf(store, d) in store.events then (store, AlreadyProcessed)
      else Record(store, d, p, store.payments[p].status)
  }

  function Deliver(store: Store, ds: seq<Delivery>): Store {
    if ds == [] then store else Webhook(Deliver(store, ds[..|ds| - 1]), ds[|ds| - 1]).0
  }
}
