/** A whole sequence of notifications, duplicated, reordered or damaged as it may be,
    settles each payment by the first notification that counts. */
module Deliveries {
  import opened Prelude
  import opened Tables
  import opened Payments
  import opened Webhooks
  import opened LedgerInvariant

  // ----- a notification is screened the same before and after any others -----

  lemma {:induction false} SelectAgrees<T>(a: seq<T>, b: seq<T>, p: T -> bool)
    requires |a| == |b| && forall i | 0 <= i < |a| :: p(a[i]) == p(b[i])
    ensures Select(a, p) == Select(b, p)
  {
    if a != [] {
      SelectAgrees(a[..|a| - 1], b[..|b| - 1], p);
    }
  }

  ghost predicate SameButStatus(a: seq<Payment>, b: seq<Payment>) {
    |a| == |b| && forall p | 0 <= p < |a| :: b[p] == a[p].(status := b[p].status)
  }

  lemma ScreenAgrees(a: seq<Payment>, b: seq<Payment>, d: Delivery)
    requires SameButStatus(a, b)
    ensures Screen(a, d) == Screen(b, d)
  {
    if d.order.Some? {
      SelectAgrees(a, b, Names(d.order.value));
      var found := PaymentsOf(a, d.order.value);
      if |found| == 1 {
        assert found[0] in found;
      }
    }
  }

  lemma WebhookSameButStatus(store: Store, d: Delivery)
    ensures SameButStatus(store.payments, Webhook(store, d).0.payments)
  {
  }

  // ----- which notification counts, said without running anything -----

  /** The notification names a payment, agrees with it, and says what happened. */
  predicate Sound(store: Store, d: Delivery) {
    Screen(store.payments, d).Pass? && d.kind.Some?
  }

  /** Sound, and its identifier neither recorded before nor carried by an earlier sound one. */
  predicate Counts(store: Store, ds: seq<Delivery>, j: nat)
    requires j < |ds|
  {
    && Sound(store, ds[j])
    && (ds[j].id.Some? ==>
          && Given(ds[j].id.value) !in store.events
          && forall i | 0 <= i < j :: !(Sound(store, ds[i]) && ds[i].id == ds[j].id))
  }

  /** Counts and is a capture or failure of payment `p`. */
  predicate Decides(store: Store, ds: seq<Delivery>, j: nat, p: nat)
    requires j < |ds|
  {
    Counts(store, ds, j) && Deciding(ds[j]) && Screen(store.payments, ds[j]) == Pass(p)
  }

  /** The first of the first `n` notifications that decides payment `p`. */
  function FirstVerdict(store: Store, ds: seq<Delivery>, n: nat, p: nat): (r: Option<nat>)
    requires n <= |ds|
    ensures r.Some? ==> r.value < n && Decides(store, ds, r.value, p)
                        && forall i | 0 <= i < r.value :: !Decides(store, ds, i, p)
    ensures r.None? ==> forall i | 0 <= i < n :: !Decides(store, ds, i, p)
  {
    if n == 0 then None
    else
      var r := FirstVerdict(store, ds, n - 1, p);
      if r.Some? then r else if Decides(store, ds, n - 1, p) then Some(n - 1) else None
  }

  /** The verdict on payment `p`, if the notifications settle it. */
  function Verdict(store: Store, ds: seq<Delivery>, n: nat, p: nat): Option<nat>
    requires n <= |ds| && p < |store.payments|
  {
    if Open(store.payments[p].status) then FirstVerdict(store, ds, n, p) else None
  }

  function SettledPayment(store: Store, ds: seq<Delivery>, n: nat, p: nat): Payment
    requires n <= |ds| && p < |store.payments|
  {
    match Verdict(store, ds, n, p)
    case None => store.payments[p]
    case Some(j) => store.payments[p].(status := VerdictOf(ds[j]).0)
  }

  function SettledOrder(store: Store, ds: seq<Delivery>, n: nat, p: nat): Order
    requires n <= |ds| && p < |store.payments| && store.payments[p].order < |store.orders|
  {
    var order := store.orders[store.payments[p].order];
    match Verdict(store, ds, n, p)
    case None => order
    case Some(j) => order.(status := VerdictOf(ds[j]).1)
  }

  /** One attempt per settled payment, in the order in which they are settled. */
  function NewAttempts(store: Store, ds: seq<Delivery>, n: nat): seq<Attempt>
    requires n <= |ds|
  {
    if n == 0 then []
    else
      var before := NewAttempts(store, ds, n - 1);
      match Screen(store.payments, ds[n - 1])
      case Stop(_) => before
      case Pass(p) =>
        if Verdict(store, ds, n, p) == Some(n - 1)
        then before + [Attempt(store.payments[p].tenant, p, store.payments[p].amount, VerdictOf(ds[n - 1]).2)]
        else before
  }

  /** The identifier was recorded before or came with one of the first `n` notifications. */
  ghost predicate Recorded(store: Store, ds: seq<Delivery>, n: nat, x: Id)
    requires n <= |ds|
  {
    Given(x) in store.events || exists i :: 0 <= i < n && Sound(store, ds[i]) && ds[i].id == Some(x)
  }

  /** Every payment names an order, and no two the same. */
  ghost predicate Linked(store: Store) {
    && (forall p | 0 <= p < |store.payments| :: store.payments[p].order < |store.orders|)
    && (forall p, q | 0 <= p < q < |store.payments| :: store.payments[p].order != store.payments[q].order)
  }

  lemma BankIsLinked(store: Store, sent: seq<ProviderOrder>)
    requires BankOk(store, sent)
    ensures Linked(store)
  {
    forall p | 0 <= p < |store.payments| ensures store.payments[p].order < |store.orders| {
      assert PaymentOk(store.orders, sent, store.payments[p]);
    }
  }

  /** The tables after the first `n` notifications. */
  ghost predicate Settled(store: Store, ds: seq<Delivery>, n: nat, after: Store)
    requires n <= |ds| && Linked(store)
  {
    && after.shop == store.shop && after.quotes == store.quotes && after.confirmations == store.confirmations
    && |after.payments| == |store.payments| && |after.orders| == |store.orders|
    && (forall p | 0 <= p < |store.payments| :: after.payments[p] == SettledPayment(store, ds, n, p))
    && (forall p | 0 <= p < |store.payments| :: after.orders[store.payments[p].order] == SettledOrder(store, ds, n, p))
    && (forall o | 0 <= o < |store.orders| && !HasPayment(store.payments, o) :: after.orders[o] == store.orders[o])
    && after.attempts == store.attempts + NewAttempts(store, ds, n)
    && (forall x: Id :: Given(x) in after.events <==> Recorded(store, ds, n, x))
  }

  // ----- one more notification -----

  /** A notification that decides nothing new leaves the settled tables as they are. */
  lemma NothingDecided(store: Store, ds: seq<Delivery>, n: nat)
    requires n < |ds|
    requires forall p: nat | p < |store.payments| && Open(store.payments[p].status) && FirstVerdict(store, ds, n, p).None? ::
               !Decides(store, ds, n, p)
    ensures forall p: nat | p < |store.payments| :: Verdict(store, ds, n + 1, p) == Verdict(store, ds, n, p)
    ensures NewAttempts(store, ds, n + 1) == NewAttempts(store, ds, n)
  {
    hide Decides;
    forall p: nat | p < |store.payments|
      ensures Verdict(store, ds, n + 1, p) == Verdict(store, ds, n, p)
      ensures Verdict(store, ds, n + 1, p) != Some(n)
    {
    }
  }

  lemma RecordedNext(store: Store, ds: seq<Delivery>, n: nat, x: Id)
    requires n < |ds|
    ensures Recorded(store, ds, n + 1, x) <==> Recorded(store, ds, n, x) || (Sound(store, ds[n]) && ds[n].id == Some(x))
  {
  }

  lemma CountsIff(store: Store, ds: seq<Delivery>, n: nat)
    requires n < |ds|
    ensures Counts(store, ds, n) <==>
            Sound(store, ds[n]) && (ds[n].id.Some? ==> !Recorded(store, ds, n, ds[n].id.value))
  {
  }

  ghost predicate EventsAre(store: Store, ds: seq<Delivery>, n: nat, events: set<EventId>)
    requires n <= |ds|
  {
    forall x: Id :: Given(x) in events <==> Recorded(store, ds, n, x)
  }

  lemma SameVerdictsSettle(store: Store, ds: seq<Delivery>, n: nat, after: Store, later: Store)
    requires n < |ds| && Linked(store)
    requires Settled(store, ds, n, after)
    requires forall p: nat | p < |store.payments| :: Verdict(store, ds, n + 1, p) == Verdict(store, ds, n, p)
    requires NewAttempts(store, ds, n + 1) == NewAttempts(store, ds, n)
    requires later == after.(events := later.events, nextEvent := later.nextEvent)
    requires EventsAre(store, ds, n + 1, later.events)
    ensures Settled(store, ds, n + 1, later)
  {
    hide Recorded, Verdict, NewAttempts;
    forall p | 0 <= p < |store.payments|
      ensures SettledPayment(store, ds, n + 1, p) == SettledPayment(store, ds, n, p)
      ensures SettledOrder(store, ds, n + 1, p) == SettledOrder(store, ds, n, p)
    {
    }
    hide SettledPayment, SettledOrder;
  }

  lemma SettledSameButStatus(store: Store, ds: seq<Delivery>, n: nat, after: Store)
    requires n <= |ds| && Linked(store)
    requires Settled(store, ds, n, after)
    ensures SameButStatus(store.payments, after.payments)
  {
    forall p | 0 <= p < |store.payments|
      ensures after.payments[p] == store.payments[p].(status := after.payments[p].status)
    {
      assert after.payments[p] == SettledPayment(store, ds, n, p);
    }
  }

  lemma WebhookEvents(store: Store, d: Delivery)
    requires Linked(store)
    ensures Webhook(store, d).0.events
            == if Sound(store, d) then store.events + {EventIdOf(store, d)} else store.events
  {
  }

  /** The n-th notification as the handler meets it. */
  lemma Meets(store: Store, ds: seq<Delivery>, n: nat, after: Store)
    requires Linked(store) && EventsOk(after) && n < |ds|
    requires Settled(store, ds, n, after)
    ensures Linked(after)
    ensures Screen(after.payments, ds[n]) == Screen(store.payments, ds[n])
    ensures Sound(store, ds[n]) ==> (EventIdOf(after, ds[n]) !in after.events <==> Counts(store, ds, n))
    ensures EventsAre(store, ds, n + 1, Webhook(after, ds[n]).0.events)
  {
    SettledSameButStatus(store, ds, n, after);
    ScreenAgrees(store.payments, after.payments, ds[n]);
    assert Generated(after.nextEvent) !in after.events;
    MeetsEvents(store, ds, n, after);
    hide Settled, Screen, Webhook, Counts, Sound, EventsAre;
  }

  lemma MeetsEvents(store: Store, ds: seq<Delivery>, n: nat, after: Store)
    requires n < |ds| && Linked(after)
    requires EventsAre(store, ds, n, after.events) && Generated(after.nextEvent) !in after.events
    requires Screen(after.payments, ds[n]) == Screen(store.payments, ds[n])
    ensures Sound(store, ds[n]) ==> (EventIdOf(after, ds[n]) !in after.events <==> Counts(store, ds, n))
    ensures EventsAre(store, ds, n + 1, Webhook(after, ds[n]).0.events)
  {
    WebhookEvents(after, ds[n]);
    CountsIff(store, ds, n);
    forall x: Id
      ensures Recorded(store, ds, n + 1, x) <==> Recorded(store, ds, n, x) || (Sound(store, ds[n]) && ds[n].id == Some(x))
    {
      RecordedNext(store, ds, n, x);
    }
    hide Recorded, Counts, Webhook, Screen;
  }

  /** The n-th notification decides nothing: the handler only logs it, or not even that. */
  lemma Unmoved(store: Store, ds: seq<Delivery>, n: nat, after: Store)
    requires Linked(store) && EventsOk(after) && n < |ds|
    requires Settled(store, ds, n, after)
    requires forall p: nat | p < |store.payments| && Decides(store, ds, n, p) :: !Open(after.payments[p].status)
    ensures Settled(store, ds, n + 1, Webhook(after, ds[n]).0)
  {
    Meets(store, ds, n, after);
    var later := Webhook(after, ds[n]).0;
    assert later == after.(events := later.events, nextEvent := later.nextEvent);
    forall p: nat | p < |store.payments| && Open(store.payments[p].status) && FirstVerdict(store, ds, n, p).None?
      ensures !Decides(store, ds, n, p)
    {
      assert after.payments[p] == SettledPayment(store, ds, n, p);
    }
    hide Webhook, Screen, Decides, Counts;
    NothingDecided(store, ds, n);
    SameVerdictsSettle(store, ds, n, after, later);
  }

  lemma DecisiveWebhook(store: Store, d: Delivery, p: nat)
    requires Screen(store.payments, d) == Pass(p) && Deciding(d) && Open(store.payments[p].status)
    requires EventIdOf(store, d) !in store.events && store.payments[p].order < |store.orders|
    ensures var later, payment, o := Webhook(store, d).0, store.payments[p], store.payments[p].order;
            && later.shop == store.shop && later.quotes == store.quotes && later.confirmations == store.confirmations
            && later.payments == store.payments[p := payment.(status := VerdictOf(d).0)]
            && later.orders == store.orders[o := store.orders[o].(status := VerdictOf(d).1)]
            && later.attempts == store.attempts + [Attempt(payment.tenant, p, payment.amount, VerdictOf(d).2)]
  {
  }

  lemma VerdictOfMoved(store: Store, ds: seq<Delivery>, n: nat, p: nat)
    requires n < |ds| && p < |store.payments| && Decides(store, ds, n, p)
    requires Open(SettledPayment(store, ds, n, p).status)
    ensures Open(store.payments[p].status)
    ensures Verdict(store, ds, n, p) == None && Verdict(store, ds, n + 1, p) == Some(n)
    ensures NewAttempts(store, ds, n + 1) == NewAttempts(store, ds, n)
              + [Attempt(store.payments[p].tenant, p, store.payments[p].amount, VerdictOf(ds[n]).2)]
  {
  }

  /** The n-th notification decides payment `p`, and no other. */
  lemma Moved(store: Store, ds: seq<Delivery>, n: nat, after: Store, p: nat)
    requires Linked(store) && EventsOk(after) && n < |ds|
    requires Settled(store, ds, n, after)
    requires p < |store.payments| && Decides(store, ds, n, p) && Open(after.payments[p].status)
    ensures Settled(store, ds, n + 1, Webhook(after, ds[n]).0)
  {
    Meets(store, ds, n, after);
    assert after.payments[p] == SettledPayment(store, ds, n, p);
    VerdictOfMoved(store, ds, n, p);
    OthersKeepVerdict(store, ds, n, p);
    DecisiveWebhook(after, ds[n], p);
    OneOrderMoves(store, p);
    hide Decides, Counts, FirstVerdict, Verdict, Recorded, Webhook, Screen, NewAttempts, Linked, HasPayment, VerdictOf;
  }

  lemma OneOrderMoves(store: Store, p: nat)
    requires Linked(store) && p < |store.payments|
    ensures HasPayment(store.payments, store.payments[p].order)
    ensures forall q: nat | q < |store.payments| && q != p :: store.payments[q].order != store.payments[p].order
  {
    forall q: nat | q < |store.payments| && q != p
      ensures store.payments[q].order != store.payments[p].order
    {
      assert if q < p then store.payments[q].order != store.payments[p].order
             else store.payments[p].order != store.payments[q].order;
    }
  }

  lemma OthersKeepVerdict(store: Store, ds: seq<Delivery>, n: nat, p: nat)
    requires n < |ds| && p < |store.payments| && Screen(store.payments, ds[n]) == Pass(p)
    ensures forall q: nat | q < |store.payments| && q != p :: Verdict(store, ds, n + 1, q) == Verdict(store, ds, n, q)
  {
  }

  // ----- the whole sequence -----

  lemma SettledAtFirst(store: Store, ds: seq<Delivery>)
    requires Linked(store)
    ensures Settled(store, ds, 0, store)
  {
  }

  lemma OneMoreSettles(store: Store, ds: seq<Delivery>, n: nat, after: Store)
    requires Linked(store) && EventsOk(after) && n < |ds|
    requires Settled(store, ds, n, after)
    ensures Settled(store, ds, n + 1, Webhook(after, ds[n]).0)
  {
    if p: nat :| p < |store.payments| && Decides(store, ds, n, p) && Open(after.payments[p].status) {
      Moved(store, ds, n, after, p);
    } else {
      hide Webhook, Decides;
      Unmoved(store, ds, n, after);
    }
  }

  /** Whatever arrives, each payment, its order and its attempt end as the first capture
      or failure that counts for it says, and nothing else in these tables moves. */
  lemma {:induction false} FirstVerdictWins(store: Store, sent: seq<ProviderOrder>, ds: seq<Delivery>, n: nat)
    requires BankOk(store, sent) && n <= |ds|
    ensures Linked(store) && BankOk(Deliver(store, ds[..n]), sent)
    ensures Settled(store, ds, n, Deliver(store, ds[..n]))
  {
    BankIsLinked(store, sent);
    hide Webhook, PaymentsOk, AttemptsOk, LedgerOk, Settled, Linked;
    if n == 0 {
      SettledAtFirst(store, ds);
    } else {
      FirstVerdictWins(store, sent, ds, n - 1);
      var after := Deliver(store, ds[..n - 1]);
      assert ds[..n][..n - 1] == ds[..n - 1];
      assert Deliver(store, ds[..n]) == Webhook(after, ds[n - 1]).0;
      WebhookKeepsBankOk(after, sent, ds[n - 1]);
      OneMoreSettles(store, ds, n - 1, after);
    }
  }

  // ----- sending it all again -----

  /** Delivering `d` now would move no payment, order or attempt. */
  ghost predicate Inert(store: Store, d: Delivery) {
    var after := Webhook(store, d).0;
    after.payments == store.payments && after.orders == store.orders && after.attempts == store.attempts
  }

  /** Why a notification is inert: it is not sound, it has been recorded, it says nothing
      decisive, or its payment is settled. */
  predicate Spent(store: Store, d: Delivery) {
    || !Sound(store, d)
    || (d.id.Some? && Given(d.id.value) in store.events)
    || !Deciding(d)
    || !Open(store.payments[Screen(store.payments, d).payment].status)
  }

  lemma SpentIsInert(store: Store, d: Delivery)
    requires Spent(store, d)
    ensures Inert(store, d)
  {
  }

  lemma DeliveredIsSpent(store: Store, sent: seq<ProviderOrder>, d: Delivery)
    requires BankOk(store, sent)
    ensures Spent(Webhook(store, d).0, d)
  {
    WebhookSameButStatus(store, d);
    ScreenAgrees(store.payments, Webhook(store, d).0.payments, d);
    BankIsLinked(store, sent);
    hide BankOk, SameButStatus;
    var screening := Screen(store.payments, d);
    hide Screen;
    if screening.Pass? {
      assert store.payments[screening.payment].order < |store.orders|;
    }
  }

  lemma SpentStays(store: Store, d: Delivery, e: Delivery)
    requires Spent(store, d)
    ensures Spent(Webhook(store, e).0, d)
  {
    WebhookSameButStatus(store, e);
    ScreenAgrees(store.payments, Webhook(store, e).0.payments, d);
  }

  lemma {:induction false} AllSpent(store: Store, sent: seq<ProviderOrder>, ds: seq<Delivery>, d: Delivery)
    requires BankOk(store, sent) && d in ds
    ensures Spent(Deliver(store, ds), d)
  {
    hide BankOk, Spent, Webhook;
    var front := ds[..|ds| - 1];
    if d in front {
      AllSpent(store, sent, front, d);
      SpentStays(Deliver(store, front), d, ds[|ds| - 1]);
    } else {
      DeliverKeepsBankOk(store, sent, front);
      DeliveredIsSpent(Deliver(store, front), sent, d);
    }
  }

  lemma {:induction false} DeliverKeepsBankOk(store: Store, sent: seq<ProviderOrder>, ds: seq<Delivery>)
    requires BankOk(store, sent)
    ensures BankOk(Deliver(store, ds), sent)
  {
    hide BankOk, Webhook;
    if ds != [] {
      DeliverKeepsBankOk(store, sent, ds[..|ds| - 1]);
      WebhookKeepsBankOk(Deliver(store, ds[..|ds| - 1]), sent, ds[|ds| - 1]);
    }
  }

  lemma {:induction false} SpentDeliveries(store: Store, ds: seq<Delivery>)
    requires forall d | d in ds :: Spent(store, d)
    ensures var after := Deliver(store, ds);
            after.payments == store.payments && after.orders == store.orders && after.attempts == store.attempts
    ensures forall d | Spent(store, d) :: Spent(Deliver(store, ds), d)
  {
    hide Spent, Webhook;
    if ds != [] {
      var front, e := ds[..|ds| - 1], ds[|ds| - 1];
      SpentDeliveries(store, front);
      SpentIsInert(Deliver(store, front), e);
      forall d | Spent(store, d) ensures Spent(Deliver(store, ds), d) {
        SpentStays(Deliver(store, front), d, e);
      }
    }
  }

  /** Delivering again anything already delivered, in any order and any number of times,
      with or without identifiers, moves no payment, order or attempt. */
  lemma RedeliveryIsHarmless(store: Store, sent: seq<ProviderOrder>, ds: seq<Delivery>, again: seq<Delivery>)
    requires BankOk(store, sent) && forall d | d in again :: d in ds
    ensures var once, twice := Deliver(store, ds), Deliver(Deliver(store, ds), again);
            twice.payments == once.payments && twice.orders == once.orders && twice.attempts == once.attempts
  {
    hide BankOk, Spent, Webhook, Deliver;
    forall d | d in again ensures Spent(Deliver(store, ds), d) {
      AllSpent(store, sent, ds, d);
    }
    SpentDeliveries(Deliver(store, ds), again);
  }

  lemma {:induction false} DeliverSplit(store: Store, first: seq<Delivery>, rest: seq<Delivery>)
    ensures Deliver(store, first + rest) == Deliver(Deliver(store, first), rest)
  {
    hide Webhook;
    if rest == [] {
      assert first + rest == first;
    } else {
      var n := |rest| - 1;
      assert (first + rest)[..|first + rest| - 1] == first + rest[..n];
      DeliverSplit(store, first, rest[..n]);
    }
  }
}
