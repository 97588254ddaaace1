/** Payments over whole runs: with any requests between the notifications, each payment is
    settled by the first notification that counts for it. */
module Verdicts {
  import opened Prelude
  import opened Tables
  import opened Carts
  import opened Checkout
  import opened Payments
  import opened Webhooks
  import opened Machine
  import opened CartInvariant
  import opened DeskInvariant
  import opened LedgerInvariant
  import opened Deliveries
  import opened Safety

  // ----- which notification of a run counts, said from the run alone -----

  /** Step `k` is a notification that, when it arrives, names a payment and agrees with it. */
  ghost predicate SoundAt(s: Sys, steps: seq<Step>, k: nat) {
    k < |steps| && steps[k].WebhookCall? && Sound(Before(s, steps, k).store, steps[k].delivery)
  }

  /** The identifier was recorded at first or came with a sound one of the first `n` steps. */
  ghost predicate Heard(s: Sys, steps: seq<Step>, n: nat, x: Id) {
    Given(x) in s.store.events || exists k: nat :: k < n && SoundAt(s, steps, k) && steps[k].delivery.id == Some(x)
  }

  /** Step `k` is a sound capture or failure of payment `p`, with no identifier or a new one. */
  ghost predicate DecidesAt(s: Sys, steps: seq<Step>, k: nat, p: nat) {
    && SoundAt(s, steps, k)
    && var d := steps[k].delivery;
       && Deciding(d) && Screen(Before(s, steps, k).store.payments, d) == Pass(p)
       && (d.id.Some? ==> !Heard(s, steps, k, d.id.value))
  }

  /** The first of the first `n` steps that decides payment `p`. */
  ghost function FirstDecision(s: Sys, steps: seq<Step>, n: nat, p: nat): (r: Option<nat>)
    requires n <= |steps|
    ensures r.Some? ==> r.value < n && DecidesAt(s, steps, r.value, p)
                        && forall k: nat | k < r.value :: !DecidesAt(s, steps, k, p)
    ensures r.None? ==> forall k: nat | k < n :: !DecidesAt(s, steps, k, p)
  {
    if n == 0 then None
    else
      var r := FirstDecision(s, steps, n - 1, p);
      if r.Some? then r else if DecidesAt(s, steps, n - 1, p) then Some(n - 1) else None
  }

  /** The status of a payment when the run first has it. */
  function FirstStatus(s: Sys, p: nat): PaymentStatus {
    if p < |s.store.payments| then s.store.payments[p].status else PayCreated
  }

  ghost function StatusAfter(s: Sys, steps: seq<Step>, n: nat, p: nat): PaymentStatus
    requires n <= |steps|
  {
    var r := FirstDecision(s, steps, n, p);
    if Open(FirstStatus(s, p)) && r.Some? then VerdictOf(steps[r.value].delivery).0 else FirstStatus(s, p)
  }

  // ----- one step -----

  /** The notification decides payment `p` in this store. */
  predicate DecidesNow(store: Store, d: Delivery, p: nat) {
    Sound(store, d) && Deciding(d) && Screen(store.payments, d) == Pass(p) && EventIdOf(store, d) !in store.events
  }

  lemma NotificationMoves(store: Store, d: Delivery, p: nat)
    requires Linked(store) && p < |store.payments|
    ensures var later := Webhook(store, d).0;
            && |later.payments| == |store.payments|
            && later.payments[p].status == if DecidesNow(store, d, p) && Open(store.payments[p].status) then VerdictOf(d).0
                                           else store.payments[p].status
  {
  }

  /** Other requests record no event; they leave payments alone and may create new ones. */
  lemma OtherRequests(s: Sys, step: Step)
    requires !step.WebhookCall?
    ensures var later := Next(s, step).store;
            && later.events == s.store.events && |s.store.payments| <= |later.payments|
            && (forall p | 0 <= p < |s.store.payments| :: later.payments[p] == s.store.payments[p])
            && (forall p | |s.store.payments| <= p < |later.payments| :: later.payments[p].status == PayCreated)
  {
    hide Mutate, OpenCart, Findings, PaymentsAwaiting, SubunitsSent;
  }

  lemma OneStepOn(s: Sys, steps: seq<Step>, n: nat)
    requires n < |steps|
    ensures Before(s, steps, n + 1) == Next(Before(s, steps, n), steps[n])
  {
    hide Next;
    assert steps[..n + 1][..n] == steps[..n];
  }

  // ----- the whole run -----

  /** The events recorded after `n` steps are those heard. */
  ghost predicate EventsTell(s: Sys, steps: seq<Step>, n: nat, events: set<EventId>) {
    forall x: Id :: Given(x) in events <==> Heard(s, steps, n, x)
  }

  /** The payments after `n` steps are what the decisions of these steps say. */
  ghost predicate PaymentsTell(s: Sys, steps: seq<Step>, n: nat, payments: seq<Payment>)
    requires n <= |steps|
  {
    && |s.store.payments| <= |payments|
    && (forall p: nat | p < |payments| :: payments[p].status == StatusAfter(s, steps, n, p))
    && (forall p: nat | p >= |payments| :: FirstDecision(s, steps, n, p) == None)
  }

  lemma EventsTellNext(s: Sys, steps: seq<Step>, n: nat, events: set<EventId>, later: set<EventId>)
    requires n < |steps| && EventsTell(s, steps, n, events)
    requires forall x: Id :: Given(x) in later <==> Given(x) in events || (SoundAt(s, steps, n) && steps[n].delivery.id == Some(x))
    ensures EventsTell(s, steps, n + 1, later)
  {
    forall x: Id ensures Given(x) in later <==> Heard(s, steps, n + 1, x) {
      HeardNext(s, steps, n, x);
    }
    hide Heard, SoundAt;
  }

  lemma HeardNext(s: Sys, steps: seq<Step>, n: nat, x: Id)
    requires n < |steps|
    ensures Heard(s, steps, n + 1, x) <==> Heard(s, steps, n, x) || (SoundAt(s, steps, n) && steps[n].delivery.id == Some(x))
  {
    hide SoundAt;
  }

  /** What step `n` does to one payment. */
  ghost predicate MovesAsDecided(s: Sys, steps: seq<Step>, n: nat, p: nat, before: PaymentStatus, after: PaymentStatus)
    requires n < |steps|
  {
    after == if DecidesAt(s, steps, n, p) && Open(before) then VerdictOf(steps[n].delivery).0 else before
  }

  lemma PaymentsTellNext(s: Sys, steps: seq<Step>, n: nat, payments: seq<Payment>, later: seq<Payment>)
    requires n < |steps| && PaymentsTell(s, steps, n, payments) && |payments| <= |later|
    requires forall p: nat | p < |payments| :: MovesAsDecided(s, steps, n, p, payments[p].status, later[p].status)
    requires forall p: nat | p >= |payments| :: !DecidesAt(s, steps, n, p)
    requires forall p: nat | |payments| <= p < |later| :: later[p].status == PayCreated
    ensures PaymentsTell(s, steps, n + 1, later)
  {
    hide DecidesAt;
    forall p: nat | p < |payments| ensures later[p].status == StatusAfter(s, steps, n + 1, p) {
      assert MovesAsDecided(s, steps, n, p, payments[p].status, later[p].status);
      assert payments[p].status == StatusAfter(s, steps, n, p);
    }
    var next := n + 1;
    forall p: nat | p >= |payments| ensures FirstDecision(s, steps, next, p) == None {
      assert FirstDecision(s, steps, n, p) == None;
    }
  }

  lemma NotificationTells(s: Sys, steps: seq<Step>, n: nat)
    requires n < |steps| && steps[n].WebhookCall?
    requires var store := Before(s, steps, n).store;
             EventsTell(s, steps, n, store.events) && PaymentsTell(s, steps, n, store.payments) && Linked(store) && EventsOk(store)
    ensures var later := Webhook(Before(s, steps, n).store, steps[n].delivery).0;
            EventsTell(s, steps, n + 1, later.events) && PaymentsTell(s, steps, n + 1, later.payments)
  {
    hide Heard, PaymentsTell, EventsTell, Run;
    var store, d := Before(s, steps, n).store, steps[n].delivery;
    var later := Webhook(store, d).0;
    WebhookEvents(store, d);
    assert Generated(store.nextEvent) !in store.events;
    EventsTellNext(s, steps, n, store.events, later.events);
    forall p: nat
      ensures p >= |store.payments| ==> !DecidesAt(s, steps, n, p)
      ensures p < |store.payments| ==>
                |later.payments| == |store.payments|
                && MovesAsDecided(s, steps, n, p, store.payments[p].status, later.payments[p].status)
    {
      DecidesNowIffAt(s, steps, n, p);
      if p < |store.payments| {
        NotificationMoves(store, d, p);
      }
      hide Webhook, DecidesAt;
    }
    WebhookSameButStatus(store, d);
    hide Webhook, DecidesAt, MovesAsDecided, Linked, EventsOk;
    PaymentsTellNext(s, steps, n, store.payments, later.payments);
  }

  lemma DecidesNowIffAt(s: Sys, steps: seq<Step>, n: nat, p: nat)
    requires n < |steps| && steps[n].WebhookCall?
    requires EventsTell(s, steps, n, Before(s, steps, n).store.events) && EventsOk(Before(s, steps, n).store)
    ensures DecidesNow(Before(s, steps, n).store, steps[n].delivery, p) <==> DecidesAt(s, steps, n, p)
    ensures DecidesAt(s, steps, n, p) ==> p < |Before(s, steps, n).store.payments|
  {
    hide Screen, Heard, Run;
    var store := Before(s, steps, n).store;
    assert Generated(store.nextEvent) !in store.events;
  }

  lemma OtherRequestTells(s: Sys, steps: seq<Step>, n: nat)
    requires n < |steps| && !steps[n].WebhookCall?
    requires var store := Before(s, steps, n).store;
             EventsTell(s, steps, n, store.events) && PaymentsTell(s, steps, n, store.payments)
    ensures var later := Next(Before(s, steps, n), steps[n]).store;
            EventsTell(s, steps, n + 1, later.events) && PaymentsTell(s, steps, n + 1, later.payments)
  {
    hide Next, Run, Heard, EventsTell, PaymentsTell;
    var before, later := Before(s, steps, n), Next(Before(s, steps, n), steps[n]);
    OtherRequests(before, steps[n]);
    EventsTellNext(s, steps, n, before.store.events, later.store.events);
    PaymentsTellNext(s, steps, n, before.store.payments, later.store.payments);
  }

  ghost predicate Tells(s: Sys, steps: seq<Step>, n: nat)
    requires n <= |steps|
  {
    EventsTell(s, steps, n, Before(s, steps, n).store.events) && PaymentsTell(s, steps, n, Before(s, steps, n).store.payments)
  }

  lemma InvLinks(s: Sys)
    requires Inv(s)
    ensures Linked(s.store) && EventsOk(s.store)
  {
    hide CartsOk, DeskOk, Linked;
    BankIsLinked(s.store, s.sent);
  }

  lemma NotificationStep(s: Sys, d: Delivery)
    ensures Next(s, WebhookCall(d)).store == Webhook(s.store, d).0
  {
    hide Webhook, Mutate, OpenCart, CreateQuote, ConfirmQuote, CreatePayment;
  }

  lemma NextTells(s: Sys, steps: seq<Step>, n: nat)
    requires n < |steps| && Tells(s, steps, n) && Inv(Before(s, steps, n))
    ensures Tells(s, steps, n + 1)
  {
    OneStepOn(s, steps, n);
    var before := Before(s, steps, n);
    InvLinks(before);
    hide EventsTell, PaymentsTell, Before, EventsOk, Linked, Inv, Next;
    if steps[n].WebhookCall? {
      NotificationStep(before, steps[n].delivery);
      NotificationTells(s, steps, n);
    } else {
      OtherRequestTells(s, steps, n);
    }
  }

  lemma NothingTold(s: Sys, steps: seq<Step>)
    ensures Tells(s, steps, 0)
  {
    assert Before(s, steps, 0) == s;
  }

  lemma {:induction false} EveryPrefixTells(s: Sys, steps: seq<Step>, n: nat)
    requires Inv(s) && n <= |steps|
    ensures Tells(s, steps, n)
  {
    hide Tells, Inv;
    if n == 0 {
      NothingTold(s, steps);
    } else {
      EveryPrefixTells(s, steps, n - 1);
      RunInv(s, steps[..n - 1]);
      NextTells(s, steps, n - 1);
    }
  }

  /** The attempts of payment `p` are one of this status and the payment's amount. */
  ghost predicate OneAttempt(store: Store, p: nat, status: AttemptStatus)
    requires p < |store.payments|
  {
    && (exists a :: 0 <= a < |store.attempts|
                    && store.attempts[a] == Attempt(store.payments[p].tenant, p, store.payments[p].amount, status))
    && forall a, b | 0 <= a < b < |store.attempts| :: !(store.attempts[a].payment == p && store.attempts[b].payment == p)
  }

  lemma InvSettles(s: Sys, p: nat)
    requires Inv(s) && p < |s.store.payments|
    ensures var store, status := s.store, s.store.payments[p].status;
            && store.payments[p].order < |store.orders|
            && store.orders[store.payments[p].order].status == OrderStatusFor(status)
            && (status == PayPaid ==> OneAttempt(store, p, AttemptSuccess))
            && (status == PayFailed ==> OneAttempt(store, p, AttemptFailed))
            && (Open(status) ==> !HasAttempt(store.attempts, p))
  {
    hide CartsOk, DeskOk, BankOk, OneAttempt;
    StatusSettlesTheRest(s.store, s.sent, p);
  }

  lemma StatusSettlesTheRest(store: Store, sent: seq<ProviderOrder>, p: nat)
    requires BankOk(store, sent) && p < |store.payments|
    ensures store.payments[p].order < |store.orders|
    ensures store.orders[store.payments[p].order].status == OrderStatusFor(store.payments[p].status)
    ensures store.payments[p].status == PayPaid ==> OneAttempt(store, p, AttemptSuccess)
    ensures store.payments[p].status == PayFailed ==> OneAttempt(store, p, AttemptFailed)
    ensures Open(store.payments[p].status) ==> !HasAttempt(store.attempts, p)
  {
    assert PaymentOk(store.orders, sent, store.payments[p]);
    hide PaymentsOk, LedgerOk;
    forall a | 0 <= a < |store.attempts| ensures AttemptOk(store.payments, store.attempts[a]) {
    }
    if !Open(store.payments[p].status) {
      assert HasAttempt(store.attempts, p);
      var a :| 0 <= a < |store.attempts| && store.attempts[a].payment == p;
      assert store.attempts[a] == Attempt(store.payments[p].tenant, p, store.payments[p].amount, store.attempts[a].status);
    }
  }

  /** In any run from any reachable state, whatever else is requested between notifications,
      a payment that is open when the run first has it ends as the first notification that
      decides it says, with its order and its one attempt; without such a notification it
      stays open and has no attempt; and a settled one stays settled. */
  lemma FirstDecisionOfRunWins(s: Sys, steps: seq<Step>, p: nat)
    requires Reachable(s) && p < |Run(s, steps).store.payments|
    ensures var later, r := Run(s, steps).store, FirstDecision(s, steps, |steps|, p);
            && later.payments[p].order < |later.orders|
            && var status, order := later.payments[p].status, later.orders[later.payments[p].order];
               && (!Open(FirstStatus(s, p)) ==> status == FirstStatus(s, p))
               && (Open(FirstStatus(s, p)) && r.None? ==>
                     status == FirstStatus(s, p) && order.status == OrderPending && !HasAttempt(later.attempts, p))
               && (Open(FirstStatus(s, p)) && r.Some? ==>
                     var verdict := VerdictOf(steps[r.value].delivery);
                     status == verdict.0 && order.status == verdict.1 && OneAttempt(later, p, verdict.2))
  {
    ReachableInv(s);
    hide Reachable, Run, Inv, Heard, FirstDecision, EventsTell, OneAttempt, HasAttempt;
    RunInv(s, steps);
    EveryPrefixTells(s, steps, |steps|);
    assert steps[..|steps|] == steps;
    InvSettles(Run(s, steps), p);
  }
}
