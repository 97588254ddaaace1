/** Exactly when overlapping handlers settle each payment once: first for a given schedule,
    then for the notifications themselves, whatever the schedule. */
module Overlap {
  import opened Prelude
  import opened Tables
  import opened Payments
  import opened Webhooks
  import opened LedgerInvariant
  import opened Deliveries
  import opened Race

  /** No two attempts are of the same payment. */
  ghost predicate OnePerPayment(store: Store) {
    forall a, b | 0 <= a < b < |store.attempts| :: store.attempts[a].payment != store.attempts[b].payment
  }

  // ----- a settled payment never reopens -----

  ghost predicate NoneReopened(a: Store, b: Store) {
    |a.payments| == |b.payments|
    && forall p | 0 <= p < |a.payments| :: Open(b.payments[p].status) ==> Open(a.payments[p].status)
  }

  lemma RecordReopensNone(store: Store, d: Delivery, p: nat, seen: PaymentStatus)
    requires p < |store.payments|
    ensures NoneReopened(store, Record(store, d, p, seen).0) && store.attempts <= Record(store, d, p, seen).0.attempts
  {
  }

  lemma AdvanceReopensNone(race: Race, ds: seq<Delivery>, r: nat)
    ensures NoneReopened(race.store, Advance(race, ds, r).store)
    ensures race.store.attempts <= Advance(race, ds, r).store.attempts
  {
    hide Record, Screen;
    if r < |ds| == |race.phases| && race.phases[r].Checked? && race.phases[r].payment < |race.store.payments| {
      RecordReopensNone(race.store, ds[r], race.phases[r].payment, race.phases[r].seen);
    }
  }

  /** What a handler saw lies between what the payment was at the start and what it is. */
  predicate SeenBetween(start: Store, store: Store, p: nat, seen: PaymentStatus) {
    && p < |store.payments| == |start.payments|
    && (Open(store.payments[p].status) ==> Open(seen)) && (Open(seen) ==> Open(start.payments[p].status))
  }

  ghost predicate SeenOk(start: Store, race: Race) {
    && NoneReopened(start, race.store)
    && forall r | 0 <= r < |race.phases| ::
         match race.phases[r]
         case Read(p, seen) => SeenBetween(start, race.store, p, seen)
         case Checked(p, seen) => SeenBetween(start, race.store, p, seen)
         case _ => true
  }

  lemma AdvanceKeepsSeenOk(start: Store, ds: seq<Delivery>, race: Race, r: nat)
    requires SeenOk(start, race)
    ensures SeenOk(start, Advance(race, ds, r))
  {
    AdvanceReopensNone(race, ds, r);
    hide Record, Screen, EventIdOf;
  }

  lemma {:induction false} SeenStaysOk(start: Store, ds: seq<Delivery>, schedule: seq<nat>)
    ensures SeenOk(start, Interleave(Start(start, ds), ds, schedule))
  {
    if schedule != [] {
      hide SeenOk, Advance;
      SeenStaysOk(start, ds, schedule[..|schedule| - 1]);
      AdvanceKeepsSeenOk(start, ds, Interleave(Start(start, ds), ds, schedule[..|schedule| - 1]), schedule[|schedule| - 1]);
    }
  }

  // ----- a stale commit is a second attempt -----

  /** Handling one after the other keeps the tables sound, so a payment settled by then has
      its attempt, and a stale commit adds another. */
  lemma StaleCommitDoubles(start: Store, sent: seq<ProviderOrder>, ds: seq<Delivery>, race: Race, r: nat)
    requires BankOk(race.store, sent) && SeenOk(start, race) && StaleCommit(race, ds, r)
    ensures !OnePerPayment(Advance(race, ds, r).store)
  {
    var p, seen := race.phases[r].payment, race.phases[r].seen;
    assert PaymentOk(race.store.orders, sent, race.store.payments[p]);
    assert HasAttempt(race.store.attempts, p);
    var a: nat :| a < |race.store.attempts| && race.store.attempts[a].payment == p;
    DecisiveRecord(race.store, ds[r], p, seen);
    hide BankOk, SeenOk, Record;
    var after := Advance(race, ds, r).store.attempts;
    assert after[a].payment == after[|race.store.attempts|].payment;
  }

  lemma DoubledStays(race: Race, ds: seq<Delivery>, r: nat)
    requires !OnePerPayment(race.store)
    ensures !OnePerPayment(Advance(race, ds, r).store)
  {
    AdvanceReopensNone(race, ds, r);
    hide Advance;
    var was, after := race.store.attempts, Advance(race, ds, r).store.attempts;
    var a, b :| 0 <= a < b < |was| && was[a].payment == was[b].payment;
    assert after[a].payment == after[b].payment;
  }

  lemma BankHasOnePerPayment(store: Store, sent: seq<ProviderOrder>)
    requires BankOk(store, sent)
    ensures OnePerPayment(store)
  {
    hide PaymentsOk, LedgerOk;
  }

  /** Without stale commits the tables stay sound. */
  lemma SerialKeepsBankOk(start: Store, sent: seq<ProviderOrder>, ds: seq<Delivery>, schedule: seq<nat>)
    requires BankOk(start, sent) && NoStaleCommit(Start(start, ds), ds, schedule)
    ensures BankOk(Interleave(Start(start, ds), ds, schedule).store, sent)
  {
    NoStaleCommitIsSerial(start, ds, schedule);
    hide BankOk, NoStaleCommit;
    DeliverKeepsBankOk(start, sent, Chosen(ds, Interleave(Start(start, ds), ds, schedule).committed));
  }

  lemma {:induction false} OnePerPaymentIff(start: Store, sent: seq<ProviderOrder>, ds: seq<Delivery>, schedule: seq<nat>)
    requires BankOk(start, sent)
    ensures OnePerPayment(Interleave(Start(start, ds), ds, schedule).store) <==> NoStaleCommit(Start(start, ds), ds, schedule)
  {
    hide BankOk, OnePerPayment, Advance, StaleCommit;
    if NoStaleCommit(Start(start, ds), ds, schedule) {
      SerialKeepsBankOk(start, sent, ds, schedule);
      BankHasOnePerPayment(Interleave(Start(start, ds), ds, schedule).store, sent);
    } else {
      var front, r := schedule[..|schedule| - 1], schedule[|schedule| - 1];
      var race := Interleave(Start(start, ds), ds, front);
      OnePerPaymentIff(start, sent, ds, front);
      if NoStaleCommit(Start(start, ds), ds, front) {
        SerialKeepsBankOk(start, sent, ds, front);
        SeenStaysOk(start, ds, front);
        StaleCommitDoubles(start, sent, ds, race, r);
      } else {
        DoubledStays(race, ds, r);
      }
    }
  }

  /** For any schedule the following are the same: no commit is stale; no payment ends with
      two attempts; the tables are sound; and some order of handling notifications one
      after the other, these or others, leaves the same tables. */
  lemma SerializableIff(start: Store, sent: seq<ProviderOrder>, ds: seq<Delivery>, schedule: seq<nat>)
    requires BankOk(start, sent)
    ensures var store := Interleave(Start(start, ds), ds, schedule).store;
            var clean := NoStaleCommit(Start(start, ds), ds, schedule);
            && (clean <==> OnePerPayment(store))
            && (clean <==> BankOk(store, sent))
            && (clean <==> exists es :: store == Deliver(start, es))
  {
    var race := Interleave(Start(start, ds), ds, schedule);
    hide BankOk, OnePerPayment, NoStaleCommit;
    OnePerPaymentIff(start, sent, ds, schedule);
    if NoStaleCommit(Start(start, ds), ds, schedule) {
      SerialKeepsBankOk(start, sent, ds, schedule);
      NoStaleCommitIsSerial(start, ds, schedule);
      assert race.store == Deliver(start, Chosen(ds, race.committed));
    } else {
      forall es ensures BankOk(Deliver(start, es), sent) && OnePerPayment(Deliver(start, es)) {
        DeliverKeepsBankOk(start, sent, es);
        BankHasOnePerPayment(Deliver(start, es), sent);
      }
      if BankOk(race.store, sent) {
        BankHasOnePerPayment(race.store, sent);
      }
    }
  }

  // ----- the condition on the notifications -----

  predicate Unrecorded(start: Store, d: Delivery) {
    d.id.Some? ==> Given(d.id.value) !in start.events
  }

  /** Two of the notifications decide the same open payment under different events: their
      identifiers differ, or at least one has none. */
  predicate Rivals(start: Store, ds: seq<Delivery>, i: nat, j: nat) {
    && i < |ds| && j < |ds| && i != j
    && Deciding(ds[i]) && Deciding(ds[j]) && Unrecorded(start, ds[i]) && Unrecorded(start, ds[j])
    && Screen(start.payments, ds[i]).Pass? && Screen(start.payments, ds[j]) == Screen(start.payments, ds[i])
    && Open(start.payments[Screen(start.payments, ds[i]).payment].status)
    && !(ds[i].id.Some? && ds[i].id == ds[j].id)
  }

  /** A payment that was open and is not any more was closed by a handler that committed. */
  ghost predicate ClosedByCommits(start: Store, ds: seq<Delivery>, race: Race) {
    |race.store.payments| == |start.payments|
    && forall p: nat | p < |start.payments| && Open(start.payments[p].status) && !Open(race.store.payments[p].status) ::
         exists c: nat :: c in race.committed && ClosedBy(start, ds, c, p)
  }

  predicate ClosedBy(start: Store, ds: seq<Delivery>, c: nat, p: nat) {
    c < |ds| && Deciding(ds[c]) && Screen(start.payments, ds[c]) == Pass(p)
  }

  lemma RecordClosesOne(store: Store, d: Delivery, p: nat, seen: PaymentStatus)
    requires p < |store.payments|
    ensures var (later, reply) := Record(store, d, p, seen);
            && |later.payments| == |store.payments|
            && (forall q: nat | q < |store.payments| && later.payments[q] != store.payments[q] ::
                  q == p && reply == Accepted && Deciding(d))
  {
  }

  lemma AdvanceKeepsClosedBy(start: Store, ds: seq<Delivery>, race: Race, r: nat)
    requires RaceOk(start, ds, race) && PhasesOk(ds, race) && ClosedByCommits(start, ds, race)
    ensures ClosedByCommits(start, ds, Advance(race, ds, r))
  {
    var after := Advance(race, ds, r);
    if r < |ds| && race.phases[r].Checked? {
      var p := race.phases[r].payment;
      RecordClosesOne(race.store, ds[r], p, race.phases[r].seen);
      ScreenAgrees(start.payments, race.store.payments, ds[r]);
      assert Deciding(ds[r]) ==> ClosedBy(start, ds, r, p);
      hide RaceOk, PhasesOk, Screen, Record, ClosedBy;
      forall q: nat | q < |start.payments| && Open(start.payments[q].status) && !Open(after.store.payments[q].status)
        ensures exists c: nat :: c in after.committed && ClosedBy(start, ds, c, q)
      {
        if after.store.payments[q] == race.store.payments[q] {
          var c: nat :| c in race.committed && ClosedBy(start, ds, c, q);
          assert c in after.committed;
        } else {
          assert r in after.committed && ClosedBy(start, ds, r, q);
        }
      }
    }
  }

  lemma {:induction false} AlwaysClosedByCommits(start: Store, ds: seq<Delivery>, schedule: seq<nat>)
    ensures ClosedByCommits(start, ds, Interleave(Start(start, ds), ds, schedule))
  {
    if schedule != [] {
      var front := schedule[..|schedule| - 1];
      AlwaysClosedByCommits(start, ds, front);
      AtMostOneEffect(start, ds, front);
      PhasesStayOk(start, ds, front);
      hide RaceOk, PhasesOk, ClosedByCommits, Advance;
      AdvanceKeepsClosedBy(start, ds, Interleave(Start(start, ds), ds, front), schedule[|schedule| - 1]);
    }
  }

  lemma StaleCommitHasRival(start: Store, ds: seq<Delivery>, race: Race, r: nat) returns (c: nat)
    requires RaceOk(start, ds, race) && PhasesOk(ds, race) && SeenOk(start, race) && ClosedByCommits(start, ds, race)
    requires StaleCommit(race, ds, r)
    ensures Rivals(start, ds, c, r)
  {
    var p := race.phases[r].payment;
    ScreenAgrees(start.payments, race.store.payments, ds[r]);
    hide Screen;
    assert SeenBetween(start, race.store, p, race.phases[r].seen);
    c :| c in race.committed && ClosedBy(start, ds, c, p);
  }

  lemma {:induction false} NoRivalsNoStaleCommit(start: Store, ds: seq<Delivery>, schedule: seq<nat>)
    requires forall i: nat, j: nat :: !Rivals(start, ds, i, j)
    ensures NoStaleCommit(Start(start, ds), ds, schedule)
  {
    hide Rivals, StaleCommit, RaceOk, PhasesOk, SeenOk, ClosedByCommits;
    if schedule != [] {
      var front, r := schedule[..|schedule| - 1], schedule[|schedule| - 1];
      var race := Interleave(Start(start, ds), ds, front);
      NoRivalsNoStaleCommit(start, ds, front);
      AtMostOneEffect(start, ds, front);
      PhasesStayOk(start, ds, front);
      SeenStaysOk(start, ds, front);
      AlwaysClosedByCommits(start, ds, front);
      if StaleCommit(race, ds, r) {
        var c := StaleCommitHasRival(start, ds, race, r);
      }
    }
  }

  lemma RivalsCanDouble(start: Store, sent: seq<ProviderOrder>, ds: seq<Delivery>, i: nat, j: nat)
    requires BankOk(start, sent) && Rivals(start, ds, i, j)
    ensures !OnePerPayment(Interleave(Start(start, ds), ds, Overlapping(i, j)).store)
  {
    var p := Screen(start.payments, ds[i]).payment;
    BankIsLinked(start, sent);
    hide Screen, Interleave;
    TwoDecisionsRace(start, ds, i, j, p);
    hide BankOk, Rivals;
    var n := |start.attempts|;
    var after := Interleave(Start(start, ds), ds, Overlapping(i, j)).store.attempts;
    assert after[n].payment == after[n + 1].payment;
  }

  /** Every schedule of these handlers settles each payment once if and only if no two of
      the notifications are rivals: all unrecorded captures and failures of an open payment
      carry one and the same identifier. */
  lemma EveryScheduleSettlesOnceIff(start: Store, sent: seq<ProviderOrder>, ds: seq<Delivery>)
    requires BankOk(start, sent)
    ensures (forall schedule :: OnePerPayment(Interleave(Start(start, ds), ds, schedule).store))
            <==> forall i: nat, j: nat :: !Rivals(start, ds, i, j)
  {
    hide BankOk, OnePerPayment, Rivals, NoStaleCommit, Interleave;
    if i: nat, j: nat :| Rivals(start, ds, i, j) {
      RivalsCanDouble(start, sent, ds, i, j);
    } else {
      forall schedule ensures OnePerPayment(Interleave(Start(start, ds), ds, schedule).store) {
        NoRivalsNoStaleCommit(start, ds, schedule);
        OnePerPaymentIff(start, sent, ds, schedule);
      }
    }
  }

  // ----- the replies of overlapping handlers -----

  ghost predicate IsDue(start: Store, ds: seq<Delivery>, race: Race, r: nat, reply: Reply)
    requires r < |ds|
  {
    match reply
    case NoOrderId => Screen(start.payments, ds[r]) == Stop(reply)
    case UnknownOrder => Screen(start.payments, ds[r]) == Stop(reply)
    case Accepted => Screen(start.payments, ds[r]).Pass? && ds[r].kind.Some? && r in race.committed
    case AlreadyProcessed => Repeated(start, ds, race, r)
    case Rejected(UniqueViolation) => Repeated(start, ds, race, r)
    case Rejected(NullViolation) => Screen(start.payments, ds[r]).Pass? && ds[r].kind.None?
    case Rejected(error) => (error == AmountMismatch || error == CurrencyMismatch) && Screen(start.payments, ds[r]) == Stop(reply)
  }

  /** Its identifier is recorded by now. */
  ghost predicate Repeated(start: Store, ds: seq<Delivery>, race: Race, r: nat)
    requires r < |ds|
  {
    Screen(start.payments, ds[r]).Pass? && ds[r].id.Some? && Given(ds[r].id.value) in race.store.events
  }

  ghost predicate RepliesOk(start: Store, ds: seq<Delivery>, race: Race) {
    && EventsOk(race.store) && |race.phases| == |ds|
    && (forall p | 0 <= p < |race.store.payments| :: race.store.payments[p].order < |race.store.orders|)
    && forall r: nat | r < |ds| && race.phases[r].Ended? :: IsDue(start, ds, race, r, race.phases[r].reply)
  }

  /** What any step of a handler leaves of the rest. */
  ghost predicate Grown(before: Race, after: Race) {
    && before.store.events <= after.store.events
    && (forall r | r in before.committed :: r in after.committed)
    && |after.store.orders| == |before.store.orders|
    && SameButStatus(before.store.payments, after.store.payments)
  }

  lemma AdvanceGrows(race: Race, ds: seq<Delivery>, r: nat)
    requires EventsOk(race.store)
    ensures Grown(race, Advance(race, ds, r)) && EventsOk(Advance(race, ds, r).store)
  {
    hide Screen;
  }

  lemma StaysDue(start: Store, ds: seq<Delivery>, before: Race, after: Race, r: nat, reply: Reply)
    requires r < |ds| && Grown(before, after) && IsDue(start, ds, before, r, reply)
    ensures IsDue(start, ds, after, r, reply)
  {
    hide Screen, SameButStatus;
  }

  lemma ScreenStops(payments: seq<Payment>, d: Delivery, reply: Reply)
    requires Screen(payments, d) == Stop(reply) && forall p, q | 0 <= p < q < |payments| :: payments[p].providerOrder != payments[q].providerOrder
    ensures reply == NoOrderId || reply == UnknownOrder || reply == Rejected(AmountMismatch) || reply == Rejected(CurrencyMismatch)
  {
    if d.order.Some? {
      SelectAtMostOne(payments, Names(d.order.value));
    }
  }

  lemma RecordReply(store: Store, d: Delivery, p: nat, seen: PaymentStatus)
    requires p < |store.payments| && store.payments[p].order < |store.orders|
    ensures Record(store, d, p, seen).1 == if d.kind.None? then Rejected(NullViolation) else Accepted
  {
  }

  /** A handler that has passed screening ends with a reply that is due. */
  lemma LateReply(start: Store, ds: seq<Delivery>, race: Race, r: nat, p: nat, seen: PaymentStatus)
    requires r < |ds| == |race.phases| && (race.phases[r] == Read(p, seen) || race.phases[r] == Checked(p, seen))
    requires Screen(start.payments, ds[r]).Pass? && p < |race.store.payments| && race.store.payments[p].order < |race.store.orders|
    requires Generated(race.store.nextEvent) !in race.store.events
    ensures var after := Advance(race, ds, r);
            after.phases[r].Ended? ==> IsDue(start, ds, after, r, after.phases[r].reply)
  {
    RecordReply(race.store, ds[r], p, seen);
    hide Screen, Record;
  }

  lemma EarlyReply(start: Store, ds: seq<Delivery>, race: Race, r: nat)
    requires r < |ds| == |race.phases| && race.phases[r] == Arrived
    requires Screen(start.payments, ds[r]) == Screen(race.store.payments, ds[r])
    requires forall p, q | 0 <= p < q < |start.payments| :: start.payments[p].providerOrder != start.payments[q].providerOrder
    ensures var after := Advance(race, ds, r);
            after.phases[r].Ended? ==> IsDue(start, ds, after, r, after.phases[r].reply)
  {
    if Screen(start.payments, ds[r]).Stop? {
      ScreenStops(start.payments, ds[r], Screen(start.payments, ds[r]).reply);
    }
    hide Screen;
  }

  /** The reply a handler ends with, if it does at this step, is due. */
  lemma StepReplies(start: Store, sent: seq<ProviderOrder>, ds: seq<Delivery>, race: Race, r: nat)
    requires BankOk(start, sent) && RaceOk(start, ds, race) && PhasesOk(ds, race) && RepliesOk(start, ds, race)
    requires r < |ds| && !race.phases[r].Ended? && Advance(race, ds, r).phases[r].Ended?
    ensures var after := Advance(race, ds, r); IsDue(start, ds, after, r, after.phases[r].reply)
  {
    ScreenAgrees(start.payments, race.store.payments, ds[r]);
    assert Generated(race.store.nextEvent) !in race.store.events;
    hide Advance, Screen, IsDue, AttemptsOk, LedgerOk, PaymentOk, SameButStatus;
    match race.phases[r] {
      case Arrived => EarlyReply(start, ds, race, r);
      case Read(p, seen) => LateReply(start, ds, race, r, p, seen);
      case Checked(p, seen) => LateReply(start, ds, race, r, p, seen);
    }
  }

  lemma OthersKeepPhase(race: Race, ds: seq<Delivery>, r: nat)
    requires |race.phases| == |ds|
    ensures |Advance(race, ds, r).phases| == |ds|
    ensures forall q: nat | q < |ds| && (q != r || race.phases[q].Ended?) :: Advance(race, ds, r).phases[q] == race.phases[q]
  {
    hide Screen, Record;
  }

  lemma AdvanceKeepsRepliesOk(start: Store, sent: seq<ProviderOrder>, ds: seq<Delivery>, race: Race, r: nat)
    requires BankOk(start, sent) && RaceOk(start, ds, race) && PhasesOk(ds, race) && RepliesOk(start, ds, race)
    ensures RepliesOk(start, ds, Advance(race, ds, r))
  {
    var after := Advance(race, ds, r);
    AdvanceGrows(race, ds, r);
    OthersKeepPhase(race, ds, r);
    hide Advance, BankOk, RaceOk, PhasesOk, IsDue, EventsOk;
    forall q: nat | q < |ds| && after.phases[q].Ended?
      ensures IsDue(start, ds, after, q, after.phases[q].reply)
    {
      if race.phases[q].Ended? {
        StaysDue(start, ds, race, after, q, race.phases[q].reply);
      } else {
        StepReplies(start, sent, ds, race, q);
      }
    }
  }

  /** However the handlers interleave, each ends with a reply that is due: what screening
      stops is refused as at the start, a repeat is recorded by then, and accepted are
      those that committed. */
  lemma {:induction false} EveryReplyIsDue(start: Store, sent: seq<ProviderOrder>, ds: seq<Delivery>, schedule: seq<nat>)
    requires BankOk(start, sent)
    ensures RepliesOk(start, ds, Interleave(Start(start, ds), ds, schedule))
  {
    if schedule == [] {
      BankIsLinked(start, sent);
    } else {
      var front := schedule[..|schedule| - 1];
      EveryReplyIsDue(start, sent, ds, front);
      AtMostOneEffect(start, ds, front);
      PhasesStayOk(start, ds, front);
      hide BankOk, RaceOk, PhasesOk, RepliesOk, Advance;
      AdvanceKeepsRepliesOk(start, sent, ds, Interleave(Start(start, ds), ds, front), schedule[|schedule| - 1]);
    }
  }
}
