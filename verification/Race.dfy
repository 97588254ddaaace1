/** Notifications handled at the same time. Each handler first reads its payment, then
    looks for its event, then writes everything at once; other handlers may run in
    between. The event table's unique index is the only thing they share. */
module Race {
  import opened Prelude
  import opened Tables
  import opened Payments
  import opened Webhooks
  import opened LedgerInvariant
  import opened Deliveries

  datatype Phase =
    | Arrived
    | Read(payment: nat, seen: PaymentStatus)
    | Checked(payment: nat, seen: PaymentStatus)
    | Ended(reply: Reply)

  /** The committed tables, where each handler is, and which have committed or added an
      attempt, in that order. */
  datatype Race = Race(store: Store, phases: seq<Phase>, committed: seq<nat>, effects: seq<nat>)

  function Start(store: Store, ds: seq<Delivery>): Race {
    Race(store, seq(|ds|, _ => Arrived), [], [])
  }

  function Write(race: Race, d: Delivery, r: nat, p: nat, seen: PaymentStatus): Race
    requires r < |race.phases| && p < |race.store.payments|
  {
    if EventIdOf(race.store, d) in race.store.events then
      race.(phases := race.phases[r := Ended(Rejected(UniqueViolation))])
    else
      var (store, reply) := Record(race.store, d, p, seen);
      Race(store, race.phases[r := Ended(reply)],
           if reply == Accepted then race.committed + [r] else race.committed,
           if |store.attempts| > |race.store.attempts| then race.effects + [r] else race.effects)
  }

  /** The next step of handler `r`. */
  function Advance(race: Race, ds: seq<Delivery>, r: nat): Race {
    if r >= |ds| || |race.phases| != |ds| then race
    else
      match race.phases[r]
      case Arrived =>
        (match Screen(race.store.payments, ds[r])
         case Stop(reply) => race.(phases := race.phases[r := Ended(reply)])
         case Pass(p) => race.(phases := race.phases[r := Read(p, race.store.payments[p].status)]))
      case Read(p, seen) =>
        if EventIdOf(race.store, ds[r]) in race.store.events
        then race.(phases := race.phases[r := Ended(AlreadyProcessed)])
        else race.(phases := race.phases[r := Checked(p, seen)])
      case Checked(p, seen) => if p < |race.store.payments| then Write(race, ds[r], r, p, seen) else race
      case Ended(_) => race
  }

  function Interleave(race: Race, ds: seq<Delivery>, schedule: seq<nat>): Race {
    if schedule == [] then race
    else Advance(Interleave(race, ds, schedule[..|schedule| - 1]), ds, schedule[|schedule| - 1])
  }

  /** A handler that no other interrupts does and replies what the handler as a whole does. */
  lemma AloneIsTheHandler(race: Race, ds: seq<Delivery>, r: nat)
    requires r < |ds| == |race.phases| && race.phases[r] == Arrived
    ensures var after := Advance(Advance(Advance(race, ds, r), ds, r), ds, r);
            && (after.store, after.phases[r]) == (Webhook(race.store, ds[r]).0, Ended(Webhook(race.store, ds[r]).1))
            && |after.phases| == |ds| && forall q | 0 <= q < |ds| && q != r :: after.phases[q] == race.phases[q]
  {
    hide Screen, Record;
    var first := Advance(race, ds, r);
    var second := Advance(first, ds, r);
    var third := Advance(second, ds, r);
    assert first.store == race.store == second.store;
  }

  // ----- at most one effect per identified event -----

  ghost predicate SubsetOf(effects: seq<nat>, committed: seq<nat>) {
    forall a | 0 <= a < |effects| :: effects[a] in committed
  }

  /** The handlers that committed are those that ended accepted, their events are recorded,
      and no two of them, nor one of them and the past, share an event identifier. */
  ghost predicate RaceOk(start: Store, ds: seq<Delivery>, race: Race) {
    && |race.phases| == |ds|
    && start.events <= race.store.events
    && (forall a | 0 <= a < |race.committed| ::
          race.committed[a] < |ds| && race.phases[race.committed[a]] == Ended(Accepted)
          && (ds[race.committed[a]].id.Some? ==>
                Given(ds[race.committed[a]].id.value) in race.store.events
                && Given(ds[race.committed[a]].id.value) !in start.events))
    && (forall a, b | 0 <= a < b < |race.committed| ::
          race.committed[a] != race.committed[b]
          && !(ds[race.committed[a]].id.Some? && ds[race.committed[a]].id == ds[race.committed[b]].id))
    && (forall r | 0 <= r < |ds| && race.phases[r] == Ended(Accepted) :: r in race.committed)
    && SubsetOf(race.effects, race.committed)
    && (forall a, b | 0 <= a < b < |race.effects| :: race.effects[a] != race.effects[b])
    && |race.store.attempts| == |start.attempts| + |race.effects|
    && SameButStatus(start.payments, race.store.payments)
  }

  lemma AdvanceKeepsRaceOk(start: Store, ds: seq<Delivery>, race: Race, r: nat)
    requires RaceOk(start, ds, race)
    ensures RaceOk(start, ds, Advance(race, ds, r))
  {
    hide SameButStatus;
    if r < |ds| && race.phases[r].Checked? && race.phases[r].payment < |race.store.payments| {
      WriteKeepsRaceOk(start, ds, race, r, race.phases[r].payment, race.phases[r].seen);
    }
  }

  lemma RecordSameButStatus(start: Store, store: Store, d: Delivery, p: nat, seen: PaymentStatus)
    requires p < |store.payments| && SameButStatus(start.payments, store.payments)
    ensures SameButStatus(start.payments, Record(store, d, p, seen).0.payments)
  {
  }

  lemma WriteKeepsRaceOk(start: Store, ds: seq<Delivery>, race: Race, r: nat, p: nat, seen: PaymentStatus)
    requires RaceOk(start, ds, race)
    requires r < |ds| && race.phases[r] == Checked(p, seen) && p < |race.store.payments|
    ensures RaceOk(start, ds, Write(race, ds[r], r, p, seen))
  {
    RecordSameButStatus(start, race.store, ds[r], p, seen);
    hide SameButStatus;
    var after := Write(race, ds[r], r, p, seen);
    assert r !in race.committed;
  }

  /** However the handlers interleave, an identified event commits and takes effect at
      most once, and not at all if it was recorded before. */
  lemma {:induction false} AtMostOneEffect(start: Store, ds: seq<Delivery>, schedule: seq<nat>)
    ensures RaceOk(start, ds, Interleave(Start(start, ds), ds, schedule))
  {
    if schedule != [] {
      AtMostOneEffect(start, ds, schedule[..|schedule| - 1]);
      AdvanceKeepsRaceOk(start, ds, Interleave(Start(start, ds), ds, schedule[..|schedule| - 1]), schedule[|schedule| - 1]);
    }
  }

  // ----- what the index does not give -----

  /** The handler commits a decision on a status that is no longer the payment's. A write
      that the unique index refuses commits nothing, however old its status is. */
  predicate StaleCommit(race: Race, ds: seq<Delivery>, r: nat) {
    && r < |ds| == |race.phases| && race.phases[r].Checked? && race.phases[r].payment < |race.store.payments|
    && Deciding(ds[r]) && Open(race.phases[r].seen) != Open(race.store.payments[race.phases[r].payment].status)
    && EventIdOf(race.store, ds[r]) !in race.store.events
  }

  /** A write does what handling the notification on its own at that moment would do
      exactly when it is not a stale commit. */
  lemma WriteAgreesIff(race: Race, ds: seq<Delivery>, r: nat)
    requires r < |ds| == |race.phases| && race.phases[r].Checked?
    requires Screen(race.store.payments, ds[r]) == Pass(race.phases[r].payment)
    requires race.store.payments[race.phases[r].payment].order < |race.store.orders|
    ensures Advance(race, ds, r).store == Webhook(race.store, ds[r]).0 <==> !StaleCommit(race, ds, r)
  {
    var p := race.phases[r].payment;
    var alone := Webhook(race.store, ds[r]).0;
    if StaleCommit(race, ds, r) {
      assert |Advance(race, ds, r).store.attempts| != |alone.attempts|;
    }
  }

  /** No step of the schedule is a stale commit. */
  predicate NoStaleCommit(race: Race, ds: seq<Delivery>, schedule: seq<nat>) {
    schedule == []
    || (NoStaleCommit(race, ds, schedule[..|schedule| - 1])
        && !StaleCommit(Interleave(race, ds, schedule[..|schedule| - 1]), ds, schedule[|schedule| - 1]))
  }

  function Chosen(ds: seq<Delivery>, committed: seq<nat>): seq<Delivery>
    requires forall a | 0 <= a < |committed| :: committed[a] < |ds|
  {
    seq(|committed|, a requires 0 <= a < |committed| => ds[committed[a]])
  }

  /** Handlers past screening were screened as they would be now. */
  ghost predicate PhasesOk(ds: seq<Delivery>, race: Race) {
    |race.phases| == |ds| && forall r | 0 <= r < |ds| ::
      match race.phases[r]
      case Read(p, _) => Screen(race.store.payments, ds[r]) == Pass(p)
      case Checked(p, _) => Screen(race.store.payments, ds[r]) == Pass(p)
      case _ => true
  }

  ghost predicate ScreenedAlike(ds: seq<Delivery>, a: Race, b: Race) {
    forall q | 0 <= q < |ds| :: Screen(a.store.payments, ds[q]) == Screen(b.store.payments, ds[q])
  }

  lemma AlwaysScreenedAlike(start: Store, ds: seq<Delivery>, race: Race, after: Race)
    requires RaceOk(start, ds, race) && RaceOk(start, ds, after)
    ensures ScreenedAlike(ds, race, after)
  {
    hide Screen, SameButStatus;
    forall q | 0 <= q < |ds|
      ensures Screen(race.store.payments, ds[q]) == Screen(after.store.payments, ds[q])
    {
      ScreenAgrees(start.payments, after.store.payments, ds[q]);
      ScreenAgrees(start.payments, race.store.payments, ds[q]);
    }
  }

  lemma AdvanceKeepsScreening(ds: seq<Delivery>, race: Race, r: nat)
    requires PhasesOk(ds, race) && ScreenedAlike(ds, race, Advance(race, ds, r))
    ensures PhasesOk(ds, Advance(race, ds, r))
  {
    hide Screen, Record;
  }

  lemma AdvanceKeepsPhasesOk(start: Store, ds: seq<Delivery>, race: Race, r: nat)
    requires RaceOk(start, ds, race) && PhasesOk(ds, race)
    ensures PhasesOk(ds, Advance(race, ds, r))
  {
    hide RaceOk, PhasesOk, ScreenedAlike, Advance;
    AdvanceKeepsRaceOk(start, ds, race, r);
    AlwaysScreenedAlike(start, ds, race, Advance(race, ds, r));
    AdvanceKeepsScreening(ds, race, r);
  }

  lemma ChosenNext(ds: seq<Delivery>, committed: seq<nat>, r: nat)
    requires r < |ds| && forall a | 0 <= a < |committed| :: committed[a] < |ds|
    ensures Chosen(ds, committed + [r]) == Chosen(ds, committed) + [ds[r]]
  {
  }

  lemma FreshWrite(store: Store, d: Delivery, p: nat, seen: PaymentStatus)
    requires Screen(store.payments, d) == Pass(p) && EventIdOf(store, d) !in store.events
    requires Deciding(d) ==> Open(seen) == Open(store.payments[p].status)
    ensures Record(store, d, p, seen) == Webhook(store, d)
    ensures Record(store, d, p, seen).1 != Accepted ==> Record(store, d, p, seen).0 == store
  {
  }

  lemma DeliverOneMore(start: Store, ds: seq<Delivery>, d: Delivery)
    ensures Deliver(start, ds + [d]) == Webhook(Deliver(start, ds), d).0
  {
    hide Webhook;
    assert (ds + [d])[..|ds + [d]| - 1] == ds;
  }

  lemma StepIsSerial(start: Store, ds: seq<Delivery>, race: Race, r: nat)
    requires |race.phases| == |ds| && (forall a | 0 <= a < |race.committed| :: race.committed[a] < |ds|)
    requires PhasesOk(ds, race) && !StaleCommit(race, ds, r)
    requires race.store == Deliver(start, Chosen(ds, race.committed))
    ensures var after := Advance(race, ds, r);
            && (forall a | 0 <= a < |after.committed| :: after.committed[a] < |ds|)
            && after.store == Deliver(start, Chosen(ds, after.committed))
  {
    hide Record, Webhook, Screen, Deliver, Chosen;
    if r < |ds| && race.phases[r].Checked? {
      var p, seen := race.phases[r].payment, race.phases[r].seen;
      assert Screen(race.store.payments, ds[r]) == Pass(p);
      if EventIdOf(race.store, ds[r]) !in race.store.events {
        FreshWrite(race.store, ds[r], p, seen);
        ChosenNext(ds, race.committed, r);
        DeliverOneMore(start, Chosen(ds, race.committed), ds[r]);
      }
    }
  }

  /** A schedule without stale commits leaves the tables as handling the committed
      notifications one after the other does. */
  lemma {:induction false} NoStaleCommitIsSerial(start: Store, ds: seq<Delivery>, schedule: seq<nat>)
    requires NoStaleCommit(Start(start, ds), ds, schedule)
    ensures var race := Interleave(Start(start, ds), ds, schedule);
            && (forall a | 0 <= a < |race.committed| :: race.committed[a] < |ds|)
            && race.store == Deliver(start, Chosen(ds, race.committed))
  {
    AtMostOneEffect(start, ds, schedule);
    if schedule == [] {
      assert Chosen(ds, []) == [];
    } else {
      var front := schedule[..|schedule| - 1];
      NoStaleCommitIsSerial(start, ds, front);
      AtMostOneEffect(start, ds, front);
      PhasesStayOk(start, ds, front);
      hide RaceOk, PhasesOk, StaleCommit, Advance;
      StepIsSerial(start, ds, Interleave(Start(start, ds), ds, front), schedule[|schedule| - 1]);
    }
  }

  lemma {:induction false} PhasesStayOk(start: Store, ds: seq<Delivery>, schedule: seq<nat>)
    ensures PhasesOk(ds, Interleave(Start(start, ds), ds, schedule))
  {
    if schedule != [] {
      var front := schedule[..|schedule| - 1];
      PhasesStayOk(start, ds, front);
      AtMostOneEffect(start, ds, front);
      hide RaceOk, PhasesOk, Advance;
      AdvanceKeepsPhasesOk(start, ds, Interleave(Start(start, ds), ds, front), schedule[|schedule| - 1]);
    }
  }

  // ----- two handlers that read before either writes -----

  function AttemptOf(payment: Payment, p: nat, d: Delivery): Attempt {
    Attempt(payment.tenant, p, payment.amount, VerdictOf(d).2)
  }

  /** Handlers `i` and `j` both read, both look for their event, and then both write. */
  function Overlapping(i: nat, j: nat): seq<nat> {
    [i, i, j, j, i, j]
  }

  lemma DecisiveRecord(store: Store, d: Delivery, p: nat, seen: PaymentStatus)
    requires p < |store.payments| && store.payments[p].order < |store.orders| && Deciding(d) && Open(seen)
    ensures var (later, reply) := Record(store, d, p, seen);
            && reply == Accepted && later.attempts == store.attempts + [AttemptOf(store.payments[p], p, d)]
            && later.events == LogEvent(store, d).events && later.nextEvent == LogEvent(store, d).nextEvent
            && |later.payments| == |store.payments| && |later.orders| == |store.orders|
            && later.payments[p] == store.payments[p].(status := later.payments[p].status)
  {
  }

  /** Two decisions on one open payment under different events: the payment ends with two
      attempts. */
  lemma TwoDecisionsRace(start: Store, ds: seq<Delivery>, i: nat, j: nat, p: nat)
    requires p < |start.payments| && start.payments[p].order < |start.orders| && Open(start.payments[p].status)
    requires i < |ds| && j < |ds| && i != j && Deciding(ds[i]) && Deciding(ds[j])
    requires Screen(start.payments, ds[i]) == Pass(p) == Screen(start.payments, ds[j])
    requires EventIdOf(start, ds[i]) !in start.events
    requires EventIdOf(start, ds[j]) !in start.events
    requires EventIdOf(LogEvent(start, ds[i]), ds[j]) !in LogEvent(start, ds[i]).events
    ensures Interleave(Start(start, ds), ds, Overlapping(i, j)).store.attempts
            == start.attempts + [AttemptOf(start.payments[p], p, ds[i]), AttemptOf(start.payments[p], p, ds[j])]
  {
    hide Screen, Record, LogEvent, EventIdOf, AttemptOf, Deciding;
    var seen := start.payments[p].status;
    var race := Start(start, ds);
    var r1 := race.(phases := race.phases[i := Read(p, seen)]);
    var r2 := race.(phases := race.phases[i := Checked(p, seen)]);
    var r3 := r2.(phases := r2.phases[j := Read(p, seen)]);
    var r4 := r2.(phases := r2.phases[j := Checked(p, seen)]);
    assert Advance(race, ds, i) == r1;
    assert r1.phases[i := Checked(p, seen)] == r2.phases;
    assert Advance(r1, ds, i) == r2;
    assert Advance(r2, ds, j) == r3;
    assert r3.phases[j := Checked(p, seen)] == r4.phases;
    assert Advance(r3, ds, j) == r4;
    BothWrite(start, ds, r4, i, j, p, seen);
    hide Advance;
    InterleaveSix(race, ds, i, i, j, j, i, j);
  }

  lemma BothWrite(start: Store, ds: seq<Delivery>, race: Race, i: nat, j: nat, p: nat, seen: PaymentStatus)
    requires race.store == start && |race.phases| == |ds|
    requires i < |ds| && j < |ds| && i != j && race.phases[i] == Checked(p, seen) == race.phases[j]
    requires p < |start.payments| && start.payments[p].order < |start.orders| && Open(seen)
    requires Deciding(ds[i]) && Deciding(ds[j]) && EventIdOf(start, ds[i]) !in start.events
    requires EventIdOf(LogEvent(start, ds[i]), ds[j]) !in LogEvent(start, ds[i]).events
    ensures Advance(Advance(race, ds, i), ds, j).store.attempts
            == start.attempts + [AttemptOf(start.payments[p], p, ds[i]), AttemptOf(start.payments[p], p, ds[j])]
  {
    DecisiveRecord(start, ds[i], p, seen);
    var first := Record(start, ds[i], p, seen).0;
    DecisiveRecord(first, ds[j], p, seen);
    assert EventIdOf(first, ds[j]) == EventIdOf(LogEvent(start, ds[i]), ds[j]);
    hide Record, LogEvent, EventIdOf, Deciding;
    assert Advance(race, ds, i).store == first;
  }

  /** Two captures of one open payment under different identifiers, each handler reading
      before the other writes: the payment ends with two successful attempts. */
  lemma TwoCapturesRace(start: Store, first: Delivery, second: Delivery, p: nat)
    requires p < |start.payments| && start.payments[p].order < |start.orders| && Open(start.payments[p].status)
    requires Screen(start.payments, first) == Pass(p) == Screen(start.payments, second)
    requires first.kind == Some(Captured) && second.kind == Some(Captured)
    requires first.id.Some? && second.id.Some? && first.id != second.id
    requires Given(first.id.value) !in start.events && Given(second.id.value) !in start.events
    ensures var attempt := Attempt(start.payments[p].tenant, p, start.payments[p].amount, AttemptSuccess);
            Interleave(Start(start, [first, second]), [first, second], Overlapping(0, 1)).store.attempts
            == start.attempts + [attempt, attempt]
  {
    hide Screen, Advance, Interleave;
    TwoDecisionsRace(start, [first, second], 0, 1, p);
  }

  lemma InterleaveSix(race: Race, ds: seq<Delivery>, a: nat, b: nat, c: nat, d: nat, e: nat, f: nat)
    ensures Interleave(race, ds, [a, b, c, d, e, f])
            == Advance(Advance(Advance(Advance(Advance(Advance(race, ds, a), ds, b), ds, c), ds, d), ds, e), ds, f)
  {
    hide Advance;
    assert [a, b, c, d, e, f][..5] == [a, b, c, d, e];
    assert [a, b, c, d, e][..4] == [a, b, c, d];
    assert [a, b, c, d][..3] == [a, b, c];
    assert [a, b, c][..2] == [a, b];
    assert [a, b][..1] == [a];
    assert [a][..0] == [];
    assert Interleave(race, ds, []) == race;
    assert Interleave(race, ds, [a]) == Advance(race, ds, a);
    assert Interleave(race, ds, [a, b]) == Advance(Advance(race, ds, a), ds, b);
    assert Interleave(race, ds, [a, b, c]) == Advance(Advance(Advance(race, ds, a), ds, b), ds, c);
    assert Interleave(race, ds, [a, b, c, d]) == Advance(Advance(Advance(Advance(race, ds, a), ds, b), ds, c), ds, d);
  }
}
