/** The policy engine: a loop over policies in whatever order the query returns them,
    against limits that have no order. */
module Policy {
  import opened Prelude

  datatype PolicyType = TransactionLimit | ConfirmationRequirement | DiscountLimit | OtherType

  /** A rule that is looked up with a default distinguishes absent from null. */
  datatype Flag = Absent | Null | Value(on: bool)

  datatype Rules = Rules(maxAmount: Option<real>, requireConfirmation: Flag, maxDiscountPercent: Option<real>)
  datatype Policy = Policy(tenant: nat, active: bool, policyType: PolicyType, rules: Rules)

  datatype Action = Payment | Discount | OtherAction
  datatype Context = Context(amount: Option<real>, confirmed: Option<bool>, discountPercent: Option<real>)

  datatype Reason =
    | AllPoliciesPassed | MissingAmountContext | ExceedsMaxAmount | ConfirmationRequired | ExceedsMaxDiscount
    | InternalError
  datatype Decision = Allow(reason: Reason) | Deny(reason: Reason)

  // ----- the loop -----

  predicate ConfirmationOn(rules: Rules) {
    match rules.requireConfirmation
    case Absent => true
    case Null => false
    case Value(on) => on
  }

  /** What one policy objects to, if anything. */
  function Objection(p: Policy, action: Action, context: Context): Option<Reason> {
    match p.policyType
    case TransactionLimit =>
      if action == Payment && p.rules.maxAmount.Some? then
        if context.amount.None? then Some(MissingAmountContext)
        else if context.amount.value > p.rules.maxAmount.value then Some(ExceedsMaxAmount)
        else None
      else None
    case ConfirmationRequirement =>
      if action == Payment && ConfirmationOn(p.rules) && context.confirmed != Some(true) then Some(ConfirmationRequired)
      else None
    case DiscountLimit =>
      if action != OtherAction && p.rules.maxDiscountPercent.Some? && context.discountPercent.Some?
         && context.discountPercent.value > p.rules.maxDiscountPercent.value
      then Some(ExceedsMaxDiscount)
      else None
    case OtherType => None
  }

  /** A policy of the tenant objects for this reason, said on its rules and the context. */
  predicate ObjectsFor(p: Policy, action: Action, context: Context, reason: Reason) {
    match reason
    case MissingAmountContext =>
      p.policyType == TransactionLimit && action == Payment && p.rules.maxAmount.Some? && context.amount.None?
    case ExceedsMaxAmount =>
      p.policyType == TransactionLimit && action == Payment && p.rules.maxAmount.Some? && context.amount.Some?
      && p.rules.maxAmount.value < context.amount.value
    case ConfirmationRequired =>
      p.policyType == ConfirmationRequirement && action == Payment
      && (p.rules.requireConfirmation.Absent? || (p.rules.requireConfirmation.Value? && p.rules.requireConfirmation.on))
      && (context.confirmed.None? || !context.confirmed.value)
    case ExceedsMaxDiscount =>
      p.policyType == DiscountLimit && (action == Payment || action == Discount)
      && p.rules.maxDiscountPercent.Some? && context.discountPercent.Some?
      && p.rules.maxDiscountPercent.value < context.discountPercent.value
    case _ => false
  }

  lemma ObjectionIff(p: Policy, action: Action, context: Context)
    ensures forall reason :: Objection(p, action, context) == Some(reason) <==> ObjectsFor(p, action, context, reason)
  {
    assert context.confirmed != Some(true) <==> context.confirmed.None? || !context.confirmed.value;
    forall reason
      ensures Objection(p, action, context) == Some(reason) <==> ObjectsFor(p, action, context, reason)
    {
    }
  }

  // ----- limits without an order -----

  function Tighter(a: Option<real>, b: Option<real>): Option<real> {
    if a.None? then b
    else if b.None? then a
    else if a.value <= b.value then a else b
  }

  /** The smallest bound that any of the policies sets, if any does. */
  ghost predicate IsTightest(ps: multiset<Policy>, bound: Policy -> Option<real>, t: Option<real>) {
    && (t.None? <==> forall p | p in ps :: bound(p).None?)
    && (t.Some? ==> (exists p :: p in ps && bound(p) == t)
                    && forall p | p in ps && bound(p).Some? :: t.value <= bound(p).value)
  }

  function AmountBound(p: Policy): Option<real> {
    if p.policyType == TransactionLimit then p.rules.maxAmount else None
  }

  function DiscountBound(p: Policy): Option<real> {
    if p.policyType == DiscountLimit then p.rules.maxDiscountPercent else None
  }

  predicate NeedsConfirmation(p: Policy) {
    p.policyType == ConfirmationRequirement && ConfirmationOn(p.rules)
  }

  /** The context respects the tightest of all limits. */
  ghost predicate WithinLimits(ps: multiset<Policy>, action: Action, context: Context) {
    && (action == Payment ==>
          && (forall t | IsTightest(ps, AmountBound, Some(t)) :: context.amount.Some? && context.amount.value <= t)
          && ((exists p :: p in ps && NeedsConfirmation(p)) ==> context.confirmed == Some(true)))
    && (action != OtherAction ==>
          forall t | IsTightest(ps, DiscountBound, Some(t)) :: context.discountPercent.Some? ==> context.discountPercent.value <= t)
  }

  /** Every collection of policies has a tightest bound. */
  lemma TightestExists(ps: seq<Policy>, bound: Policy -> Option<real>) returns (t: Option<real>)
    ensures IsTightest(multiset(ps), bound, t)
  {
    t := None;
    for k := 0 to |ps|
      invariant IsTightest(multiset(ps[..k]), bound, t)
    {
      assert ps[..k + 1] == ps[..k] + [ps[k]];
      assert multiset(ps[..k + 1]) == multiset(ps[..k]) + multiset{ps[k]};
      t := Tighter(t, bound(ps[k]));
    }
    assert ps[..|ps|] == ps;
  }

  /** Being within the tightest limit is being within each. */
  lemma WithinTightestIffWithinAll(ps: seq<Policy>, bound: Policy -> Option<real>, x: real)
    ensures (forall t | IsTightest(multiset(ps), bound, Some(t)) :: x <= t)
            <==> forall p | p in multiset(ps) && bound(p).Some? :: x <= bound(p).value
  {
    var t := TightestExists(ps, bound);
    if t.Some? {
      assert IsTightest(multiset(ps), bound, Some(t.value));
    }
  }

  lemma NoObjectionMeansWithinLimits(ps: seq<Policy>, action: Action, context: Context)
    ensures (forall p | p in ps :: Objection(p, action, context).None?) <==> WithinLimits(multiset(ps), action, context)
  {
    assert forall p :: p in ps <==> p in multiset(ps);
    if context.amount.Some? {
      WithinTightestIffWithinAll(ps, AmountBound, context.amount.value);
    } else {
      var t := TightestExists(ps, AmountBound);
      if t.Some? {
        assert IsTightest(multiset(ps), AmountBound, Some(t.value));
      }
    }
    if context.discountPercent.Some? {
      WithinTightestIffWithinAll(ps, DiscountBound, context.discountPercent.value);
    }
  }

  // ----- the engine -----

  function GetPolicies(rows: seq<Policy>, tenant: nat): seq<Policy> {
    if rows == [] then []
    else
      var front := GetPolicies(rows[..|rows| - 1], tenant);
      var p := rows[|rows| - 1];
      if p.tenant == tenant && p.active then front + [p] else front
  }

  lemma {:induction false} GetPoliciesIn(rows: seq<Policy>, tenant: nat)
    ensures forall p :: p in GetPolicies(rows, tenant) <==> p in rows && p.tenant == tenant && p.active
  {
    if rows != [] {
      GetPoliciesIn(rows[..|rows| - 1], tenant);
      assert rows == rows[..|rows| - 1] + [rows[|rows| - 1]];
    }
  }

  /** No active policy of the tenant has any reason to object. */
  ghost predicate NobodyObjects(rows: seq<Policy>, tenant: nat, action: Action, context: Context) {
    forall p, reason | p in rows && p.tenant == tenant && p.active :: !ObjectsFor(p, action, context, reason)
  }

  lemma NobodyObjectsIff(rows: seq<Policy>, tenant: nat, action: Action, context: Context)
    ensures NobodyObjects(rows, tenant, action, context)
            <==> forall p | p in GetPolicies(rows, tenant) :: Objection(p, action, context).None?
  {
    GetPoliciesIn(rows, tenant);
    forall p ensures forall reason :: Objection(p, action, context) == Some(reason) <==> ObjectsFor(p, action, context, reason) {
      ObjectionIff(p, action, context);
    }
    hide GetPolicies, Objection, ObjectsFor;
    if NobodyObjects(rows, tenant, action, context) {
      forall p | p in GetPolicies(rows, tenant) ensures Objection(p, action, context).None? {
        var o := Objection(p, action, context);
        assert forall reason :: o == Some(reason) ==> ObjectsFor(p, action, context, reason);
      }
    } else {
      var p, reason :| p in rows && p.tenant == tenant && p.active && ObjectsFor(p, action, context, reason);
      assert Objection(p, action, context) == Some(reason);
    }
  }

  lemma LimitsIff(rows: seq<Policy>, tenant: nat, action: Action, context: Context)
    ensures WithinLimits(multiset(GetPolicies(rows, tenant)), action, context) <==> NobodyObjects(rows, tenant, action, context)
  {
    NoObjectionMeansWithinLimits(GetPolicies(rows, tenant), action, context);
    NobodyObjectsIff(rows, tenant, action, context);
    hide GetPolicies, Objection, WithinLimits, NobodyObjects;
  }

  /** One policy after another, none of which objects. */
  ghost predicate NoneObjects(policies: seq<Policy>, action: Action, context: Context) {
    forall i, reason | 0 <= i < |policies| :: !ObjectsFor(policies[i], action, context, reason)
  }

  lemma NoneObjectsSteps(policies: seq<Policy>, action: Action, context: Context)
    ensures NoneObjects(policies[..0], action, context)
    ensures forall i | 0 <= i < |policies| && NoneObjects(policies[..i], action, context)
                       && (forall reason :: !ObjectsFor(policies[i], action, context, reason)) ::
              NoneObjects(policies[..i + 1], action, context)
    ensures forall i, reason | 0 <= i < |policies| && ObjectsFor(policies[i], action, context, reason) ::
              !NoneObjects(policies, action, context)
  {
    hide ObjectsFor;
    forall i | 0 <= i < |policies| && NoneObjects(policies[..i], action, context)
               && (forall reason :: !ObjectsFor(policies[i], action, context, reason))
      ensures NoneObjects(policies[..i + 1], action, context)
    {
      forall j, reason | 0 <= j < i + 1 ensures !ObjectsFor(policies[j], action, context, reason) {
        assert j < i ==> policies[..i][j] == policies[j];
      }
    }
  }

  lemma NoneObjectsIff(rows: seq<Policy>, tenant: nat, action: Action, context: Context)
    ensures NoneObjects(GetPolicies(rows, tenant), action, context) <==> NobodyObjects(rows, tenant, action, context)
  {
    GetPoliciesIn(rows, tenant);
    hide GetPolicies, ObjectsFor;
    var policies := GetPolicies(rows, tenant);
    if NoneObjects(policies, action, context) {
      forall p, reason | p in rows && p.tenant == tenant && p.active ensures !ObjectsFor(p, action, context, reason) {
        var i :| 0 <= i < |policies| && policies[i] == p;
      }
    }
  }

  /** One round of the loop. */
  method Consider(p: Policy, action: Action, context: Context) returns (objection: Option<Reason>)
    ensures objection.None? ==> forall reason :: !ObjectsFor(p, action, context, reason)
    ensures objection.Some? ==> ObjectsFor(p, action, context, objection.value)
  {
    if p.policyType == TransactionLimit && action == Payment {
      if p.rules.maxAmount.Some? {
        if context.amount.None? {
          return Some(MissingAmountContext);
        }
        if context.amount.value > p.rules.maxAmount.value {
          return Some(ExceedsMaxAmount);
        }
      }
    }
    if p.policyType == ConfirmationRequirement && action == Payment {
      if ConfirmationOn(p.rules) && context.confirmed != Some(true) {
        return Some(ConfirmationRequired);
      }
    }
    if p.policyType == DiscountLimit && (action == Discount || action == Payment) {
      if p.rules.maxDiscountPercent.Some? && context.discountPercent.Some? {
        if context.discountPercent.value > p.rules.maxDiscountPercent.value {
          return Some(ExceedsMaxDiscount);
        }
      }
    }
    return None;
  }

  /** Stops at the first objection; allows exactly when no active policy of the tenant has a
      reason to object, which is to be within the tightest of their limits. A failed query
      denies. */
  method Evaluate(query: Result<seq<Policy>, ()>, tenant: nat, action: Action, context: Context) returns (d: Decision)
    ensures query.Err? ==> d == Deny(InternalError)
    ensures query.Ok? ==> (d.Allow? <==> NobodyObjects(query.value, tenant, action, context))
    ensures query.Ok? ==> (d.Allow? <==> WithinLimits(multiset(GetPolicies(query.value, tenant)), action, context))
    ensures d.Allow? ==> d.reason == AllPoliciesPassed
    ensures query.Ok? && d.Deny? ==>
              exists i :: 0 <= i < |GetPolicies(query.value, tenant)|
                          && ObjectsFor(GetPolicies(query.value, tenant)[i], action, context, d.reason)
                          && NoneObjects(GetPolicies(query.value, tenant)[..i], action, context)
  {
    if query.Err? {
      return Deny(InternalError);
    }
    var policies := GetPolicies(query.value, tenant);
    LimitsIff(query.value, tenant, action, context);
    NoneObjectsIff(query.value, tenant, action, context);
    hide WithinLimits, NobodyObjects, GetPolicies, ObjectsFor, NoneObjects;
    NoneObjectsSteps(policies, action, context);
    for i := 0 to |policies|
      invariant NoneObjects(policies[..i], action, context)
    {
      var objection := Consider(policies[i], action, context);
      if objection.Some? {
        return Deny(objection.value);
      }
    }
    assert policies[..|policies|] == policies;
    return Allow(AllPoliciesPassed);
  }

  // ----- order and growth -----

  lemma {:induction false} GetPoliciesMultiset(rows: seq<Policy>, tenant: nat, p: Policy)
    ensures multiset(GetPolicies(rows, tenant))[p] == if p.tenant == tenant && p.active then multiset(rows)[p] else 0
  {
    if rows != [] {
      GetPoliciesMultiset(rows[..|rows| - 1], tenant, p);
      assert rows == rows[..|rows| - 1] + [rows[|rows| - 1]];
    }
  }

  /** The order of the query result does not matter for what is allowed. */
  lemma OrderDoesNotMatter(rows: seq<Policy>, rows': seq<Policy>, tenant: nat, action: Action, context: Context)
    requires multiset(rows) == multiset(rows')
    ensures WithinLimits(multiset(GetPolicies(rows, tenant)), action, context)
            <==> WithinLimits(multiset(GetPolicies(rows', tenant)), action, context)
  {
    forall p
      ensures multiset(GetPolicies(rows, tenant))[p] == multiset(GetPolicies(rows', tenant))[p]
    {
      GetPoliciesMultiset(rows, tenant, p);
      GetPoliciesMultiset(rows', tenant, p);
    }
    assert multiset(GetPolicies(rows, tenant)) == multiset(GetPolicies(rows', tenant));
  }

  /** More policies never allow more. */
  lemma MorePoliciesAllowLess(ps: seq<Policy>, more: seq<Policy>, action: Action, context: Context)
    requires WithinLimits(multiset(ps + more), action, context)
    ensures WithinLimits(multiset(ps), action, context)
  {
    NoObjectionMeansWithinLimits(ps + more, action, context);
    NoObjectionMeansWithinLimits(ps, action, context);
  }

  /** Checkout and the cart tools name actions the engine has no rule for, so no policy
      ever stops them; only a failed query does. */
  lemma OtherActionsAreNeverDenied(ps: seq<Policy>, context: Context)
    ensures WithinLimits(multiset(ps), OtherAction, context)
  {
  }
}
