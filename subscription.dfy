/** The entitlement store: a fixed catalog of two plans, the user's subscription
    record with its four usage counters, the two lookups that pages gate their
    actions on, and the store object whose operations replace the record and
    write it to the browser's storage. */
module Subscription {
  import opened Wrappers

  datatype PlanId = Basic | Premium

  /** The four metered actions, one quota and one usage counter each. */
  datatype Dimension = Collections | AiCollections | Likes | Views

  /** The keys of a plan's feature table: a quota, or one of the two on/off features. */
  datatype Feature = Quota(dim: Dimension) | DownloadCollections | ViewUserProfiles

  datatype Features = Features(
    collections: int,
    aiCollections: int,
    likes: int,
    views: int,
    downloadCollections: bool,
    viewUserProfiles: bool)

  datatype Plan = Plan(id: PlanId, name: string, monthlyPrice: int, yearlyPrice: int, features: Features)

  const BasicPlan: Plan := Plan(Basic, "Базовый", 30, 240, Features(100, 1, 10, 1000, false, false))
  const PremiumPlan: Plan := Plan(Premium, "Премиум", 300, 2400, Features(1000, 200, 100, 10000, true, true))

  /** The catalog, basic before premium. It is never changed. */
  const Plans: seq<Plan> := [BasicPlan, PremiumPlan]

  /** An expiry date: the calendar date `months` months after the instant `from` (in ms). */
  datatype Expiry = MonthsAfter(from: int, months: int)

  datatype UserSubscription = UserSubscription(
    planId: Option<PlanId>,
    isYearly: bool,
    expiresAt: Option<Expiry>,
    collectionsUsed: int,
    aiCollectionsUsed: int,
    likesUsed: int,
    viewsUsed: int)

  /** The record before any subscription, and after a cancellation. */
  const NoSubscription: UserSubscription := UserSubscription(None, false, None, 0, 0, 0, 0)

  /** A `Partial<UserSubscription>`: each field either absent or given a new value. */
  datatype SubscriptionPatch = SubscriptionPatch(
    planId: Option<Option<PlanId>>,
    isYearly: Option<bool>,
    expiresAt: Option<Option<Expiry>>,
    collectionsUsed: Option<int>,
    aiCollectionsUsed: Option<int>,
    likesUsed: Option<int>,
    viewsUsed: Option<int>)

  const EmptyPatch: SubscriptionPatch := SubscriptionPatch(None, None, None, None, None, None, None)

  /** The patch `{ <d>Used: value }` that pages pass to `updateUsage`. */
  function UsagePatch(d: Dimension, value: int): SubscriptionPatch {
    match d
    case Collections => EmptyPatch.(collectionsUsed := Some(value))
    case AiCollections => EmptyPatch.(aiCollectionsUsed := Some(value))
    case Likes => EmptyPatch.(likesUsed := Some(value))
    case Views => EmptyPatch.(viewsUsed := Some(value))
  }

  /** `{ ...s, ...u }`. */
  function Merge(s: UserSubscription, u: SubscriptionPatch): UserSubscription {
    UserSubscription(
      u.planId.GetOr(s.planId),
      u.isYearly.GetOr(s.isYearly),
      u.expiresAt.GetOr(s.expiresAt),
      u.collectionsUsed.GetOr(s.collectionsUsed),
      u.aiCollectionsUsed.GetOr(s.aiCollectionsUsed),
      u.likesUsed.GetOr(s.likesUsed),
      u.viewsUsed.GetOr(s.viewsUsed))
  }

  /** `features[d]` for a quota key. */
  function Limit(f: Features, d: Dimension): int {
    match d
    case Collections => f.collections
    case AiCollections => f.aiCollections
    case Likes => f.likes
    case Views => f.views
  }

  /** `userSubscription[`${d}Used`]`. */
  function Used(s: UserSubscription, d: Dimension): int {
    match d
    case Collections => s.collectionsUsed
    case AiCollections => s.aiCollectionsUsed
    case Likes => s.likesUsed
    case Views => s.viewsUsed
  }

  /** `plans.find(p => p.id === id)`: the first plan with that id, or none. */
  function FindPlan(plans: seq<Plan>, id: PlanId): (r: Option<Plan>)
    ensures r.Some? ==> r.value.id == id && exists i :: 0 <= i < |plans| && plans[i] == r.value
    ensures r.Some? <==> exists i :: 0 <= i < |plans| && plans[i].id == id
    decreases |plans|
  {
    if plans == [] then None
    else if plans[0].id == id then Some(plans[0])
    else
      var r := FindPlan(plans[1..], id);
      assert forall i :: 0 < i < |plans| ==> plans[i] == plans[1..][i - 1];
      r
  }

  /** The catalog entry of a plan id. */
  function CatalogPlan(id: PlanId): (p: Plan)
    ensures p.id == id && p in Plans
  {
    match id
    case Basic => Plans[0]
    case Premium => Plans[1]
  }

  /** The catalog has every plan id, so the `!plan` fallbacks of the lookups are never taken. */
  lemma FindPlanInCatalog(id: PlanId)
    ensures FindPlan(Plans, id) == Some(CatalogPlan(id))
  {
    assert Plans[0] == BasicPlan && Plans[1] == PremiumPlan;
    assert Plans[1..] == [PremiumPlan];
  }

  /** The quota a plan grants in dimension `d`. */
  function PlanQuota(id: PlanId, d: Dimension): (q: int)
    ensures q > 0
  {
    Limit(CatalogPlan(id).features, d)
  }

  /** `getRemainingUsage(d)`: how many more `d` actions the subscription allows.
      Never negative; nothing without a plan; with a plan, something exactly when
      less than the quota has been used, and then the unused part of the quota. */
  function GetRemainingUsage(s: UserSubscription, d: Dimension): (r: int)
    ensures r >= 0
    ensures s.planId.None? ==> r == 0
    ensures s.planId.Some? ==> (r > 0 <==> Used(s, d) < PlanQuota(s.planId.value, d))
    ensures s.planId.Some? && r > 0 ==> r + Used(s, d) == PlanQuota(s.planId.value, d)
    ensures s.planId.Some? && Used(s, d) >= 0 ==> r <= PlanQuota(s.planId.value, d)
  {
    match s.planId
    case None => 0
    case Some(id) =>
      FindPlanInCatalog(id);
      match FindPlan(Plans, id)
      case None => 0
      case Some(plan) =>
        var left := Limit(plan.features, d) - Used(s, d);
        if left > 0 then left else 0
  }

  /** A feature-table entry read as a condition: JavaScript truthiness of a quota, the flag itself otherwise. */
  function Enabled(f: Features, feature: Feature): bool {
    match feature
    case Quota(d) => Limit(f, d) != 0
    case DownloadCollections => f.downloadCollections
    case ViewUserProfiles => f.viewUserProfiles
  }

  /** `canUseFeature(feature)`: false without a plan; otherwise the plan's entry for that feature. */
  function CanUseFeature(s: UserSubscription, feature: Feature): (r: bool)
    ensures s.planId.None? ==> !r
    ensures s.planId.Some? ==> (r <==> Enabled(CatalogPlan(s.planId.value).features, feature))
  {
    match s.planId
    case None => false
    case Some(id) =>
      FindPlanInCatalog(id);
      match FindPlan(Plans, id)
      case None => false
      case Some(plan) => Enabled(plan.features, feature)
  }

  /** Downloading collections and viewing author profiles come with premium and with nothing else. */
  lemma PremiumOnlyFeatures(s: UserSubscription)
    ensures CanUseFeature(s, DownloadCollections) <==> s.planId == Some(Premium)
    ensures CanUseFeature(s, ViewUserProfiles) <==> s.planId == Some(Premium)
  {
  }

  /** Every quota is a positive number, so every quota key reads as enabled under either plan. */
  lemma QuotaKeysEnabled(s: UserSubscription, d: Dimension)
    requires s.planId.Some?
    ensures CanUseFeature(s, Quota(d))
  {
  }

  /** Neither lookup reads the expiry date or the billing cadence. */
  lemma LookupsIgnoreExpiry(s: UserSubscription, expiresAt: Option<Expiry>, isYearly: bool, d: Dimension, f: Feature)
    ensures GetRemainingUsage(s.(expiresAt := expiresAt, isYearly := isYearly), d) == GetRemainingUsage(s, d)
    ensures CanUseFeature(s.(expiresAt := expiresAt, isYearly := isYearly), f) == CanUseFeature(s, f)
  {
  }

  /** The record `subscribe(id, isYearly)` writes at time `now`: the chosen plan and cadence,
      expiry twelve months ahead when yearly and one month ahead otherwise, and every
      counter at zero, so that the whole quota of every dimension is available. */
  function Subscribed(id: PlanId, isYearly: bool, now: int): (s: UserSubscription)
    ensures s.planId == Some(id) && s.isYearly == isYearly
    ensures s.expiresAt == Some(MonthsAfter(now, if isYearly then 12 else 1))
    ensures forall d :: Used(s, d) == 0 && GetRemainingUsage(s, d) == PlanQuota(id, d)
  {
    UserSubscription(Some(id), isYearly, Some(MonthsAfter(now, if isYearly then 12 else 1)), 0, 0, 0, 0)
  }

  /** After a cancellation no feature is usable and nothing remains in any dimension. */
  lemma CancelRevokesEverything(f: Feature, d: Dimension)
    ensures !CanUseFeature(NoSubscription, f)
    ensures GetRemainingUsage(NoSubscription, d) == 0
    ensures forall e :: Used(NoSubscription, e) == 0
  {
  }

  /** An usage patch changes that one counter and nothing else in the record. */
  lemma MergeUsage(s: UserSubscription, d: Dimension, value: int)
    ensures Used(Merge(s, UsagePatch(d, value)), d) == value
    ensures forall e :: e != d ==> Used(Merge(s, UsagePatch(d, value)), e) == Used(s, e)
    ensures Merge(s, UsagePatch(d, value)).planId == s.planId
    ensures Merge(s, UsagePatch(d, value)).isYearly == s.isYearly
    ensures Merge(s, UsagePatch(d, value)).expiresAt == s.expiresAt
  {
  }

  /** The empty patch changes nothing, and applying a patch twice is applying it once. */
  lemma MergeLaws(s: UserSubscription, u: SubscriptionPatch)
    ensures Merge(s, EmptyPatch) == s
    ensures Merge(Merge(s, u), u) == Merge(s, u)
  {
  }

  /** The subscription provider: the current record and what the browser's storage holds
      under the subscription key. */
  class SubscriptionStore {
    var userSubscription: UserSubscription
    var saved: Option<UserSubscription>

    /** Storage holds the current record: true after every operation below. */
    predicate Persisted()
      reads this
    {
      saved == Some(userSubscription)
    }

    /** Mounting the provider: the initial state, with storage as it was left. */
    constructor (persisted: Option<UserSubscription>)
      ensures userSubscription == NoSubscription && saved == persisted
    {
      userSubscription := NoSubscription;
      saved := persisted;
    }

    /** The mount effect: a stored record, if any, becomes the current one. */
    method RestoreOnLoad()
      modifies this
      ensures saved == old(saved)
      ensures userSubscription == old(saved).GetOr(old(userSubscription))
    {
      if saved.Some? {
        userSubscription := saved.value;
      }
    }

    /** A page reload: a fresh provider over the same storage, after its mount effect. */
    method Reload() returns (next: SubscriptionStore)
      ensures fresh(next)
      ensures next.saved == saved
      ensures next.userSubscription == saved.GetOr(NoSubscription)
      ensures Persisted() ==> next.userSubscription == userSubscription && next.Persisted()
    {
      next := new SubscriptionStore(saved);
      next.RestoreOnLoad();
    }

    method Subscribe(id: PlanId, isYearly: bool, now: int)
      modifies this
      ensures userSubscription == Subscribed(id, isYearly, now)
      ensures Persisted()
    {
      userSubscription := Subscribed(id, isYearly, now);
      saved := Some(userSubscription);
    }

    method CancelSubscription()
      modifies this
      ensures userSubscription == NoSubscription
      ensures Persisted()
    {
      userSubscription := NoSubscription;
      saved := Some(userSubscription);
    }

    method UpdateUsage(updates: SubscriptionPatch)
      modifies this
      ensures userSubscription == Merge(old(userSubscription), updates)
      ensures Persisted()
    {
      userSubscription := Merge(userSubscription, updates);
      saved := Some(userSubscription);
    }
  }
}
