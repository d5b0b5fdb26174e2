/** The pricing page: the price shown for the chosen billing cadence, the saving
    of yearly billing, the subscribe button and when it is disabled. */
module Pricing {
  import opened Wrappers
  import opened Subscription
  import opened Access
  import Auth

  /** `getPrice(plan)`: the yearly price when billed yearly, the monthly one otherwise.
      Every catalog price is positive, and a catalog year costs eight months. */
  function GetPrice(plan: Plan, isYearly: bool): (r: int)
    ensures plan in Plans ==> r > 0
    ensures plan in Plans && isYearly ==> r == 8 * plan.monthlyPrice
  {
    if isYearly then plan.yearlyPrice else plan.monthlyPrice
  }

  /** `getSavings(plan)`: nothing when billed monthly; when billed yearly, what a year of
      monthly payments costs beyond the yearly price. */
  function GetSavings(plan: Plan, isYearly: bool): (r: int)
    ensures !isYearly ==> r == 0
    ensures isYearly ==> GetPrice(plan, true) + r == 12 * GetPrice(plan, false)
  {
    if !isYearly then 0 else plan.monthlyPrice * 12 - plan.yearlyPrice
  }

  /** In the catalog a year costs as much as eight months: the saving is four months' price,
      120 on the basic plan and 1200 on the premium plan. */
  lemma CatalogSavings()
    ensures forall p :: p in Plans ==> p.yearlyPrice == 8 * p.monthlyPrice
    ensures forall p :: p in Plans ==> GetSavings(p, true) == 4 * GetPrice(p, false) > 0
    ensures GetSavings(BasicPlan, true) == 120 && GetSavings(PremiumPlan, true) == 1200
  {
    assert Plans == [BasicPlan, PremiumPlan];
  }

  /** `handleSubscribe(planId)`: refused without a user; otherwise the plan is taken with the
      cadence of the toggle, starting now, and stored. */
  method HandleSubscribe(user: Option<Auth.User>, store: SubscriptionStore, id: PlanId, isYearly: bool, now: int)
    returns (v: Verdict)
    modifies store
    ensures v == (if user.None? then NeedLogin else Granted)
    ensures v == Granted ==> store.userSubscription == Subscribed(id, isYearly, now) && store.Persisted()
    ensures v == NeedLogin ==> store.userSubscription == old(store.userSubscription) && store.saved == old(store.saved)
  {
    if user.None? {
      return NeedLogin;
    }
    store.Subscribe(id, isYearly, now);
    v := Granted;
  }

  /** The `disabled` flag of a plan's button: the plan is the one already held. */
  predicate SubscribeDisabled(s: UserSubscription, id: PlanId) {
    s.planId == Some(id)
  }

  /** Without a plan every button is enabled; with one, exactly that plan's button is
      disabled, so at most one of the two ever is; after subscribing to a plan it is the
      one that is disabled, whatever the cadence. */
  lemma DisabledButtons(s: UserSubscription, id: PlanId, isYearly: bool, now: int)
    ensures s.planId.None? ==> !SubscribeDisabled(s, Basic) && !SubscribeDisabled(s, Premium)
    ensures !(SubscribeDisabled(s, Basic) && SubscribeDisabled(s, Premium))
    ensures forall p :: SubscribeDisabled(Subscribed(id, isYearly, now), p) <==> p == id
  {
  }
}
