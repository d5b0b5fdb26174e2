/** The check pages run before a metered action (signed in? subscribed? anything
    left?) and the usage update they make once the action is done. */
module Access {
  import opened Wrappers
  import opened Subscription

  /** What a handler decides: refused for one of these reasons, or done. */
  datatype Verdict = NeedLogin | NeedPlan | MissingInput | LimitReached | NotIncluded | Granted

  /** The two guards ahead of every subscriber-only action, in their order: a user, then a
      plan. The collections page shows its controls, and an author can be contacted,
      exactly when it grants. */
  function PlanGate(signedIn: bool, s: UserSubscription): (v: Verdict)
    ensures v == NeedLogin <==> !signedIn
    ensures v == NeedPlan <==> signedIn && s.planId.None?
    ensures v == Granted <==> signedIn && s.planId.Some?
  {
    if !signedIn then NeedLogin
    else if s.planId.None? then NeedPlan
    else Granted
  }

  /** The three guards in their order: a user, then a plan, then `getRemainingUsage(d) > 0`.
      Exactly one verdict applies, and the action is granted exactly when less than
      the plan's quota has been used. */
  function QuotaGate(signedIn: bool, s: UserSubscription, d: Dimension): (v: Verdict)
    ensures v == NeedLogin <==> !signedIn
    ensures v == NeedPlan <==> signedIn && s.planId.None?
    ensures v == LimitReached <==> signedIn && s.planId.Some? && Used(s, d) >= PlanQuota(s.planId.value, d)
    ensures v == Granted <==> signedIn && s.planId.Some? && Used(s, d) < PlanQuota(s.planId.value, d)
  {
    if !signedIn then NeedLogin
    else if s.planId.None? then NeedPlan
    else if GetRemainingUsage(s, d) <= 0 then LimitReached
    else Granted
  }

  /** The record after a granted action: `updateUsage({ <d>Used: <d>Used + 1 })`. One more
      use of `d` is counted; the other counters, the plan, the cadence and the expiry stay. */
  function Consume(s: UserSubscription, d: Dimension): (r: UserSubscription)
    ensures Used(r, d) == Used(s, d) + 1
    ensures forall e :: e != d ==> Used(r, e) == Used(s, e)
    ensures r.planId == s.planId && r.isYearly == s.isYearly && r.expiresAt == s.expiresAt
  {
    MergeUsage(s, d, Used(s, d) + 1);
    Merge(s, UsagePatch(d, Used(s, d) + 1))
  }

  /** A granted action spends exactly one unit of its own dimension and none of the others. */
  lemma ConsumeSpendsOne(s: UserSubscription, d: Dimension)
    requires GetRemainingUsage(s, d) > 0
    ensures GetRemainingUsage(Consume(s, d), d) == GetRemainingUsage(s, d) - 1
    ensures forall e :: e != d ==> GetRemainingUsage(Consume(s, d), e) == GetRemainingUsage(s, e)
    ensures Consume(s, d).planId == s.planId
  {
    MergeUsage(s, d, Used(s, d) + 1);
  }

  /** One attempt at a `d` action by a signed-in user: gated and, when granted, recorded.
      The plan stays, and the counter goes up by one exactly when the gate lets it through. */
  function Attempt(s: UserSubscription, d: Dimension): (r: UserSubscription)
    ensures r.planId == s.planId
    ensures Used(r, d) == if QuotaGate(true, s, d) == Granted then Used(s, d) + 1 else Used(s, d)
  {
    MergeUsage(s, d, Used(s, d) + 1);
    if QuotaGate(true, s, d) == Granted then Consume(s, d) else s
  }

  /** `n` attempts in a row. */
  function Attempts(s: UserSubscription, d: Dimension, n: nat): UserSubscription
    decreases n
  {
    if n == 0 then s else Attempt(Attempts(s, d, n - 1), d)
  }

  /** The counter part of GatedAttemptsStopAtQuota, by induction on the attempts: the plan
      stays, and the counter reaches `min(n, quota)`. */
  lemma {:induction false} AttemptsCount(id: PlanId, isYearly: bool, now: int, d: Dimension, n: nat)
    ensures var s := Attempts(Subscribed(id, isYearly, now), d, n);
      var q := PlanQuota(id, d);
      s.planId == Some(id) && Used(s, d) == (if n < q then n else q)
    decreases n
  {
    if n > 0 {
      AttemptsCount(id, isYearly, now, d, n - 1);
    }
  }

  /** From a fresh subscription, `n` gated attempts record `min(n, quota)` uses: the quota
      is spent one by one, and every attempt after it is refused without being recorded. */
  lemma GatedAttemptsStopAtQuota(id: PlanId, isYearly: bool, now: int, d: Dimension, n: nat)
    ensures var s := Attempts(Subscribed(id, isYearly, now), d, n);
      var q := PlanQuota(id, d);
      Used(s, d) == (if n < q then n else q) &&
      GetRemainingUsage(s, d) == (if n < q then q - n else 0) &&
      QuotaGate(true, s, d) == (if n < q then Granted else LimitReached)
  {
    AttemptsCount(id, isYearly, now, d, n);
  }
}
