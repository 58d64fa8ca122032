/**
  The quota gate of the text generators and the defaults the auth middleware applies
  when it reads a user's plan and free usage from the identity provider's metadata.
*/
module Quota {

  type UserId = string

  const Premium := "premium"
  const Free := "free"
  /** The number of free generations a non-premium account may consume. */
  const FreeLimit := 10
  const LimitMessage := "Limit reached. Upgrade to continue!"

  /** `plan !== 'premium' && free_usage >= 10`: the request is refused before any provider call. */
  function LimitReached(plan: string, freeUsage: int): (refused: bool)
    ensures plan == Premium ==> !refused
    ensures plan != Premium ==> (refused <==> freeUsage >= FreeLimit)
  {
    plan != Premium && freeUsage >= FreeLimit
  }

  /** `publicMetadata.plan || 'free'`: a missing or empty plan reads as the free plan. */
  function PlanOf(plans: map<UserId, string>, u: UserId): (plan: string)
    ensures plan != ""
    ensures u in plans && plans[u] != "" ==> plan == plans[u]
    ensures u !in plans || plans[u] == "" ==> plan == Free
  {
    if u in plans && plans[u] != "" then plans[u] else Free
  }

  /** `privateMetadata.free_usage || 0`: a missing counter reads as zero. */
  function FreeUsageOf(usage: map<UserId, int>, u: UserId): (n: int)
    ensures u in usage ==> n == usage[u]
    ensures u !in usage ==> n == 0
  {
    if u in usage then usage[u] else 0
  }

  /** A new account (no metadata yet) is on the free plan with its whole allowance left. */
  lemma NewAccountMayGenerate(plans: map<UserId, string>, usage: map<UserId, int>, u: UserId)
    requires u !in plans && u !in usage
    ensures !LimitReached(PlanOf(plans, u), FreeUsageOf(usage, u))
  {
  }
}
