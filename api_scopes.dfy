/** Scope names, the scope check and the rate-limit tier table (src/types/api-keys.ts). */
module ApiScopes {
  import opened Wrappers
  import opened Strings

  /** The five scope names a key may carry, in declaration order. */
  function ScopeNames(): (r: seq<string>)
    ensures |r| == 5
    ensures forall i, j :: 0 <= i < j < |r| ==> r[i] != r[j]
    ensures "admin" in r && "write:events" in r && "read:sessions" in r
  {
    ["write:events", "read:events", "read:sessions", "read:analytics", "admin"]
  }

  predicate IsKnownScope(s: string) {
    s in ScopeNames()
  }

  /** `required.every((scope) => keyScopes.includes(scope))`. */
  function Every(required: seq<string>, keyScopes: seq<string>): (b: bool)
    ensures b <==> forall i :: 0 <= i < |required| ==> required[i] in keyScopes
    decreases |required|
  {
    if |required| == 0 then true
    else required[0] in keyScopes && Every(required[1..], keyScopes)
  }

  /** A key with the `admin` scope may do anything; otherwise it needs every required scope. */
  function HasRequiredScopes(keyScopes: seq<string>, required: seq<string>): (b: bool)
    ensures "admin" in keyScopes ==> b
    ensures "admin" !in keyScopes ==> (b <==> forall s :: s in required ==> s in keyScopes)
  {
    "admin" in keyScopes || Every(required, keyScopes)
  }

  lemma EmptyRequirementAlwaysHolds(keyScopes: seq<string>)
    ensures HasRequiredScopes(keyScopes, [])
  {
  }

  /** Granting more scopes never revokes a permission. */
  lemma ScopesMonotone(keyScopes: seq<string>, more: seq<string>, required: seq<string>)
    requires HasRequiredScopes(keyScopes, required)
    requires forall s :: s in keyScopes ==> s in more
    ensures HasRequiredScopes(more, required)
  {
  }

  /** Asking for fewer scopes never turns a grant into a refusal. */
  lemma RequirementAntitone(keyScopes: seq<string>, required: seq<string>, fewer: seq<string>)
    requires HasRequiredScopes(keyScopes, required)
    requires forall s :: s in fewer ==> s in required
    ensures HasRequiredScopes(keyScopes, fewer)
  {
  }

  function InsufficientMessage(required: seq<string>): string {
    "Insufficient permissions. Required scopes: " + Join(required, ", ")
  }

  /** None when the key's scopes cover the requirement, otherwise the refusal message. An empty
      list of scopes is present (truthy), only an absent one is "No scopes available". */
  function RequireScopes(scopes: Option<seq<string>>, required: seq<string>): (r: Option<string>)
    ensures scopes.None? ==> r == Some("No scopes available")
    ensures scopes.Some? ==> (r.None? <==> HasRequiredScopes(scopes.value, required))
    ensures scopes.Some? && r.Some? ==> r.value == InsufficientMessage(required)
  {
    if scopes.None? then Some("No scopes available")
    else if !HasRequiredScopes(scopes.value, required) then Some(InsufficientMessage(required))
    else None
  }

  datatype TierLimits = TierLimits(requestsPerMinute: int, requestsPerHour: int)

  /** `RATE_LIMIT_TIERS[name]` for the three declared tiers. */
  function RateLimitTier(name: string): (r: Option<TierLimits>)
    ensures r.Some? <==> name == "standard" || name == "premium" || name == "ingestion"
    ensures name == "standard" ==> r == Some(TierLimits(60, 1000))
    ensures name == "premium" ==> r == Some(TierLimits(200, 5000))
    ensures name == "ingestion" ==> r == Some(TierLimits(200, 10000))
  {
    if name == "standard" then Some(TierLimits(60, 1000))
    else if name == "premium" then Some(TierLimits(200, 5000))
    else if name == "ingestion" then Some(TierLimits(200, 10000))
    else None
  }

  /** No tier is stricter than the standard one, and each hourly budget is at least the
      per-minute one. */
  lemma TiersOrdered(name: string)
    requires RateLimitTier(name).Some?
    ensures var t := RateLimitTier(name).value; var s := RateLimitTier("standard").value;
            t.requestsPerMinute >= s.requestsPerMinute && t.requestsPerHour >= s.requestsPerHour
            && t.requestsPerHour >= t.requestsPerMinute
  {
  }
}
