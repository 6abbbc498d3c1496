/** The usage record of the home page: a subscription tier and a counter of
    remaining free prompts, how it is read back from a user's profile, and the
    two display conditions derived from it. */
module Quota {

  datatype Option<T> = None | Some(value: T)

  datatype Tier = Free | Pro | Enterprise

  /** `UserMetadata`: the tier and the remaining-prompt counter. The counter is
      a JavaScript number; it is modelled as an exact integer, which a double
      matches while -2^53 < counter <= 2^53. */
  datatype Usage = Usage(tier: Tier, remainingTokens: int)

  /** The free allowance: the starting counter, and the value a missing or zero
      stored counter falls back to. */
  const FreeAllowance: int := 3

  /** The record the page holds before anything is loaded. */
  const InitialUsage: Usage := Usage(Free, FreeAllowance)

  /** A user profile's metadata as the page reads it: either field may be
      absent, for a user whose profile was never written by this page. */
  datatype Metadata = Metadata(tier: Option<Tier>, remainingTokens: Option<int>)

  /** A profile nothing has been written to. */
  const EmptyMetadata: Metadata := Metadata(None, None)

  /** The metadata the page writes after an accepted prompt: the whole record. */
  function ToProfile(u: Usage): (m: Metadata)
    ensures m.tier == Some(u.tier) && m.remainingTokens == Some(u.remainingTokens)
  {
    Metadata(Some(u.tier), Some(u.remainingTokens))
  }

  /** The record rebuilt from profile metadata with `||` defaults: an absent
      tier reads as free, and an absent counter or one that is 0 (falsy in
      JavaScript) reads as the full free allowance. */
  function FromProfile(m: Metadata): (u: Usage)
    ensures m.tier.Some? ==> u.tier == m.tier.value
    ensures m.tier.None? ==> u.tier == Free
    ensures u.remainingTokens != 0
    ensures u.remainingTokens == FreeAllowance || m.remainingTokens == Some(u.remainingTokens)
    ensures m.remainingTokens.Some? && m.remainingTokens.value != 0 ==> u.remainingTokens == m.remainingTokens.value
  {
    Usage(
      if m.tier.Some? then m.tier.value else Free,
      if m.remainingTokens.Some? && m.remainingTokens.value != 0 then m.remainingTokens.value else FreeAllowance)
  }

  /** A record written to the profile reads back unchanged exactly when its
      counter is not 0; a free user who used the last prompt reads back with
      the full allowance again. */
  lemma ProfileRoundTrip(u: Usage)
    ensures FromProfile(ToProfile(u)) == u <==> u.remainingTokens != 0
    ensures u.remainingTokens == 0 ==> FromProfile(ToProfile(u)) == u.(remainingTokens := FreeAllowance)
  {
  }

  /** A fresh profile reads as the initial record. */
  lemma EmptyProfileIsInitial()
    ensures FromProfile(EmptyMetadata) == InitialUsage
  {
  }

  /** The submit guard that sends a free user to the pricing page. */
  predicate Exhausted(u: Usage)
    ensures Exhausted(u) ==> u.tier == Free
  {
    u.remainingTokens <= 0 && u.tier == Free
  }

  /** The record after one accepted prompt: same tier, one fewer remaining. */
  function Consumed(u: Usage): (v: Usage)
    ensures v.tier == u.tier && v.remainingTokens == u.remainingTokens - 1
  {
    u.(remainingTokens := u.remainingTokens - 1)
  }

  /** The usage indicator shows "Free Tokens: n/3" (rather than the unlimited
      badge) exactly for the free tier. */
  predicate ShowsFreeCounter(u: Usage)
    ensures !ShowsFreeCounter(u) <==> u.tier == Pro || u.tier == Enterprise
  {
    u.tier == Free
  }

  /** The upgrade banner shows for a free user with at most one prompt left. */
  predicate ShowsUpgradeBanner(u: Usage)
    ensures ShowsUpgradeBanner(u) <==> ShowsFreeCounter(u) && u.remainingTokens <= 1
  {
    u.tier == Free && u.remainingTokens <= 1
  }

  /** How the two display conditions relate: the banner
      implies the free counter, an exhausted user always sees the banner, and
      paid tiers never see either. */
  lemma DisplayPolicy(u: Usage)
    ensures ShowsUpgradeBanner(u) ==> ShowsFreeCounter(u)
    ensures Exhausted(u) ==> ShowsUpgradeBanner(u)
    ensures u.tier != Free ==> !ShowsFreeCounter(u) && !ShowsUpgradeBanner(u)
  {
  }

  /** Only the free tier is ever exhausted, whatever the counter holds. */
  lemma PaidTierNeverExhausted(u: Usage)
    ensures u.tier != Free ==> !Exhausted(u)
  {
  }

  /** Consuming a prompt keeps the tier, lowers the counter by one and, for a
      free record that passed the guard with a non-negative counter, leaves the
      counter non-negative. */
  lemma ConsumeKeepsFreeCounterNonNegative(u: Usage)
    requires u.tier == Free && !Exhausted(u)
    ensures u.remainingTokens >= 1
    ensures Consumed(u).tier == Free && Consumed(u).remainingTokens >= 0
    ensures Consumed(u).remainingTokens == u.remainingTokens - 1
  {
  }
}
