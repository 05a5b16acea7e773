/** The subscription-tier breakdown and the revenue estimate built on it. The
    overview and the subscriptions page compute both the same way:

      const tiers = { free: 0, premium: 0, pro: 0 }
      rows.forEach(p => { tiers[p.subscription_tier] = (tiers[p.subscription_tier] || 0) + 1 })
      const mrr = tiers.premium * 12.99 + tiers.pro * 24.99 */
module Tiers {
  import opened Records
  import opened Counting
  import Rates

  const TierOrder: seq<string> := ["free", "premium", "pro"]

  function TierKeys(ps: seq<Profile>): (ks: seq<string>)
    ensures |ks| == |ps|
    ensures forall i :: 0 <= i < |ps| ==> ks[i] == ps[i].tier
  {
    seq(|ps|, i requires 0 <= i < |ps| => ps[i].tier)
  }

  /** The number of profiles whose subscription_tier is t. */
  function TierCount(ps: seq<Profile>, t: string): nat
  {
    Occurrences(TierKeys(ps), t)
  }

  /** The tier dictionary after the `forEach`. */
  function TierTally(ps: seq<Profile>): seq<Entry>
  {
    Tally(Zeros(TierOrder), TierKeys(ps))
  }

  lemma TierOrderDistinct()
    ensures Distinct(TierOrder)
  {
  }

  /** The tier `forEach`: free, premium and pro always lead, each key counts exactly
      the profiles on that tier, and the counts add up to the number of profiles. */
  method CountTiers(ps: seq<Profile>) returns (c: seq<Entry>)
    ensures c == TierTally(ps)
    ensures |c| >= 3 && KeysOf(c)[..3] == TierOrder
    ensures Distinct(KeysOf(c))
    ensures Total(c) == |ps|
    ensures forall t :: Get(c, t) == TierCount(ps, t)
  {
    c := CountKeys(Zeros(TierOrder), TierKeys(ps));
    TierOrderDistinct();
    SeededTally(TierOrder, TierKeys(ps));
  }

  /** The estimated monthly recurring revenue, in cents. */
  function MonthlyRevenueCents(ps: seq<Profile>): (r: nat)
    ensures r == Rates.PremiumPriceCents * TierCount(ps, "premium")
               + Rates.ProPriceCents * TierCount(ps, "pro")
  {
    var c := TierTally(ps);
    TierOrderDistinct();
    SeededTally(TierOrder, TierKeys(ps));
    Rates.PremiumPriceCents * Get(c, "premium") + Rates.ProPriceCents * Get(c, "pro")
  }

  /** Paying profiles are at most all profiles. */
  lemma PayingAtMostAll(ps: seq<Profile>)
    ensures TierCount(ps, "premium") + TierCount(ps, "pro") <= |ps|
  {
    OccurrencesOfTwo(TierKeys(ps), "premium", "pro");
  }
}
