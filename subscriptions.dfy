/** The subscriptions page (app/dashboard/subscriptions/page.js): revenue, trials
    about to end, recent cancellations, the conversion rate, the tier pie and the
    filtered subscriber table. */
module Subscriptions {
  import opened Records
  import opened Seqs
  import opened Counting
  import opened Tiers
  import opened Rates

  /** Annual recurring revenue, in cents: twelve months of the monthly estimate. */
  function AnnualRevenueCents(ps: seq<Profile>): (r: nat)
    ensures r == 12 * (PremiumPriceCents * TierCount(ps, "premium") + ProPriceCents * TierCount(ps, "pro"))
  {
    12 * MonthlyRevenueCents(ps)
  }

  predicate TrialEndsSoon(now: int, p: Profile)
  {
    p.trialEnd.Some? && now < p.trialEnd.value < DaysAfter(now, 3)
  }

  /** Profiles whose trial ends within the next three days (strictly after now and
      strictly before now + 3 days), in their original order and with their multiplicity. */
  function TrialsEndingSoon(now: int, ps: seq<Profile>): (r: seq<Profile>)
    ensures SubsequenceOf(r, ps)
    ensures forall p :: p in r ==> p.trialEnd.Some? && now < p.trialEnd.value < DaysAfter(now, 3)
    ensures forall p: Profile :: p.trialEnd.Some? && now < p.trialEnd.value < DaysAfter(now, 3) ==>
      multiset(r)[p] == multiset(ps)[p]
  {
    var keep := (p: Profile) => TrialEndsSoon(now, p);
    FilterFacts(ps, keep);
    Filter(ps, keep)
  }

  predicate CancelledRecently(now: int, p: Profile)
  {
    p.status == "cancelled" && p.updatedAt > DaysBefore(now, 30)
  }

  /** Profiles cancelled and last updated within the past 30 days. */
  function RecentlyCancelled(now: int, ps: seq<Profile>): (r: seq<Profile>)
    ensures SubsequenceOf(r, ps)
    ensures forall p :: p in r ==> p.status == "cancelled" && p.updatedAt > DaysBefore(now, 30)
    ensures forall p: Profile :: p.status == "cancelled" && p.updatedAt > DaysBefore(now, 30) ==>
      multiset(r)[p] == multiset(ps)[p]
  {
    var keep := (p: Profile) => CancelledRecently(now, p);
    FilterFacts(ps, keep);
    Filter(ps, keep)
  }

  /** The share of profiles on a paid tier, as tenths of a percent, rounded to the
      nearest; 0 when there are no profiles. */
  function ConversionTenths(ps: seq<Profile>): (r: nat)
    ensures |ps| == 0 ==> r == 0
    ensures |ps| > 0 ==>
      var paying := TierCount(ps, "premium") + TierCount(ps, "pro");
      2 * |ps| * r <= 2000 * paying + |ps| < 2 * |ps| * r + 2 * |ps|
    ensures r <= 1000
  {
    var c := TierTally(ps);
    TierOrderDistinct();
    SeededTally(TierOrder, TierKeys(ps));
    PayingAtMostAll(ps);
    RoundedRatio(Get(c, "premium") + Get(c, "pro"), |ps|, 1000)
  }

  /** pieData: exactly the three fixed tiers, in this order. */
  function PieSlices(ps: seq<Profile>): (r: seq<Entry>)
    ensures |r| == 3
    ensures KeysOf(r) == ["Free", "Premium", "Pro"]
    ensures r[0].count == TierCount(ps, "free")
    ensures r[1].count == TierCount(ps, "premium")
    ensures r[2].count == TierCount(ps, "pro")
  {
    var c := TierTally(ps);
    TierOrderDistinct();
    SeededTally(TierOrder, TierKeys(ps));
    [Entry("Free", Get(c, "free")), Entry("Premium", Get(c, "premium")), Entry("Pro", Get(c, "pro"))]
  }

  function KnownTierRows(ks: seq<string>): nat
  {
    Occurrences(ks, "free") + Occurrences(ks, "premium") + Occurrences(ks, "pro")
  }

  lemma {:induction false} KnownTiersCount(ks: seq<string>)
    ensures KnownTierRows(ks) <= |ks|
    ensures KnownTierRows(ks) == |ks| <==> forall i :: 0 <= i < |ks| ==> ks[i] in TierOrder
    decreases |ks|
  {
    if ks != [] {
      var init := ks[..|ks| - 1];
      KnownTiersCount(init);
      if KnownTierRows(ks) == |ks| {
        forall i | 0 <= i < |ks| ensures ks[i] in TierOrder {
          if i < |init| {
            assert ks[i] == init[i];
          }
        }
      }
      if forall i :: 0 <= i < |ks| ==> ks[i] in TierOrder {
        forall i | 0 <= i < |init| ensures init[i] in TierOrder {
          assert init[i] == ks[i];
        }
      }
    }
  }

  /** The three slices never exceed the profiles, and account for all of them exactly
      when every profile is on free, premium or pro. */
  lemma PieAccountsForProfiles(ps: seq<Profile>)
    ensures var r := PieSlices(ps);
      && r[0].count + r[1].count + r[2].count <= |ps|
      && (r[0].count + r[1].count + r[2].count == |ps| <==> forall i :: 0 <= i < |ps| ==> ps[i].tier in TierOrder)
  {
    KnownTiersCount(TierKeys(ps));
  }

  // ---------------------------------------------------------------------------
  // The subscriber table

  /** The row test for a filter other than 'all'. */
  predicate RowMatches(filter: string, p: Profile)
  {
    if filter == "paying" then p.tier != "free"
    else if filter == "trial" then p.status == "trial"
    else if filter == "cancelled" then p.status == "cancelled"
    else p.tier == filter
  }

  /** The rows shown for a filter: everything for 'all', otherwise the rows the
      filter selects, in their original order and with their multiplicity. */
  function Listing(filter: string, ps: seq<Profile>): (r: seq<Profile>)
    ensures filter == "all" ==> r == ps
    ensures SubsequenceOf(r, ps)
    ensures filter != "all" ==> forall p :: p in r ==> RowMatches(filter, p)
    ensures filter != "all" ==> forall p :: RowMatches(filter, p) ==> multiset(r)[p] == multiset(ps)[p]
  {
    if filter == "all" then
      SubsequenceOfSelf(ps);
      ps
    else
      var keep := (p: Profile) => RowMatches(filter, p);
      FilterFacts(ps, keep);
      Filter(ps, keep)
  }

  /** 'paying' and the 'free' tier split the subscribers between them: each profile is
      in exactly one of the two listings, as often as it occurs. */
  lemma PayingAndFreePartition(ps: seq<Profile>)
    ensures multiset(Listing("paying", ps)) + multiset(Listing("free", ps)) == multiset(ps)
    ensures |Listing("paying", ps)| + |Listing("free", ps)| == |ps|
  {
    FilterComplement(ps, (p: Profile) => RowMatches("paying", p), (p: Profile) => RowMatches("free", p));
  }

  /** Filtering by a tier name shows exactly the profiles the tier count counts. */
  lemma {:induction false} ListingCountsTier(ps: seq<Profile>, t: string)
    requires t !in {"all", "paying", "trial", "cancelled"}
    ensures |Listing(t, ps)| == TierCount(ps, t)
    decreases |ps|
  {
    var keep := (p: Profile) => RowMatches(t, p);
    if ps != [] {
      var init, last := ps[..|ps| - 1], ps[|ps| - 1];
      assert ps == init + [last];
      FilterConcat(init, [last], keep);
      ListingCountsTier(init, t);
      assert TierKeys(ps)[..|ps| - 1] == TierKeys(init);
    }
  }
}
