/** The users page (app/dashboard/users/page.js): the search-and-tier filter over
    the user listing and the local copy of a user after a subscription change. */
module UsersPage {
  import opened Records
  import opened Seqs
  import DataRoute

  // ---------------------------------------------------------------------------
  // Case-insensitive search

  /** `toLowerCase` on one character, for the ASCII letters. */
  function LowerChar(c: char): char
  {
    if 'A' <= c <= 'Z' then (c as int + 32) as char else c
  }

  function Lower(s: string): (r: string)
    ensures |r| == |s|
    ensures forall i :: 0 <= i < |s| ==> r[i] == LowerChar(s[i])
  {
    seq(|s|, i requires 0 <= i < |s| => LowerChar(s[i]))
  }

  lemma LowerIdempotent(s: string)
    ensures Lower(Lower(s)) == Lower(s)
  {
  }

  /** sub occurs in s starting at position i. */
  ghost predicate OccursAt(s: string, sub: string, i: int)
  {
    0 <= i && i + |sub| <= |s| && s[i..i + |sub|] == sub
  }

  /** `s.includes(sub)`. */
  function Includes(s: string, sub: string): (b: bool)
    ensures b <==> exists i :: OccursAt(s, sub, i)
    decreases |s|
  {
    if |sub| > |s| then
      assert forall i :: !OccursAt(s, sub, i);
      false
    else if s[..|sub|] == sub then
      assert OccursAt(s, sub, 0);
      true
    else
      var r := Includes(s[1..], sub);
      IncludesShift(s, sub);
      r
  }

  /** sub occurs in s away from the start exactly when it occurs in s[1..]. */
  lemma IncludesShift(s: string, sub: string)
    requires |sub| <= |s| && s[..|sub|] != sub
    ensures (exists i :: OccursAt(s, sub, i)) <==> (exists i :: OccursAt(s[1..], sub, i))
  {
    if exists i :: OccursAt(s, sub, i) {
      var i :| OccursAt(s, sub, i);
      assert i != 0;
      assert s[1..][i - 1..i - 1 + |sub|] == s[i..i + |sub|];
      assert OccursAt(s[1..], sub, i - 1);
    }
    if exists i :: OccursAt(s[1..], sub, i) {
      var i :| OccursAt(s[1..], sub, i);
      assert s[i + 1..i + 1 + |sub|] == s[1..][i..i + |sub|];
      assert OccursAt(s, sub, i + 1);
    }
  }

  /** matchesSearch: an empty search matches everyone; otherwise the lower-cased search
      must occur in the lower-cased display name or e-mail (a missing one reads as ''). */
  predicate MatchesSearch(search: string, p: Profile)
  {
    || search == ""
    || Includes(Lower(OrElse(p.displayName, "")), Lower(search))
    || Includes(Lower(OrElse(p.email, "")), Lower(search))
  }

  /** matchesTier */
  predicate MatchesTier(filterTier: string, p: Profile)
  {
    filterTier == "all" || p.tier == filterTier
  }

  predicate Shown(search: string, filterTier: string, u: DataRoute.UserRow)
  {
    MatchesSearch(search, u.profile) && MatchesTier(filterTier, u.profile)
  }

  /** The users shown: those matching both the search and the tier filter, in the
      listing's order and with their multiplicity. */
  function Filtered(search: string, filterTier: string, users: seq<DataRoute.UserRow>): (r: seq<DataRoute.UserRow>)
    ensures SubsequenceOf(r, users)
    ensures forall u :: u in r ==> Shown(search, filterTier, u)
    ensures forall u :: Shown(search, filterTier, u) ==> multiset(r)[u] == multiset(users)[u]
    ensures search == "" && filterTier == "all" ==> r == users
  {
    var keep := (u: DataRoute.UserRow) => Shown(search, filterTier, u);
    FilterFacts(users, keep);
    FilterKeepsAllWhenUnfiltered(search, filterTier, users);
    Filter(users, keep)
  }

  lemma FilterKeepsAllWhenUnfiltered(search: string, filterTier: string, users: seq<DataRoute.UserRow>)
    ensures search == "" && filterTier == "all" ==>
      Filter(users, (u: DataRoute.UserRow) => Shown(search, filterTier, u)) == users
  {
    if search == "" && filterTier == "all" {
      FilterKeepsAll(users, (u: DataRoute.UserRow) => Shown(search, filterTier, u));
    }
  }

  /** The search ignores the case of what is typed, and a user is found by their whole
      display name or e-mail, typed in any case. */
  lemma SearchFacts(search: string, p: Profile)
    ensures MatchesSearch(search, p) <==> MatchesSearch(Lower(search), p)
    ensures p.displayName.Some? ==> MatchesSearch(p.displayName.value, p)
    ensures p.email.Some? ==> MatchesSearch(p.email.value, p)
  {
    LowerIdempotent(search);
    if p.displayName.Some? && p.displayName.value != "" {
      assert OccursAt(Lower(p.displayName.value), Lower(p.displayName.value), 0);
    }
    if p.email.Some? && p.email.value != "" {
      assert OccursAt(Lower(p.email.value), Lower(p.email.value), 0);
    }
  }

  // ---------------------------------------------------------------------------
  // updateSubscription(userId, tier, status)

  /** `setUsers(users.map(u => u.id === userId ? { ...u, subscription_tier: tier,
      subscription_status: status } : u))` */
  function SubscriptionSetLocally(users: seq<DataRoute.UserRow>, userId: string, tier: string, status: string): (r: seq<DataRoute.UserRow>)
    ensures |r| == |users|
    ensures forall i :: 0 <= i < |users| ==>
      && r[i].roundsCount == users[i].roundsCount
      && r[i].swingsCount == users[i].swingsCount
  {
    seq(|users|, i requires 0 <= i < |users| =>
      if users[i].profile.id == userId then users[i].(profile := DataRoute.WithSubscription(users[i].profile, tier, status))
      else users[i])
  }

  function ProfilesOf(users: seq<DataRoute.UserRow>): (ps: seq<Profile>)
    ensures |ps| == |users| && forall i :: 0 <= i < |users| ==> ps[i] == users[i].profile
  {
    seq(|users|, i requires 0 <= i < |users| => users[i].profile)
  }

  /** The page's copy of the listing holds, after the change, exactly the profiles the
      store now holds, with the counts as they were. */
  lemma LocalListingMatchesStore(users: seq<DataRoute.UserRow>, userId: string, tier: string, status: string)
    ensures ProfilesOf(SubscriptionSetLocally(users, userId, tier, status))
         == DataRoute.SubscriptionUpdated(ProfilesOf(users), userId, tier, status)
  {
  }

  /** The detail panel: `userDetail?.profile?.id === userId` picks whether the shown
      profile is updated; None stands for no panel or a panel without a profile. */
  function DetailAfterUpdate(detail: Option<Profile>, userId: string, tier: string, status: string): (r: Option<Profile>)
    ensures detail.Some? && detail.value.id == userId ==> r == Some(detail.value.(tier := tier, status := status))
    ensures !(detail.Some? && detail.value.id == userId) ==> r == detail
  {
    if detail.Some? && detail.value.id == userId then Some(DataRoute.WithSubscription(detail.value, tier, status)) else detail
  }

  /** A panel showing a listed user shows that user's updated profile. */
  lemma DetailFollowsListing(users: seq<DataRoute.UserRow>, i: int, userId: string, tier: string, status: string)
    requires 0 <= i < |users|
    ensures DetailAfterUpdate(Some(users[i].profile), userId, tier, status)
         == Some(SubscriptionSetLocally(users, userId, tier, status)[i].profile)
  {
  }
}
