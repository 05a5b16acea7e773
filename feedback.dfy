/** The feedback page (app/dashboard/feedback/page.js): counts by feedback type,
    this week's count and the type filter. */
module FeedbackPage {
  import opened Records
  import opened Seqs
  import opened Counting

  const TypeOrder: seq<string> := ["bug", "feature_request", "general", "complaint"]

  function TypeKeys(fs: seq<Feedback>): (ks: seq<string>)
    ensures |ks| == |fs|
    ensures forall i :: 0 <= i < |fs| ==> ks[i] == fs[i].feedbackType
  {
    seq(|fs|, i requires 0 <= i < |fs| => fs[i].feedbackType)
  }

  /** The type `forEach` over a seeded dictionary. `Object.entries` of the result lists the
      four types first, in this order, then any other type in the order first met. */
  method CountTypes(fs: seq<Feedback>) returns (c: seq<Entry>)
    ensures c == Tally(Zeros(TypeOrder), TypeKeys(fs))
    ensures |c| >= 4 && KeysOf(c)[..4] == TypeOrder
    ensures Distinct(KeysOf(c))
    ensures Total(c) == |fs|
    ensures forall k :: Get(c, k) == Occurrences(TypeKeys(fs), k)
    ensures forall k :: k in KeysOf(c) <==> k in TypeOrder || k in TypeKeys(fs)
    ensures forall i, j :: 4 <= i < j < |c| ==> FirstIndex(TypeKeys(fs), c[i].key) < FirstIndex(TypeKeys(fs), c[j].key)
  {
    assert Distinct(TypeOrder);
    c := CountKeys(Zeros(TypeOrder), TypeKeys(fs));
    SeededTally(TypeOrder, TypeKeys(fs));
  }

  /** Feedback submitted within the past 7 days. */
  function ThisWeek(now: int, fs: seq<Feedback>): (r: nat)
    ensures r == |set i | 0 <= i < |fs| && fs[i].createdAt > DaysBefore(now, 7)|
    ensures r <= |fs|
  {
    var keep := (f: Feedback) => f.createdAt > DaysBefore(now, 7);
    FilterCount(fs, keep);
    assert Positions(fs, keep) == set i | 0 <= i < |fs| && fs[i].createdAt > DaysBefore(now, 7);
    |Filter(fs, keep)|
  }

  /** The items shown: all of them for 'all', otherwise those of that type, in their
      original order and with their multiplicity. */
  function ByType(filter: string, fs: seq<Feedback>): (r: seq<Feedback>)
    ensures filter == "all" ==> r == fs
    ensures SubsequenceOf(r, fs)
    ensures filter != "all" ==> forall f :: f in r ==> f.feedbackType == filter
    ensures filter != "all" ==> forall f: Feedback :: f.feedbackType == filter ==> multiset(r)[f] == multiset(fs)[f]
  {
    if filter == "all" then
      SubsequenceOfSelf(fs);
      fs
    else
      var keep := (f: Feedback) => f.feedbackType == filter;
      FilterFacts(fs, keep);
      Filter(fs, keep)
  }

  /** A type filter shows as many items as the counter for that type says. */
  lemma {:induction false} ByTypeMatchesCount(filter: string, fs: seq<Feedback>)
    requires filter != "all"
    ensures |ByType(filter, fs)| == Occurrences(TypeKeys(fs), filter)
    decreases |fs|
  {
    var keep := (f: Feedback) => f.feedbackType == filter;
    if fs != [] {
      var init := fs[..|fs| - 1];
      assert fs == init + [fs[|fs| - 1]];
      FilterConcat(init, [fs[|fs| - 1]], keep);
      ByTypeMatchesCount(filter, init);
      assert TypeKeys(fs)[..|fs| - 1] == TypeKeys(init);
    }
  }
}
