/** The AI coach analytics page (app/dashboard/ai-analytics/page.js): conversation
    and message totals, the topic breakdown, windowed message counts and cost, the
    daily chart, distinct users and the ten longest conversations. */
module AiAnalytics {
  import opened Records
  import opened Seqs
  import opened Counting
  import opened Series
  import opened Rates

  /** Conversations started within the past 7 days. */
  function WeekConversations(now: int, cs: seq<Conversation>): (r: nat)
    ensures r == |set i | 0 <= i < |cs| && cs[i].createdAt > DaysBefore(now, 7)|
    ensures r <= |cs|
  {
    FilterCount(cs, After(DaysBefore(now, 7)));
    assert Positions(cs, After(DaysBefore(now, 7))) == set i | 0 <= i < |cs| && cs[i].createdAt > DaysBefore(now, 7);
    |Filter(cs, After(DaysBefore(now, 7)))|
  }

  /** "created strictly after bound" (`isAfter(parseISO(c.created_at), bound)`). */
  function After(bound: int): Conversation -> bool
  {
    (c: Conversation) => c.createdAt > bound
  }

  // ---------------------------------------------------------------------------
  // The aggregation loop

  /** The topic each conversation is counted under: its topic, or 'general' when
      the topic is missing or empty. */
  function TopicKeys(cs: seq<Conversation>): (ks: seq<string>)
    ensures |ks| == |cs|
    ensures forall i :: 0 <= i < |cs| ==> ks[i] == OrElse(cs[i].topic, "general")
    ensures forall i :: 0 <= i < |cs| ==> ks[i] != "" && (ks[i] == "general" || cs[i].topic == Some(ks[i]))
  {
    seq(|cs|, i requires 0 <= i < |cs| => OrElse(cs[i].topic, "general"))
  }

  /** The topic dictionary, which starts empty. */
  function TopicTally(cs: seq<Conversation>): seq<Entry>
  {
    Tally([], TopicKeys(cs))
  }

  lemma TopicTallyFacts(cs: seq<Conversation>)
    ensures var c := TopicTally(cs);
      && Distinct(KeysOf(c))
      && Total(c) == |cs|
      && (forall t :: Get(c, t) == Occurrences(TopicKeys(cs), t))
      && (forall t :: t in KeysOf(c) <==> t in TopicKeys(cs))
      && (forall i, j :: 0 <= i < j < |c| ==> FirstIndex(TopicKeys(cs), c[i].key) < FirstIndex(TopicKeys(cs), c[j].key))
  {
    assert Zeros([]) == [];
    SeededTally([], TopicKeys(cs));
  }

  /** The `forEach` that sums message counts and counts topics in one pass. */
  method Aggregate(cs: seq<Conversation>) returns (totalMessages: nat, topicCounts: seq<Entry>)
    ensures totalMessages == TotalMessages(cs)
    ensures topicCounts == TopicTally(cs)
    ensures Distinct(KeysOf(topicCounts))
    ensures Total(topicCounts) == |cs|
    ensures forall t :: Get(topicCounts, t) == Occurrences(TopicKeys(cs), t)
  {
    totalMessages, topicCounts := 0, [];
    var keys := TopicKeys(cs);
    var i := 0;
    while i < |cs|
      invariant 0 <= i <= |cs|
      invariant totalMessages == TotalMessages(cs[..i])
      invariant topicCounts == Tally([], keys[..i])
    {
      assert cs[..i + 1] == cs[..i] + [cs[i]];
      TotalMessagesAppend(cs[..i], [cs[i]]);
      assert keys[..i + 1][..i] == keys[..i];
      totalMessages := totalMessages + ConvoLength(cs[i]);
      topicCounts := Bump(topicCounts, OrElse(cs[i].topic, "general"));
      i := i + 1;
    }
    assert cs[..|cs|] == cs;
    assert keys[..|cs|] == keys;
    TopicTallyFacts(cs);
  }

  /** Average messages per conversation, in tenths, rounded to the nearest; 0 when
      there are no conversations. */
  function AverageTenths(cs: seq<Conversation>): (r: nat)
    ensures |cs| == 0 ==> r == 0
    ensures |cs| > 0 ==> 2 * |cs| * r <= 20 * TotalMessages(cs) + |cs| < 2 * |cs| * r + 2 * |cs|
  {
    RoundedRatio(TotalMessages(cs), |cs|, 10)
  }

  // ---------------------------------------------------------------------------
  // Windowed message counts and cost

  /** Messages in the conversations started strictly after bound. */
  function MessagesSince(bound: int, cs: seq<Conversation>): (r: nat)
    ensures r <= TotalMessages(cs)
    ensures (forall i :: 0 <= i < |cs| ==> cs[i].createdAt > bound) ==> r == TotalMessages(cs)
  {
    SinceMonotone(bound, bound, cs);
    AllAfter(bound, cs);
    TotalMessages(Filter(cs, After(bound)))
  }

  lemma AllAfter(bound: int, cs: seq<Conversation>)
    ensures (forall i :: 0 <= i < |cs| ==> cs[i].createdAt > bound) ==> Filter(cs, After(bound)) == cs
  {
    if forall i :: 0 <= i < |cs| ==> cs[i].createdAt > bound {
      FilterKeepsAll(cs, After(bound));
    }
  }

  /** A later cut-off never counts more messages, and no cut-off counts more than all. */
  lemma {:induction false} SinceMonotone(later: int, earlier: int, cs: seq<Conversation>)
    requires earlier <= later
    ensures TotalMessages(Filter(cs, After(later))) <= TotalMessages(Filter(cs, After(earlier)))
    ensures TotalMessages(Filter(cs, After(earlier))) <= TotalMessages(cs)
  {
    if cs != [] {
      SinceMonotone(later, earlier, cs[1..]);
      SinceStep(later, cs);
      SinceStep(earlier, cs);
      assert TotalMessages(cs) == ConvoLength(cs[0]) + TotalMessages(cs[1..]);
    }
  }

  /** Peeling the first conversation off a windowed message count. */
  lemma SinceStep(bound: int, cs: seq<Conversation>)
    requires cs != []
    ensures TotalMessages(Filter(cs, After(bound)))
         == (if cs[0].createdAt > bound then ConvoLength(cs[0]) else 0) + TotalMessages(Filter(cs[1..], After(bound)))
  {
    var h := if cs[0].createdAt > bound then [cs[0]] else [];
    assert Filter(cs, After(bound)) == h + Filter(cs[1..], After(bound));
    TotalMessagesAppend(h, Filter(cs[1..], After(bound)));
    if h != [] {
      assert TotalMessages(h) == ConvoLength(cs[0]) + TotalMessages(h[1..]);
    }
  }

  function WeekMessages(now: int, cs: seq<Conversation>): nat
  {
    MessagesSince(DaysBefore(now, 7), cs)
  }

  function MonthMessages(now: int, cs: seq<Conversation>): nat
  {
    MessagesSince(DaysBefore(now, 30), cs)
  }

  /** This week's messages are among this month's, which are among all of them. */
  lemma WeekWithinMonth(now: int, cs: seq<Conversation>)
    ensures WeekMessages(now, cs) <= MonthMessages(now, cs) <= TotalMessages(cs)
  {
    SinceMonotone(DaysBefore(now, 7), DaysBefore(now, 30), cs);
  }

  /** The estimated API cost of this month's messages, in cents. */
  function MonthlyCostCents(now: int, cs: seq<Conversation>): (r: nat)
    ensures r == CostPerMessageCents * MonthMessages(now, cs)
    ensures r <= CostPerMessageCents * TotalMessages(cs)
  {
    CostPerMessageCents * MonthMessages(now, cs)
  }

  // ---------------------------------------------------------------------------
  // Topic ranking

  function EntryCount(e: Entry): nat
  {
    e.count
  }

  /** topicData: the topic entries, most frequent first, ties in first-seen order. */
  function TopicData(cs: seq<Conversation>): (r: seq<Entry>)
  {
    SortDesc(TopicTally(cs), EntryCount)
  }

  /** Every topic appears exactly once, with the number of conversations on it, and
      the list is ordered by that number, largest first. */
  lemma TopicDataRanks(cs: seq<Conversation>)
    ensures var r := TopicData(cs);
      && NonIncreasing(r, EntryCount)
      && multiset(r) == multiset(TopicTally(cs))
      && (forall t :: t in KeysOf(r) <==> t in TopicKeys(cs))
      && (forall i :: 0 <= i < |r| ==> r[i].count == Occurrences(TopicKeys(cs), r[i].key))
  {
    var c := TopicTally(cs);
    var r := TopicData(cs);
    SortDescSortedPermutation(c, EntryCount);
    TopicTallyFacts(cs);
    forall i | 0 <= i < |r| ensures r[i].count == Occurrences(TopicKeys(cs), r[i].key) && r[i].key in KeysOf(c) {
      EntryOfPermutation(c, r, i);
    }
    forall t | t in KeysOf(c) ensures t in KeysOf(r) {
      KeyOfPermutation(c, r, t);
    }
  }

  /** Topics with the same count keep the order in which they were first met. */
  lemma TopicDataKeepsTies(cs: seq<Conversation>, k: nat)
    ensures Filter(TopicData(cs), KeyIs(EntryCount, k)) == Filter(TopicTally(cs), KeyIs(EntryCount, k))
  {
    SortDescStable(TopicTally(cs), EntryCount, k);
  }

  /** Any ordering that ranks by count and keeps ties in first-seen order is topicData. */
  lemma TopicDataIsTheStableRanking(cs: seq<Conversation>, other: seq<Entry>)
    requires NonIncreasing(other, EntryCount)
    requires forall k: nat :: Filter(other, KeyIs(EntryCount, k)) == Filter(TopicTally(cs), KeyIs(EntryCount, k))
    ensures other == TopicData(cs)
  {
    SortDescSortedPermutation(TopicTally(cs), EntryCount);
    forall k: nat ensures Filter(TopicData(cs), KeyIs(EntryCount, k)) == Filter(other, KeyIs(EntryCount, k)) {
      TopicDataKeepsTies(cs, k);
    }
    StableSortUnique(TopicData(cs), other, EntryCount);
  }

  // ---------------------------------------------------------------------------
  // The daily chart

  datatype DailyPoint = DailyPoint(day: int, conversations: nat, messages: nat)

  function ConversationMarks(cs: seq<Conversation>): (ms: seq<Mark>)
    ensures |ms| == |cs|
  {
    Ones(seq(|cs|, i requires 0 <= i < |cs| => cs[i].createdAt))
  }

  /** Each conversation stamped with its message count. */
  function MessageMarks(cs: seq<Conversation>): (ms: seq<Mark>)
    ensures |ms| == |cs|
    ensures forall i :: 0 <= i < |cs| ==> ms[i] == Mark(cs[i].createdAt, ConvoLength(cs[i]))
  {
    seq(|cs|, i requires 0 <= i < |cs| => Mark(cs[i].createdAt, ConvoLength(cs[i])))
  }

  lemma {:induction false} MessageMarksWeight(cs: seq<Conversation>)
    ensures Weight(MessageMarks(cs)) == TotalMessages(cs)
    decreases |cs|
  {
    if cs != [] {
      var init := cs[..|cs| - 1];
      assert cs == init + [cs[|cs| - 1]];
      assert MessageMarks(cs)[..|cs| - 1] == MessageMarks(init);
      MessageMarksWeight(init);
      TotalMessagesAppend(init, [cs[|cs| - 1]]);
    }
  }

  function ConversationsOf(d: seq<DailyPoint>): (s: seq<nat>)
    ensures |s| == |d| && forall k :: 0 <= k < |d| ==> s[k] == d[k].conversations
  {
    seq(|d|, k requires 0 <= k < |d| => d[k].conversations)
  }

  function MessagesOf(d: seq<DailyPoint>): (s: seq<nat>)
    ensures |s| == |d| && forall k :: 0 <= k < |d| ==> s[k] == d[k].messages
  {
    seq(|d|, k requires 0 <= k < |d| => d[k].messages)
  }

  /** dailyData: conversations started, and their messages, on each of the last 7 days. */
  method DailyData(now: int, cs: seq<Conversation>) returns (d: seq<DailyPoint>)
    ensures |d| == 7
    ensures forall k :: 0 <= k < 7 ==>
      && d[k].day == FirstDay(now, 7) + k
      && d[k].conversations == OnDay(ConversationMarks(cs), d[k].day)
      && d[k].messages == OnDay(MessageMarks(cs), d[k].day)
    ensures Sum(ConversationsOf(d)) == Within(ConversationMarks(cs), FirstDay(now, 7), Day(now) + 1) <= |cs|
    ensures Sum(MessagesOf(d)) == Within(MessageMarks(cs), FirstDay(now, 7), Day(now) + 1) <= TotalMessages(cs)
  {
    var conv, msgs := ConversationMarks(cs), MessageMarks(cs);
    d := [];
    var i := 6;
    while i >= 0
      invariant -1 <= i <= 6
      invariant |d| == 6 - i
      invariant forall k :: 0 <= k < |d| ==>
        d[k].day == FirstDay(now, 7) + k && d[k].conversations == OnDay(conv, d[k].day) && d[k].messages == OnDay(msgs, d[k].day)
    {
      var day := Day(DaysBefore(now, i));
      DayShift(now, i);
      d := d + [DailyPoint(day, OnDay(conv, day), OnDay(msgs, day))];
      i := i - 1;
    }
    BucketsCoverWindow(conv, FirstDay(now, 7), ConversationsOf(d));
    BucketsCoverWindow(msgs, FirstDay(now, 7), MessagesOf(d));
    OnesWeight(seq(|cs|, i requires 0 <= i < |cs| => cs[i].createdAt));
    MessageMarksWeight(cs);
  }

  // ---------------------------------------------------------------------------
  // Distinct users

  /** `new Set(conversations.map(c => c.user_id))` */
  function UserIds(cs: seq<Conversation>): (s: set<string>)
    ensures forall u :: u in s <==> exists i :: 0 <= i < |cs| && cs[i].userId == u
    ensures |s| <= |cs|
    decreases |cs|
  {
    if cs == [] then {}
    else
      var init := cs[..|cs| - 1];
      var s := UserIds(init) + {cs[|cs| - 1].userId};
      assert forall u :: u in s <==> exists i :: 0 <= i < |cs| && cs[i].userId == u by {
        forall u ensures u in s <==> exists i :: 0 <= i < |cs| && cs[i].userId == u {
          if u in UserIds(init) {
            var i :| 0 <= i < |init| && init[i].userId == u;
            assert cs[i] == init[i];
          }
          if exists i :: 0 <= i < |cs| && cs[i].userId == u {
            var i :| 0 <= i < |cs| && cs[i].userId == u;
            if i < |init| {
              assert init[i] == cs[i];
            }
          }
        }
      }
      s
  }

  /** No user owns two of the conversations. */
  ghost predicate OneEach(cs: seq<Conversation>)
  {
    forall i, j :: 0 <= i < j < |cs| ==> cs[i].userId != cs[j].userId
  }

  lemma OneEachExtend(cs: seq<Conversation>)
    requires cs != []
    ensures OneEach(cs) <==> OneEach(cs[..|cs| - 1]) && cs[|cs| - 1].userId !in UserIds(cs[..|cs| - 1])
  {
    var init, n := cs[..|cs| - 1], |cs| - 1;
    if OneEach(cs) {
      forall i, j | 0 <= i < j < |init| ensures init[i].userId != init[j].userId {
        assert init[i] == cs[i] && init[j] == cs[j];
      }
    }
    if cs[n].userId in UserIds(init) {
      var i :| 0 <= i < |init| && init[i].userId == cs[n].userId;
      assert cs[i].userId == cs[n].userId;
    }
    if OneEach(init) && cs[n].userId !in UserIds(init) {
      forall i, j | 0 <= i < j < |cs| ensures cs[i].userId != cs[j].userId {
        assert cs[i] == init[i];
        if j < n {
          assert cs[j] == init[j];
        }
      }
    }
  }

  /** There are as many users as conversations exactly when no user has two. */
  lemma {:induction false} UserIdsCountAll(cs: seq<Conversation>)
    ensures |UserIds(cs)| == |cs| <==> OneEach(cs)
    decreases |cs|
  {
    if cs != [] {
      var init, x := cs[..|cs| - 1], cs[|cs| - 1].userId;
      UserIdsCountAll(init);
      OneEachExtend(cs);
      assert UserIds(cs) == UserIds(init) + {x};
      if x in UserIds(init) {
        assert UserIds(cs) == UserIds(init);
      }
    }
  }

  // ---------------------------------------------------------------------------
  // The ten longest conversations

  function Min(a: int, b: int): int
  {
    if a <= b then a else b
  }

  /** longestConvos: the conversations sorted by message count, longest first (ties in
      their original order), cut to the first ten. */
  function LongestConversations(cs: seq<Conversation>): (r: seq<Conversation>)
    ensures |r| == Min(10, |cs|)
  {
    SortDesc(cs, ConvoLength)[..Min(10, |cs|)]
  }

  /** The ten are ordered longest first, come from the input, and no conversation left
      out is longer than any that was kept. */
  lemma LongestAreLongest(cs: seq<Conversation>)
    ensures var r := LongestConversations(cs);
      && NonIncreasing(r, ConvoLength)
      && multiset(r) <= multiset(cs)
      && forall c, d :: multiset(r)[c] < multiset(cs)[c] && d in r ==> ConvoLength(d) >= ConvoLength(c)
  {
    SortDescSortedPermutation(cs, ConvoLength);
    SortedPrefix(SortDesc(cs, ConvoLength), ConvoLength, Min(10, |cs|));
  }

  /** Among the ten, conversations of equal length appear in their original order: for
      each length, those kept are the first ones of that length in the input. */
  lemma LongestKeepTies(cs: seq<Conversation>, k: nat)
    ensures var kept := Filter(LongestConversations(cs), KeyIs(ConvoLength, k));
      var all := Filter(cs, KeyIs(ConvoLength, k));
      |kept| <= |all| && kept == all[..|kept|]
  {
    var s := SortDesc(cs, ConvoLength);
    var m := Min(10, |cs|);
    assert s == s[..m] + s[m..];
    FilterConcat(s[..m], s[m..], KeyIs(ConvoLength, k));
    SortDescStable(cs, ConvoLength, k);
  }
}
