/** The overview page (app/dashboard/page.js): headline counts, the tier pie,
    the revenue estimate and two trailing-window charts. */
module Overview {
  import opened Records
  import opened Seqs
  import opened Counting
  import opened Tiers
  import opened Series

  /** `profiles.filter(p => isAfter(parseISO(p.created_at), weekAgo)).length` */
  function NewUsersWeek(now: int, ps: seq<Profile>): (r: nat)
    ensures r == |set i | 0 <= i < |ps| && ps[i].createdAt > DaysBefore(now, 7)|
    ensures r <= |ps|
  {
    var p := (x: Profile) => x.createdAt > DaysBefore(now, 7);
    FilterCount(ps, p);
    assert Positions(ps, p) == set i | 0 <= i < |ps| && ps[i].createdAt > DaysBefore(now, 7);
    |Filter(ps, p)|
  }

  /** `rounds.filter(r => isAfter(parseISO(r.created_at), weekAgo)).length` */
  function RoundsThisWeek(now: int, rounds: seq<Round>): (r: nat)
    ensures r == |set i | 0 <= i < |rounds| && rounds[i].createdAt > DaysBefore(now, 7)|
    ensures r <= |rounds|
  {
    var p := (x: Round) => x.createdAt > DaysBefore(now, 7);
    FilterCount(rounds, p);
    assert Positions(rounds, p) == set i | 0 <= i < |rounds| && rounds[i].createdAt > DaysBefore(now, 7);
    |Filter(rounds, p)|
  }

  /** `swings.filter(s => isAfter(parseISO(s.created_at), weekAgo)).length` */
  function SwingsThisWeek(now: int, swings: seq<Swing>): (r: nat)
    ensures r == |set i | 0 <= i < |swings| && swings[i].createdAt > DaysBefore(now, 7)|
    ensures r <= |swings|
  {
    var p := (x: Swing) => x.createdAt > DaysBefore(now, 7);
    FilterCount(swings, p);
    assert Positions(swings, p) == set i | 0 <= i < |swings| && swings[i].createdAt > DaysBefore(now, 7);
    |Filter(swings, p)|
  }

  predicate IsActiveSubscriber(p: Profile)
  {
    p.tier != "free" && p.status == "active"
  }

  /** Profiles on a paid tier whose subscription is active. */
  function ActiveSubscribers(ps: seq<Profile>): (r: nat)
    ensures r == |set i | 0 <= i < |ps| && ps[i].tier != "free" && ps[i].status == "active"|
    ensures r <= |ps|
  {
    FilterCount(ps, IsActiveSubscriber);
    assert Positions(ps, IsActiveSubscriber)
        == set i | 0 <= i < |ps| && ps[i].tier != "free" && ps[i].status == "active";
    |Filter(ps, IsActiveSubscriber)|
  }

  predicate IsOpenTicket(t: Ticket)
  {
    t.status == "open" || t.status == "in_progress"
  }

  /** Tickets still waiting on staff. */
  function OpenTickets(ts: seq<Ticket>): (r: nat)
    ensures r == |set i | 0 <= i < |ts| && (ts[i].status == "open" || ts[i].status == "in_progress")|
    ensures r <= |ts|
  {
    FilterCount(ts, IsOpenTicket);
    assert Positions(ts, IsOpenTicket)
        == set i | 0 <= i < |ts| && (ts[i].status == "open" || ts[i].status == "in_progress");
    |Filter(ts, IsOpenTicket)|
  }

  /** The bug reports among the feedback items. */
  function BugReports(fs: seq<Feedback>): (r: nat)
    ensures r == |set i | 0 <= i < |fs| && fs[i].feedbackType == "bug"|
    ensures r <= |fs|
  {
    var keep := (f: Feedback) => f.feedbackType == "bug";
    FilterCount(fs, keep);
    assert Positions(fs, keep) == set i | 0 <= i < |fs| && fs[i].feedbackType == "bug";
    |Filter(fs, keep)|
  }

  /** `Object.entries(tierCounts)` lists free, premium and pro first, then every other
      tier value once, in the order its first profile appears. */
  lemma PieDataOrder(ps: seq<Profile>)
    ensures var c := TierTally(ps);
      && |c| >= 3 && KeysOf(c)[..3] == TierOrder
      && (forall i :: 3 <= i < |c| ==> c[i].key !in TierOrder && c[i].key in TierKeys(ps))
      && (forall t :: t in TierKeys(ps) ==> t in KeysOf(c))
      && (forall i, j :: 3 <= i < j < |c| ==> FirstIndex(TierKeys(ps), c[i].key) < FirstIndex(TierKeys(ps), c[j].key))
  {
    TierOrderDistinct();
    SeededTally(TierOrder, TierKeys(ps));
    var c := TierTally(ps);
    forall i | 3 <= i < |c| ensures c[i].key !in TierOrder {
      assert KeysOf(c)[i] == c[i].key;
      assert KeysOf(c)[..3] == TierOrder;
      assert KeysOf(c)[0] != c[i].key && KeysOf(c)[1] != c[i].key && KeysOf(c)[2] != c[i].key;
    }
  }

  // ---------------------------------------------------------------------------
  // Trailing-window charts

  datatype GrowthPoint = GrowthPoint(day: int, users: nat)

  datatype ActivityPoint = ActivityPoint(day: int, rounds: nat, swings: nat)

  function JoinMarks(ps: seq<Profile>): (ms: seq<Mark>)
    ensures |ms| == |ps|
  {
    Ones(seq(|ps|, i requires 0 <= i < |ps| => ps[i].createdAt))
  }

  function RoundMarks(rounds: seq<Round>): (ms: seq<Mark>)
    ensures |ms| == |rounds|
  {
    Ones(seq(|rounds|, i requires 0 <= i < |rounds| => rounds[i].createdAt))
  }

  function SwingMarks(swings: seq<Swing>): (ms: seq<Mark>)
    ensures |ms| == |swings|
  {
    Ones(seq(|swings|, i requires 0 <= i < |swings| => swings[i].createdAt))
  }

  function UsersOf(g: seq<GrowthPoint>): (s: seq<nat>)
    ensures |s| == |g| && forall k :: 0 <= k < |g| ==> s[k] == g[k].users
  {
    seq(|g|, k requires 0 <= k < |g| => g[k].users)
  }

  function RoundsOf(a: seq<ActivityPoint>): (s: seq<nat>)
    ensures |s| == |a| && forall k :: 0 <= k < |a| ==> s[k] == a[k].rounds
  {
    seq(|a|, k requires 0 <= k < |a| => a[k].rounds)
  }

  function SwingsOf(a: seq<ActivityPoint>): (s: seq<nat>)
    ensures |s| == |a| && forall k :: 0 <= k < |a| ==> s[k] == a[k].swings
  {
    seq(|a|, k requires 0 <= k < |a| => a[k].swings)
  }

  /** growthData: sign-ups on each of the last 30 days, oldest first. */
  method GrowthData(now: int, ps: seq<Profile>) returns (g: seq<GrowthPoint>)
    ensures |g| == 30
    ensures forall k :: 0 <= k < 30 ==>
      g[k].day == FirstDay(now, 30) + k && g[k].users == OnDay(JoinMarks(ps), g[k].day)
    ensures Sum(UsersOf(g)) == Within(JoinMarks(ps), FirstDay(now, 30), Day(now) + 1)
    ensures Sum(UsersOf(g)) <= |ps|
  {
    var ms := JoinMarks(ps);
    g := [];
    var i := 29;
    while i >= 0
      invariant -1 <= i <= 29
      invariant |g| == 29 - i
      invariant forall k :: 0 <= k < |g| ==> g[k].day == FirstDay(now, 30) + k && g[k].users == OnDay(ms, g[k].day)
    {
      var day := Day(DaysBefore(now, i));
      DayShift(now, i);
      g := g + [GrowthPoint(day, OnDay(ms, day))];
      i := i - 1;
    }
    BucketsCoverWindow(ms, FirstDay(now, 30), UsersOf(g));
    OnesWeight(seq(|ps|, i requires 0 <= i < |ps| => ps[i].createdAt));
  }

  /** activityData: rounds and swings logged on each of the last 7 days, oldest first. */
  method ActivityData(now: int, rounds: seq<Round>, swings: seq<Swing>) returns (a: seq<ActivityPoint>)
    ensures |a| == 7
    ensures forall k :: 0 <= k < 7 ==>
      && a[k].day == FirstDay(now, 7) + k
      && a[k].rounds == OnDay(RoundMarks(rounds), a[k].day)
      && a[k].swings == OnDay(SwingMarks(swings), a[k].day)
    ensures Sum(RoundsOf(a)) == Within(RoundMarks(rounds), FirstDay(now, 7), Day(now) + 1) <= |rounds|
    ensures Sum(SwingsOf(a)) == Within(SwingMarks(swings), FirstDay(now, 7), Day(now) + 1) <= |swings|
  {
    var rs, ss := RoundMarks(rounds), SwingMarks(swings);
    a := [];
    var i := 6;
    while i >= 0
      invariant -1 <= i <= 6
      invariant |a| == 6 - i
      invariant forall k :: 0 <= k < |a| ==>
        a[k].day == FirstDay(now, 7) + k && a[k].rounds == OnDay(rs, a[k].day) && a[k].swings == OnDay(ss, a[k].day)
    {
      var day := Day(DaysBefore(now, i));
      DayShift(now, i);
      a := a + [ActivityPoint(day, OnDay(rs, day), OnDay(ss, day))];
      i := i - 1;
    }
    BucketsCoverWindow(rs, FirstDay(now, 7), RoundsOf(a));
    BucketsCoverWindow(ss, FirstDay(now, 7), SwingsOf(a));
    OnesWeight(seq(|rounds|, i requires 0 <= i < |rounds| => rounds[i].createdAt));
    OnesWeight(seq(|swings|, i requires 0 <= i < |swings| => swings[i].createdAt));
  }
}
