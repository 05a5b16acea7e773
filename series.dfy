/** Trailing-window day buckets. Every chart series of the dashboard walks the
    last n calendar days, oldest first, and for each day counts the rows stamped
    on that day (or adds up a per-row quantity, such as messages).

    A row is reduced to a mark: its timestamp and the quantity it contributes
    (1 when rows are counted). */
module Series {
  import opened Records

  datatype Mark = Mark(at: int, weight: nat)

  /** Every timestamp, counted once. */
  function Ones(stamps: seq<int>): (ms: seq<Mark>)
    ensures |ms| == |stamps|
    ensures forall i :: 0 <= i < |ms| ==> ms[i] == Mark(stamps[i], 1)
  {
    seq(|stamps|, i requires 0 <= i < |stamps| => Mark(stamps[i], 1))
  }

  /** The total quantity of all marks. */
  function Weight(ms: seq<Mark>): nat
    decreases |ms|
  {
    if ms == [] then 0 else Weight(ms[..|ms| - 1]) + ms[|ms| - 1].weight
  }

  /** The quantity stamped on calendar day d (`rows.filter(sameDay(d))`, counted or summed). */
  function OnDay(ms: seq<Mark>, d: int): nat
    decreases |ms|
  {
    if ms == [] then 0
    else OnDay(ms[..|ms| - 1], d) + (if Day(ms[|ms| - 1].at) == d then ms[|ms| - 1].weight else 0)
  }

  /** The quantity stamped on the days lo .. hi - 1. */
  function Within(ms: seq<Mark>, lo: int, hi: int): (r: nat)
    ensures r <= Weight(ms)
    decreases |ms|
  {
    if ms == [] then 0
    else
      var last := ms[|ms| - 1];
      Within(ms[..|ms| - 1], lo, hi) + (if lo <= Day(last.at) < hi then last.weight else 0)
  }

  function Sum(s: seq<nat>): nat
    decreases |s|
  {
    if s == [] then 0 else Sum(s[..|s| - 1]) + s[|s| - 1]
  }

  /** The first day of the last n days that end today. */
  function FirstDay(now: int, n: nat): int
  {
    Day(now) - (n - 1)
  }

  lemma {:induction false} OnesWeight(stamps: seq<int>)
    ensures Weight(Ones(stamps)) == |stamps|
    decreases |stamps|
  {
    if stamps != [] {
      var init := stamps[..|stamps| - 1];
      assert Ones(stamps)[..|stamps| - 1] == Ones(init);
      OnesWeight(init);
    }
  }

  /** Widening a window by one day adds exactly that day's quantity. */
  lemma {:induction false} WithinExtend(ms: seq<Mark>, lo: int, hi: int)
    requires lo <= hi
    ensures Within(ms, lo, hi + 1) == Within(ms, lo, hi) + OnDay(ms, hi)
    decreases |ms|
  {
    if ms != [] {
      WithinExtend(ms[..|ms| - 1], lo, hi);
    }
  }

  lemma WithinEmpty(ms: seq<Mark>, d: int)
    ensures Within(ms, d, d) == 0
    decreases |ms|
  {
    if ms != [] {
      WithinEmpty(ms[..|ms| - 1], d);
    }
  }

  /** Buckets with one entry per consecutive day from lo add up to the window they cover:
      every mark inside the window is counted once and no mark outside it is counted. */
  lemma {:induction false} BucketsCoverWindow(ms: seq<Mark>, lo: int, b: seq<nat>)
    requires forall k :: 0 <= k < |b| ==> b[k] == OnDay(ms, lo + k)
    ensures Sum(b) == Within(ms, lo, lo + |b|)
    decreases |b|
  {
    if b == [] {
      WithinEmpty(ms, lo);
    } else {
      var n := |b| - 1;
      BucketsCoverWindow(ms, lo, b[..n]);
      WithinExtend(ms, lo, lo + n);
    }
  }
}
