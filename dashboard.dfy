/** The figures pages/Dashboard.tsx derives from the stats: the total-time
    label, the average score, the chart series, and the two preference
    controls, which are settings patches. */
module DashboardPage {
  import opened Types
  import opened Wrappers
  import JsText
  import AppContext

  // -------------------------------------------------------- total time

  /** `Math.floor(seconds / 3600)` and `Math.floor((seconds % 3600) / 60)`:
      whole hours, then the whole minutes left over. */
  function HoursMinutes(seconds: nat): (hm: (nat, nat))
    ensures hm.1 < 60
    ensures hm.0 * 3600 + hm.1 * 60 <= seconds < hm.0 * 3600 + hm.1 * 60 + 60
  {
    (seconds / 3600, (seconds % 3600) / 60)
  }

  /** `formatTime`: "<hours>h <minutes>m". The label reads back as a time
      at most a minute short of `seconds`, with fewer than 60 minutes. */
  function FormatDuration(seconds: nat): (r: string)
    ensures exists k :: 1 <= k && k + 4 <= |r| && DurationFields(r, k, seconds)
  {
    var (h, m) := HoursMinutes(seconds);
    var hs, ms := JsText.Decimal(h), JsText.Decimal(m);
    JsText.DecimalRoundTrip(h);
    JsText.DecimalRoundTrip(m);
    var r := hs + "h " + ms + "m";
    assert r[..|hs|] == hs && r[|hs|..|hs| + 2] == "h " && r[|hs| + 2..|r| - 1] == ms;
    assert DurationFields(r, |hs|, seconds);
    r
  }

  /** `r` is digits, "h ", digits, "m", the first field split at `k`, and the
      two fields give the hours and minutes of `seconds`. */
  ghost predicate DurationFields(r: string, k: nat, seconds: nat)
    requires 1 <= k && k + 4 <= |r|
  {
    && (forall i :: 0 <= i < k ==> JsText.IsDigit(r[i]))
    && r[k..k + 2] == "h " && r[|r| - 1] == 'm'
    && (forall i :: k + 2 <= i < |r| - 1 ==> JsText.IsDigit(r[i]))
    && var h, m := JsText.DecimalValue(r[..k]), JsText.DecimalValue(r[k + 2..|r| - 1]);
       0 <= m < 60 && 0 <= h && h * 3600 + m * 60 <= seconds < h * 3600 + m * 60 + 60
  }

  /** The "Total Time" card. */
  function TotalTimeLabel(stats: UserStats): (shown: string)
    ensures exists k :: 1 <= k && k + 4 <= |shown| && DurationFields(shown, k, stats.totalTimePracticed)
  {
    FormatDuration(stats.totalTimePracticed)
  }

  /** Two stats with the same total practice time show the same label,
      whatever their other fields. */
  lemma TotalTimeLabelDependsOnTime(a: UserStats, b: UserStats)
    requires a.totalTimePracticed == b.totalTimePracticed
    ensures TotalTimeLabel(a) == TotalTimeLabel(b)
  {
  }

  // ----------------------------------------------------- average score

  /** The scores added from the front: the first plus the rest. */
  function SumFromFront(h: seq<FluencyPoint>): int {
    if h == [] then 0 else h[0].score + SumFromFront(h[1..])
  }

  /** Taking off the last score of a front-to-back sum. */
  lemma {:induction false} SumFromFrontLast(h: seq<FluencyPoint>)
    requires h != []
    ensures SumFromFront(h) == SumFromFront(h[..|h| - 1]) + h[|h| - 1].score
  {
    if |h| > 1 {
      SumFromFrontLast(h[1..]);
      assert h[1..][..|h[1..]| - 1] == h[..|h| - 1][1..];
    }
  }

  /** `reduce((a, b) => a + b.score, 0)`, folding from the left; the order
      does not matter: it equals the sum taken from the front. */
  function SumScores(h: seq<FluencyPoint>): (total: int)
    ensures total == SumFromFront(h)
  {
    if h == [] then 0
    else
      SumFromFrontLast(h);
      SumScores(h[..|h| - 1]) + h[|h| - 1].score
  }

  /** The "Avg Score" card: 0 for an empty history, otherwise
      `Math.round(sum / n)`, which rounds halves up. The result is the
      integer nearest to the mean, ties going up. */
  function AverageScore(h: seq<FluencyPoint>): (avg: int)
    ensures h == [] ==> avg == 0
    ensures h != [] ==> 2 * |h| * avg - |h| <= 2 * SumScores(h) < 2 * |h| * avg + |h|
  {
    if h == [] then 0
    else
      var n := |h|;
      var q := (2 * SumScores(h) + n) / (2 * n);
      DivisionBounds(2 * SumScores(h) + n, 2 * n);
      q
  }

  lemma DivisionBounds(x: int, d: int)
    requires d > 0
    ensures d * (x / d) <= x < d * (x / d) + d
  {
  }

  /** Scores between `lo` and `hi` sum to between `n * lo` and `n * hi`. */
  lemma {:induction false} SumBounds(h: seq<FluencyPoint>, lo: int, hi: int)
    requires forall k :: 0 <= k < |h| ==> lo <= h[k].score <= hi
    ensures |h| * lo <= SumScores(h) <= |h| * hi
  {
    if h != [] {
      var init := h[..|h| - 1];
      assert forall k :: 0 <= k < |init| ==> init[k] == h[k];
      SumBounds(init, lo, hi);
      assert |h| * lo == |init| * lo + lo && |h| * hi == |init| * hi + hi;
    }
  }

  /** The average lies between the lowest and the highest score (so a
      history of 0..100 scores averages to 0..100). */
  lemma AverageWithin(h: seq<FluencyPoint>, lo: int, hi: int)
    requires h != []
    requires forall k :: 0 <= k < |h| ==> lo <= h[k].score <= hi
    ensures lo <= AverageScore(h) <= hi
  {
    SumBounds(h, lo, hi);
    var n, avg := |h|, AverageScore(h);
    if avg < lo {
      MulLess(2 * n, avg, lo);
      assert false;
    }
    if avg > hi {
      MulLess(2 * n, hi, avg);
      assert false;
    }
  }

  lemma MulLess(n: int, a: int, b: int)
    requires n > 0 && a < b
    ensures n * a + n <= n * b
  {
    var d := b - a;
    MulAtLeast(n, d);
    assert n * b == n * a + n * d;
  }

  lemma {:induction false} MulAtLeast(n: int, d: int)
    requires n > 0 && d >= 1
    ensures n * d >= n
    decreases d
  {
    if d > 1 {
      MulAtLeast(n, d - 1);
      assert n * d == n * (d - 1) + n;
    }
  }

  // ------------------------------------------------------------ chart

  /** The chart series: the history, or a single "Start" point at 0 when
      there is none; never empty. */
  function ChartData(h: seq<FluencyPoint>): (data: seq<FluencyPoint>)
    ensures |data| >= 1
    ensures h != [] ==> data == h
    ensures h == [] ==> data == [FluencyPoint("Start", 0)]
  {
    if |h| > 0 then h else [FluencyPoint("Start", 0)]
  }

  // ------------------------------------------------------ preferences

  /** The voice speed slider: a patch carrying only the speed. */
  function SpeedPatch(speed: real): (p: AppContext.SettingsPatch)
    ensures forall s: Settings :: AppContext.MergeSettings(s, p) == s.(voiceSpeed := speed)
  {
    AppContext.SettingsPatch(None, Some(speed), None)
  }

  /** The accent selector: a patch carrying only the accent. */
  function AccentPatch(accent: string): (p: AppContext.SettingsPatch)
    ensures forall s: Settings :: AppContext.MergeSettings(s, p) == s.(voiceAccent := accent)
  {
    AppContext.SettingsPatch(None, None, Some(accent))
  }
}
