/** The folds `getAnalytics` runs over its query results
    (server/services/analytics.ts): the average growth over the recent
    days, the cumulative goal-progress series, and the five-bucket
    histogram of target percentages. The queries themselves are out of
    scope: their results arrive as sequences. */
module Analytics {
  import opened Hierarchy

  /** One `dailyTrend` entry: the rounded personal and total hours of the
      season on one day. */
  datatype TrendDay = TrendDay(date: Date, personal: int, total: int)

  // ---------------------------------------------------------------------
  // average daily growth

  /** How many trailing days the growth average looks at. */
  const RecentDays: nat := 7

  /** `dailyTrend.slice(-7)`. */
  function Recent(trend: seq<TrendDay>): (r: seq<TrendDay>)
    ensures |r| == if |trend| < RecentDays then |trend| else RecentDays
    ensures r == trend[|trend| - |r|..]
  {
    if |trend| < RecentDays then trend else trend[|trend| - RecentDays..]
  }

  /** The growth of one day over the day before, in percent; no growth is
      counted after a day with no hours. */
  function Rate(prev: TrendDay, day: TrendDay): real
  {
    if prev.total == 0 then 0.0 else ((day.total - prev.total) as real / prev.total as real) * 100.0
  }

  /** `growthRates`: one rate per pair of neighbouring recent days. */
  function Rates(recent: seq<TrendDay>): (rs: seq<real>)
    requires |recent| > 0
    ensures |rs| == |recent| - 1
  {
    seq(|recent| - 1, i requires 0 <= i < |recent| - 1 => Rate(recent[i], recent[i + 1]))
  }

  function Sum(xs: seq<real>): real
  {
    if xs == [] then 0.0 else Sum(xs[..|xs| - 1]) + xs[|xs| - 1]
  }

  /** `avgDailyGrowth` before `Math.round`: 0 with fewer than two days, else
      the mean of the recent growth rates. */
  function AvgDailyGrowth(trend: seq<TrendDay>): real
  {
    if |trend| < 2 then 0.0
    else
      var rs := Rates(Recent(trend));
      Sum(rs) / |rs| as real
  }

  lemma {:induction false} SumZero(xs: seq<real>)
    requires forall i :: 0 <= i < |xs| ==> xs[i] == 0.0
    ensures Sum(xs) == 0.0
  {
    if xs != [] {
      SumZero(xs[..|xs| - 1]);
    }
  }

  /** Only the last seven days count: what came before them does not change
      the average. */
  lemma AvgDailyGrowthWindow(earlier: seq<TrendDay>, trend: seq<TrendDay>)
    requires |trend| >= RecentDays
    ensures AvgDailyGrowth(earlier + trend) == AvgDailyGrowth(trend)
  {
    var all := earlier + trend;
    assert all[|all| - RecentDays..] == trend[|trend| - RecentDays..];
  }

  /** With no change between any two recent days the average growth is 0,
      and so it is with fewer than two days. */
  lemma AvgDailyGrowthSteady(trend: seq<TrendDay>)
    requires forall i :: 0 <= i < |Recent(trend)| - 1 ==> Recent(trend)[i].total == Recent(trend)[i + 1].total
    ensures AvgDailyGrowth(trend) == 0.0
  {
    if |trend| >= 2 {
      RatesSteady(Recent(trend));
    }
  }

  lemma RatesSteady(recent: seq<TrendDay>)
    requires |recent| > 0
    requires forall i :: 0 <= i < |recent| - 1 ==> recent[i].total == recent[i + 1].total
    ensures Sum(Rates(recent)) == 0.0
  {
    var rs := Rates(recent);
    forall i | 0 <= i < |rs|
      ensures rs[i] == 0.0
    {
      RateSteady(recent[i], recent[i + 1]);
    }
    SumZero(rs);
  }

  lemma RateSteady(prev: TrendDay, day: TrendDay)
    requires prev.total == day.total
    ensures Rate(prev, day) == 0.0
  {
  }

  // ---------------------------------------------------------------------
  // goal progress

  /** One `goalProgress` entry before rounding. */
  datatype GoalPoint = GoalPoint(date: Date, cumulative: int, targetCumulative: real)

  /** The total hours of the given days. */
  function Total(days: seq<TrendDay>): int
  {
    if days == [] then 0 else Total(days[..|days| - 1]) + days[|days| - 1].total
  }

  /** The goal-progress loop: one point per trend day, in the same order,
      holding the hours up to and including that day and the target of that
      many days. */
  method GoalProgress(trend: seq<TrendDay>, dailyTarget: real) returns (progress: seq<GoalPoint>)
    ensures |progress| == |trend|
    ensures forall i :: 0 <= i < |trend| ==>
      && progress[i].date == trend[i].date
      && progress[i].cumulative == Total(trend[..i + 1])
      && progress[i].targetCumulative == (i + 1) as real * dailyTarget
  {
    progress := [];
    var cumulative := 0;
    var targetCumulative := 0.0;
    for i := 0 to |trend|
      invariant |progress| == i
      invariant cumulative == Total(trend[..i])
      invariant targetCumulative == i as real * dailyTarget
      invariant forall j :: 0 <= j < i ==>
        && progress[j].date == trend[j].date
        && progress[j].cumulative == Total(trend[..j + 1])
        && progress[j].targetCumulative == (j + 1) as real * dailyTarget
    {
      assert trend[..i + 1][..i] == trend[..i];
      cumulative := cumulative + trend[i].total;
      targetCumulative := targetCumulative + dailyTarget;
      progress := progress + [GoalPoint(trend[i].date, cumulative, targetCumulative)];
    }
  }

  lemma {:induction false} TotalAppend(a: seq<TrendDay>, b: seq<TrendDay>)
    ensures Total(a + b) == Total(a) + Total(b)
    decreases |b|
  {
    if b == [] {
      assert a + b == a;
    } else {
      assert (a + b)[..|a + b| - 1] == a + b[..|b| - 1];
      TotalAppend(a, b[..|b| - 1]);
    }
  }

  lemma {:induction false} TotalNonNegative(days: seq<TrendDay>)
    requires forall i :: 0 <= i < |days| ==> days[i].total >= 0
    ensures Total(days) >= 0
  {
    if days != [] {
      TotalNonNegative(days[..|days| - 1]);
    }
  }

  /** When no day has negative hours, the cumulative series never goes
      down, and the gap between two points is the hours of the days between
      them. */
  lemma CumulativeGrows(trend: seq<TrendDay>, i: nat, j: nat)
    requires i <= j <= |trend|
    ensures Total(trend[..j]) == Total(trend[..i]) + Total(trend[i..j])
    ensures (forall k :: 0 <= k < |trend| ==> trend[k].total >= 0) ==> Total(trend[..i]) <= Total(trend[..j])
  {
    assert trend[..j] == trend[..i] + trend[i..j];
    TotalAppend(trend[..i], trend[i..j]);
    if forall k :: 0 <= k < |trend| ==> trend[k].total >= 0 {
      TotalNonNegative(trend[i..j]);
    }
  }

  // ---------------------------------------------------------------------
  // performance distribution

  /** The histogram's ranges, in declaration order. */
  const Ranges: seq<string> := ["0-25%", "25-50%", "50-75%", "75-100%", "100%+"]

  /** The lower bounds of the ranges after the first. */
  const Bounds: seq<real> := [25.0, 50.0, 75.0, 100.0]

  /** A percentage lies in range k. */
  predicate InRange(p: real, k: nat)
    requires k < 5
  {
    (k == 0 || Bounds[k - 1] <= p) && (k == 4 || p < Bounds[k])
  }

  /** The range the `if` chain of the distribution loop picks: the one
      range the percentage lies in. */
  function Bucket(p: real): (k: nat)
    ensures k < 5
    ensures forall j :: 0 <= j < 5 ==> (InRange(p, j) <==> j == k)
  {
    if p < 25.0 then 0
    else if p < 50.0 then 1
    else if p < 75.0 then 2
    else if p < 100.0 then 3
    else 4
  }

  /** How many of the percentages fall in range k. */
  function Count(ps: seq<real>, k: nat): nat
  {
    if ps == [] then 0 else Count(ps[..|ps| - 1], k) + (if Bucket(ps[|ps| - 1]) == k then 1 else 0)
  }

  /** The counting loop: the five ranges in order, each with the number of
      participants in it. */
  method PerformanceDistribution(percents: seq<real>) returns (dist: seq<(string, nat)>)
    ensures |dist| == 5
    ensures forall k :: 0 <= k < 5 ==> dist[k] == (Ranges[k], Count(percents, k))
  {
    var distribution := map[Ranges[0] := 0, Ranges[1] := 0, Ranges[2] := 0, Ranges[3] := 0, Ranges[4] := 0];
    for i := 0 to |percents|
      invariant forall k :: 0 <= k < 5 ==> Ranges[k] in distribution && distribution[Ranges[k]] == Count(percents[..i], k)
    {
      assert percents[..i + 1][..i] == percents[..i];
      var percent := percents[i];
      var range;
      if percent < 25.0 {
        range := Ranges[0];
      } else if percent < 50.0 {
        range := Ranges[1];
      } else if percent < 75.0 {
        range := Ranges[2];
      } else if percent < 100.0 {
        range := Ranges[3];
      } else {
        range := Ranges[4];
      }
      assert range == Ranges[Bucket(percent)];
      distribution := distribution[range := distribution[range] + 1];
    }
    assert percents[..|percents|] == percents;
    dist := seq(5, k requires 0 <= k < 5 => (Ranges[k], distribution[Ranges[k]]));
  }

  /** The five counts add up to the number of participants. */
  lemma {:induction false} CountsAddUp(ps: seq<real>)
    ensures Count(ps, 0) + Count(ps, 1) + Count(ps, 2) + Count(ps, 3) + Count(ps, 4) == |ps|
  {
    if ps != [] {
      CountsAddUp(ps[..|ps| - 1]);
    }
  }
}
