/** The community benchmark ranker (benchmarkService): a strict-less-than
    percentile against a fixed community distribution, a five-band
    interpretation, and the fixed community tables. */
module Benchmark {
  import opened Wrappers
  import opened Numbers
  import opened Domain
  import opened PortfolioMetrics

  /** The four metric keys of the community tables. */
  datatype Metric = HealthScoreMetric | DiversificationMetric | AnnualReturnMetric | RiskScoreMetric

  function MetricKey(m: Metric): string
  {
    match m
    case HealthScoreMetric => "healthScore"
    case DiversificationMetric => "diversification"
    case AnnualReturnMetric => "annualReturn"
    case RiskScoreMetric => "riskScore"
  }

  /** Looking a requested key up in the tables: only the four own keys are
      present. */
  function ParseMetric(s: string): (r: Option<Metric>)
    ensures r.Some? <==> s in {"healthScore", "diversification", "annualReturn", "riskScore"}
    ensures r.Some? ==> MetricKey(r.value) == s
  {
    if s == "healthScore" then Some(HealthScoreMetric)
    else if s == "diversification" then Some(DiversificationMetric)
    else if s == "annualReturn" then Some(AnnualReturnMetric)
    else if s == "riskScore" then Some(RiskScoreMetric)
    else None
  }

  lemma ParseMetricKey(m: Metric)
    ensures ParseMetric(MetricKey(m)) == Some(m)
  {
  }

  function CommunityAverage(m: Metric): real
  {
    match m
    case HealthScoreMetric => 65.0
    case DiversificationMetric => 60.0
    case AnnualReturnMetric => 12.5
    case RiskScoreMetric => 55.0
  }

  function CommunityDistribution(m: Metric): (d: seq<real>)
    ensures |d| > 0
  {
    match m
    case HealthScoreMetric => [40.0, 50.0, 60.0, 65.0, 70.0, 75.0, 80.0, 85.0, 90.0]
    case DiversificationMetric => [30.0, 40.0, 50.0, 60.0, 65.0, 70.0, 75.0, 80.0]
    case AnnualReturnMetric => [5.0, 8.0, 10.0, 12.0, 15.0, 18.0, 20.0, 25.0]
    case RiskScoreMetric => [40.0, 45.0, 50.0, 55.0, 60.0, 65.0, 70.0, 75.0]
  }

  function CommunityBenchmark(m: Metric): real
  {
    match m
    case HealthScoreMetric => 75.0
    case DiversificationMetric => 70.0
    case AnnualReturnMetric => 15.0
    case RiskScoreMetric => 50.0
  }

  // ---------------------------------------------------------------- percentile

  predicate Sorted(s: seq<real>)
  {
    forall i, j :: 0 <= i < j < |s| ==> s[i] <= s[j]
  }

  function Insert(x: real, s: seq<real>): (r: seq<real>)
    ensures multiset(r) == multiset(s) + multiset{x}
    ensures |r| == |s| + 1
  {
    if s == [] || x <= s[0] then [x] + s
    else
      assert s == [s[0]] + s[1..];
      [s[0]] + Insert(x, s[1..])
  }

  /** `distribution.sort((a, b) => a - b)`: ascending numeric order. */
  function Sort(s: seq<real>): (r: seq<real>)
    ensures multiset(r) == multiset(s)
    ensures |r| == |s|
  {
    if s == [] then []
    else
      assert s == [s[0]] + s[1..];
      Insert(s[0], Sort(s[1..]))
  }

  lemma {:induction false} InsertSorted(x: real, s: seq<real>)
    requires Sorted(s)
    ensures Sorted(Insert(x, s))
  {
    if s != [] && x > s[0] {
      var tail := Insert(x, s[1..]);
      InsertSorted(x, s[1..]);
      forall k | 0 <= k < |tail|
        ensures s[0] <= tail[k]
      {
        assert tail[k] in multiset(tail);
        assert tail[k] == x || tail[k] in multiset(s[1..]);
      }
    }
  }

  lemma {:induction false} SortSorts(s: seq<real>)
    ensures Sorted(Sort(s))
  {
    if s != [] {
      SortSorts(s[1..]);
      InsertSorted(s[0], Sort(s[1..]));
    }
  }

  /** `filter(score => score < userScore).length`. */
  function CountBelow(s: seq<real>, u: real): (n: nat)
    ensures n <= |s|
  {
    if s == [] then 0 else (if s[0] < u then 1 else 0) + CountBelow(s[1..], u)
  }

  /** `Math.round(lowerScores / length * 100)`: the share of the distribution
      strictly below the user's score. An empty distribution gives NaN in the
      source and is excluded. */
  function CalculatePercentile(userScore: real, distribution: seq<real>): (r: int)
    requires |distribution| > 0
    ensures r == Round(Percent(CountBelow(distribution, userScore) as real, |distribution| as real))
    ensures 0 <= r <= 100
    ensures (forall i :: 0 <= i < |distribution| ==> userScore <= distribution[i]) ==> r == 0
    ensures (forall i :: 0 <= i < |distribution| ==> distribution[i] < userScore) ==> r == 100
  {
    var sorted := Sort(distribution);
    CountIgnoresOrder(sorted, distribution, userScore);
    RoundedPercentileBounds(userScore, distribution);
    Round(Percent(CountBelow(sorted, userScore) as real, |sorted| as real))
  }

  lemma RoundedPercentileBounds(u: real, d: seq<real>)
    requires |d| > 0
    ensures var r := Round(Percent(CountBelow(d, u) as real, |d| as real));
      && 0 <= r <= 100
      && ((forall i :: 0 <= i < |d| ==> u <= d[i]) ==> r == 0)
      && ((forall i :: 0 <= i < |d| ==> d[i] < u) ==> r == 100)
  {
    PercentileBounds(u, d);
  }

  lemma PercentileBounds(u: real, d: seq<real>)
    requires |d| > 0
    ensures 0.0 <= Percent(CountBelow(d, u) as real, |d| as real) <= 100.0
    ensures (forall i :: 0 <= i < |d| ==> u <= d[i]) ==> Percent(CountBelow(d, u) as real, |d| as real) == 0.0
    ensures (forall i :: 0 <= i < |d| ==> d[i] < u) ==> Percent(CountBelow(d, u) as real, |d| as real) == 100.0
  {
    var n := |d| as real;
    PercentMonotone(0.0, CountBelow(d, u) as real, n);
    PercentMonotone(CountBelow(d, u) as real, n, n);
    PercentOfWhole(n);
    assert Percent(0.0, n) == 0.0 by { PercentSign(0.0, n); }
    if forall i :: 0 <= i < |d| ==> u <= d[i] {
      NoneBelow(d, u);
    }
    if forall i :: 0 <= i < |d| ==> d[i] < u {
      AllBelow(d, u);
    }
  }

  lemma {:induction false} NoneBelow(s: seq<real>, u: real)
    requires forall i :: 0 <= i < |s| ==> u <= s[i]
    ensures CountBelow(s, u) == 0
  {
    if s != [] {
      NoneBelow(s[1..], u);
    }
  }

  lemma {:induction false} AllBelow(s: seq<real>, u: real)
    requires forall i :: 0 <= i < |s| ==> s[i] < u
    ensures CountBelow(s, u) == |s|
  {
    if s != [] {
      AllBelow(s[1..], u);
    }
  }

  lemma {:induction false} CountAppend(a: seq<real>, b: seq<real>, u: real)
    ensures CountBelow(a + b, u) == CountBelow(a, u) + CountBelow(b, u)
  {
    if a == [] {
      assert a + b == b;
    } else {
      CountAppend(a[1..], b, u);
      assert (a + b)[1..] == a[1..] + b;
    }
  }

  /** The count depends only on the multiset of values, so the sort before
      counting does not change it. */
  lemma {:induction false} CountIgnoresOrder(a: seq<real>, b: seq<real>, u: real)
    requires multiset(a) == multiset(b)
    ensures CountBelow(a, u) == CountBelow(b, u)
    decreases |a|
  {
    if a == [] {
      assert |multiset(b)| == 0;
    } else {
      var x := a[0];
      assert x in multiset(b);
      var i := IndexOf(b, x);
      var left, right := b[..i], b[i + 1..];
      assert b == left + [x] + right;
      assert a == [x] + a[1..];
      assert multiset(left + right) == multiset(a[1..]) by {
        calc {
          multiset(b);
          multiset(left + [x] + right);
          multiset(left + [x]) + multiset(right);
          multiset(left) + multiset{x} + multiset(right);
        }
        assert multiset(left + right) == multiset(left) + multiset(right);
        assert multiset(left + right) == multiset(b) - multiset{x};
        assert multiset(a) == multiset{x} + multiset(a[1..]);
        assert multiset(a[1..]) == multiset(a) - multiset{x};
      }
      CountIgnoresOrder(a[1..], left + right, u);
      CountAppend(left, right, u);
      CountAppend(left + [x], right, u);
      CountAppend(left, [x], u);
    }
  }

  lemma IndexOf(s: seq<real>, x: real) returns (i: nat)
    requires x in multiset(s)
    ensures i < |s| && s[i] == x
  {
    assert x in s;
    i :| 0 <= i < |s| && s[i] == x;
  }

  lemma {:induction false} CountMonotone(s: seq<real>, u1: real, u2: real)
    requires u1 <= u2
    ensures CountBelow(s, u1) <= CountBelow(s, u2)
  {
    if s != [] {
      CountMonotone(s[1..], u1, u2);
    }
  }

  /** A higher score never ranks lower. */
  lemma PercentileMonotone(u1: real, u2: real, d: seq<real>)
    requires |d| > 0 && u1 <= u2
    ensures CalculatePercentile(u1, d) <= CalculatePercentile(u2, d)
  {
    var sorted := Sort(d);
    CountMonotone(sorted, u1, u2);
    PercentMonotone(CountBelow(sorted, u1) as real, CountBelow(sorted, u2) as real, |sorted| as real);
    RoundMonotone(Percent(CountBelow(sorted, u1) as real, |sorted| as real),
                  Percent(CountBelow(sorted, u2) as real, |sorted| as real));
  }

  /** The percentile depends on the distribution's values, not their order. */
  lemma PercentileIgnoresOrder(u: real, a: seq<real>, b: seq<real>)
    requires |a| > 0 && multiset(a) == multiset(b)
    ensures |b| > 0
    ensures CalculatePercentile(u, a) == CalculatePercentile(u, b)
  {
    assert |a| == |multiset(a)| == |multiset(b)| == |b|;
    CountIgnoresOrder(Sort(a), Sort(b), u);
  }

  // ------------------------------------------------------------ interpretation

  datatype Interpretation = Excellent | VeryGood | Average | BelowAverage | NeedsImprovement {
    function Label(): string
    {
      match this
      case Excellent => "excellent"
      case VeryGood => "very good"
      case Average => "average"
      case BelowAverage => "below average"
      case NeedsImprovement => "needs improvement"
    }

    /** Position on the scale, from needs improvement (0) to excellent (4). */
    function Rank(): nat
    {
      match this
      case NeedsImprovement => 0
      case BelowAverage => 1
      case Average => 2
      case VeryGood => 3
      case Excellent => 4
    }
  }

  /** Five bands of `userScore - average`, each closed at its upper end:
      exactly +10 is "very good" and exactly -10 is "needs improvement". The
      metric name plays no part. */
  function GetInterpretation(metric: string, userScore: real, average: real): (r: Interpretation)
    ensures r.Label() == "excellent" <==> userScore - average > 10.0
    ensures r.Label() == "very good" <==> 5.0 < userScore - average <= 10.0
    ensures r.Label() == "average" <==> -5.0 < userScore - average <= 5.0
    ensures r.Label() == "below average" <==> -10.0 < userScore - average <= -5.0
    ensures r.Label() == "needs improvement" <==> userScore - average <= -10.0
  {
    var difference := userScore - average;
    if difference > 10.0 then Excellent
    else if difference > 5.0 then VeryGood
    else if difference > -5.0 then Average
    else if difference > -10.0 then BelowAverage
    else NeedsImprovement
  }

  /** The interpretation is monotone in the difference from the average and
      is the same for every metric name. */
  lemma InterpretationMonotone(m1: string, u1: real, a1: real, m2: string, u2: real, a2: real)
    requires u1 - a1 <= u2 - a2
    ensures GetInterpretation(m1, u1, a1).Rank() <= GetInterpretation(m2, u2, a2).Rank()
    ensures u1 - a1 == u2 - a2 ==> GetInterpretation(m1, u1, a1) == GetInterpretation(m2, u2, a2)
  {
  }

  // --------------------------------------------------------------- benchmark

  /** The user's side of the comparison. */
  datatype UserMetrics = UserMetrics(healthScore: real, diversification: real, annualReturn: real, riskScore: real)

  /** Annual return is not yet derived from history and is a constant. */
  const AnnualReturnPlaceholder: real := 12.3
  /** Risk score used when the analysis reports none (or 0). */
  const DefaultUserRiskScore: real := 55.0

  function UserMetric(u: UserMetrics, m: Metric): real
  {
    match m
    case HealthScoreMetric => u.healthScore
    case DiversificationMetric => u.diversification
    case AnnualReturnMetric => u.annualReturn
    case RiskScoreMetric => u.riskScore
  }

  /** `calculateUserMetrics`: the portfolio's own metrics, then a full
      analysis, whose failure propagates. Only the diversification score of
      the metrics is read, so a non-negative portfolio worth 0 is admitted:
      its score is 0. */
  function CalculateUserMetrics(p: Portfolio, analyse: UserId -> Result<Analysis, Error>, ln: real -> real)
    : (r: Result<UserMetrics, Error>)
    requires Priced(p.holdings) || AllNonNegativeHoldings(p.holdings)
    ensures analyse(p.userId).Failure? ==> r == Failure(analyse(p.userId).error)
    ensures analyse(p.userId).Success? ==> r.Success?
    ensures r.Success? && Priced(p.holdings) ==>
      r.value.diversification == CalculateMetrics(p.holdings, ln).diversificationScore
    ensures r.Success? && !Priced(p.holdings) ==> r.value.diversification == 0.0
    ensures r.Success? ==> r.value.healthScore == analyse(p.userId).value.healthScore as real
    ensures r.Success? ==> r.value.annualReturn == 12.3
    ensures r.Success? ==> r.value.riskScore == JsOr(analyse(p.userId).value.aiAnalysis.riskScore, 55.0)
  {
    var diversification := ReportedDiversification(p.holdings, ln);
    var analysis :- analyse(p.userId);
    Success(UserMetrics(
      analysis.healthScore as real,
      diversification,
      AnnualReturnPlaceholder,
      JsOr(analysis.aiAnalysis.riskScore, DefaultUserRiskScore)))
  }

  datatype BenchmarkReport = BenchmarkReport(
    userScore: real,
    communityAverage: real,
    percentile: int,
    benchmark: real,
    interpretation: Interpretation)

  /** `getCommunityBenchmark`: a missing portfolio fails before anything is
      computed; a failed analysis propagates; an unknown metric fails at the
      percentile (the distribution is undefined). */
  function GetCommunityBenchmark(
    portfolio: Option<Portfolio>, metric: string,
    analyse: UserId -> Result<Analysis, Error>, ln: real -> real)
    : (r: Result<BenchmarkReport, Error>)
    requires portfolio.Some? ==> Priced(portfolio.value.holdings) || AllNonNegativeHoldings(portfolio.value.holdings)
    ensures portfolio.None? ==> r == Failure(PortfolioNotFound)
    ensures portfolio.Some? && analyse(portfolio.value.userId).Failure? ==>
      r == Failure(analyse(portfolio.value.userId).error)
    ensures portfolio.Some? && analyse(portfolio.value.userId).Success? && ParseMetric(metric).None? ==>
      r == Failure(InvalidMetric)
    ensures r.Success? <==> portfolio.Some? && analyse(portfolio.value.userId).Success? && ParseMetric(metric).Some?
    ensures r.Success? ==>
      && portfolio.Some? && ParseMetric(metric).Some?
      && CalculateUserMetrics(portfolio.value, analyse, ln).Success?
      && r.value.userScore == UserMetric(CalculateUserMetrics(portfolio.value, analyse, ln).value, ParseMetric(metric).value)
    ensures r.Success? ==> 0 <= r.value.percentile <= 100
    ensures r.Success? ==> var m := ParseMetric(metric).value;
      && r.value.communityAverage == CommunityAverage(m)
      && r.value.benchmark == CommunityBenchmark(m)
      && r.value.percentile == CalculatePercentile(r.value.userScore, CommunityDistribution(m))
      && r.value.interpretation == GetInterpretation(metric, r.value.userScore, CommunityAverage(m))
  {
    if portfolio.None? then Failure(PortfolioNotFound)
    else
      var user :- CalculateUserMetrics(portfolio.value, analyse, ln);
      match ParseMetric(metric)
      case None => Failure(InvalidMetric)
      case Some(m) =>
        var score := UserMetric(user, m);
        Success(BenchmarkReport(
          score,
          CommunityAverage(m),
          CalculatePercentile(score, CommunityDistribution(m)),
          CommunityBenchmark(m),
          GetInterpretation(metric, score, CommunityAverage(m))))
  }
}
