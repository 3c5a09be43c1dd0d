/**
 * The risk trend (app.py, "RISK TREND OVER TIME"): a loop collects one risk
 * per hour over the first nine rows, from the model or, in test mode, as the
 * override risk plus a random variation clamped to [0, 100]; the trend is
 * the last risk minus the first, with a dead band of 5 points either way.
 */
module Trend {
  import opened Optional
  import opened Rng
  import opened Horizon

  datatype Direction = Decreasing | Stable | Increasing

  /** Decreasing < Stable < Increasing. */
  function DirectionRank(d: Direction): nat
  {
    match d
    case Decreasing => 0
    case Stable => 1
    case Increasing => 2
  }

  /** `min(100, max(0, x))`. */
  function Clamp(x: real): (c: real)
    ensures 0.0 <= c <= 100.0
    ensures 0.0 <= x <= 100.0 ==> c == x
    ensures x < 0.0 ==> c == 0.0
    ensures 100.0 < x ==> c == 100.0
  {
    var low := if 0.0 < x then x else 0.0;
    if 100.0 < low then 100.0 else low
  }

  /**
   * The risk plotted for hour i: the model's risk for row i, or in test mode
   * the clamped override plus the i-th variation drawn since the loop began.
   */
  function TrendPoint(rows: seq<real>, testMode: bool, risk: real, source: Source, seed: int, drawn: nat, i: nat)
    : (p: real)
    requires i < |rows|
    ensures testMode ==> 0.0 <= p <= 100.0
    ensures testMode && 0.0 <= risk <= 100.0 ==> risk - 10.0 <= p <= risk + 10.0
  {
    if testMode then Clamp(risk + UniformDraw(-10.0, 10.0, source(seed, drawn + i))) else rows[i]
  }

  /** The `risks` list after k turns of the loop: one point per hour, in hour order. */
  function TrendSeries(rows: seq<real>, testMode: bool, risk: real, source: Source, seed: int, drawn: nat, k: nat)
    : (r: seq<real>)
    requires k <= |rows|
    ensures |r| == k
    ensures forall i :: 0 <= i < k ==> r[i] == TrendPoint(rows, testMode, risk, source, seed, drawn, i)
    decreases k
  {
    if k == 0 then []
    else TrendSeries(rows, testMode, risk, source, seed, drawn, k - 1)
         + [TrendPoint(rows, testMode, risk, source, seed, drawn, k - 1)]
  }

  /** The loop that fills `hours` and `risks`; in test mode each turn takes one draw. */
  method BuildTrend(rng: GlobalRng, rows: seq<real>, testMode: bool, risk: real)
    returns (hours: seq<nat>, risks: seq<real>)
    modifies rng
    ensures |hours| == TrendRows(|rows|)
    ensures forall i :: 0 <= i < |hours| ==> hours[i] == i
    ensures risks == TrendSeries(rows, testMode, risk, rng.source, old(rng.seed), old(rng.drawn), TrendRows(|rows|))
    ensures rng.seed == old(rng.seed)
    ensures rng.drawn == old(rng.drawn) + (if testMode then TrendRows(|rows|) else 0)
  {
    hours, risks := [], [];
    ghost var seed0, drawn0 := rng.seed, rng.drawn;
    for idx := 0 to TrendRows(|rows|)
      invariant |hours| == idx
      invariant forall i :: 0 <= i < idx ==> hours[i] == i
      invariant risks == TrendSeries(rows, testMode, risk, rng.source, seed0, drawn0, idx)
      invariant rng.seed == seed0
      invariant rng.drawn == drawn0 + (if testMode then idx else 0)
    {
      var point: real;
      if testMode {
        var variation := rng.Uniform(-10.0, 10.0);
        point := Clamp(risk + variation);
      } else {
        point := rows[idx];
      }
      hours := hours + [idx];
      risks := risks + [point];
    }
  }

  /** The trend of a risk series: none for fewer than two points, else the direction of last minus first. */
  function TrendOf(risks: seq<real>): (t: Option<Direction>)
    ensures t.Some? <==> |risks| > 1
    ensures t == Some(Increasing) <==> |risks| > 1 && risks[|risks| - 1] - risks[0] > 5.0
    ensures t == Some(Decreasing) <==> |risks| > 1 && risks[|risks| - 1] - risks[0] < -5.0
    ensures t == Some(Stable) <==> |risks| > 1 && -5.0 <= risks[|risks| - 1] - risks[0] <= 5.0
  {
    if |risks| > 1 then
      var delta := risks[|risks| - 1] - risks[0];
      Some(if delta > 5.0 then Increasing else if delta < -5.0 then Decreasing else Stable)
    else None
  }

  /** The trend section: built only for a patient with more than one row. */
  method RiskTrend(rng: GlobalRng, rows: seq<real>, testMode: bool, risk: real) returns (t: Option<Direction>)
    modifies rng
    ensures t.Some? <==> |rows| > 1
    ensures |rows| > 1 ==> t == TrendOf(TrendSeries(rows, testMode, risk, rng.source, old(rng.seed), old(rng.drawn), TrendRows(|rows|)))
    ensures rng.seed == old(rng.seed)
    ensures rng.drawn == old(rng.drawn) + (if testMode && |rows| > 1 then TrendRows(|rows|) else 0)
  {
    t := None;
    if |rows| > 1 {
      var hours, risks := BuildTrend(rng, rows, testMode, risk);
      if |risks| > 1 {
        t := TrendOf(risks);
      }
    }
  }

  /** Outside test mode the plotted risks are exactly the model's risks of the first rows. */
  lemma LiveSeriesIsPrefix(rows: seq<real>, risk: real, source: Source, seed: int, drawn: nat, k: nat)
    requires k <= |rows|
    ensures TrendSeries(rows, false, risk, source, seed, drawn, k) == rows[..k]
  {
  }

  /** Only the two end points decide the trend. */
  lemma TrendIgnoresInterior(a: seq<real>, b: seq<real>)
    requires |a| > 1 && |b| > 1
    requires a[0] == b[0] && a[|a| - 1] == b[|b| - 1]
    ensures TrendOf(a) == TrendOf(b)
  {
  }

  /** Raising the latest risk never turns the trend downwards. */
  lemma TrendMonotoneInLatest(a: seq<real>, b: seq<real>)
    requires |a| > 1 && |b| > 1 && a[0] == b[0]
    requires a[|a| - 1] <= b[|b| - 1]
    ensures DirectionRank(TrendOf(a).value) <= DirectionRank(TrendOf(b).value)
  {
  }

  /** In test mode every plotted point lies in [0, 100] and within 10 points of an in-range override. */
  lemma TestSeriesBounded(rows: seq<real>, risk: real, source: Source, seed: int, drawn: nat, k: nat)
    requires k <= |rows|
    ensures forall i :: 0 <= i < k ==>
      var p := TrendSeries(rows, true, risk, source, seed, drawn, k)[i];
      0.0 <= p <= 100.0 && (0.0 <= risk <= 100.0 ==> risk - 10.0 <= p <= risk + 10.0)
  {
  }

  /** In test mode the trend's delta is at most 20 points either way. */
  lemma TestTrendDeltaBounded(rows: seq<real>, risk: real, source: Source, seed: int, drawn: nat)
    requires 0.0 <= risk <= 100.0 && |rows| > 1
    ensures var s := TrendSeries(rows, true, risk, source, seed, drawn, TrendRows(|rows|));
            -20.0 <= s[|s| - 1] - s[0] <= 20.0
  {
  }
}
