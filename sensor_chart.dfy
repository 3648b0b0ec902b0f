/** The per-metric line chart of `src/components/SensorChart.js`: x-axis
    labels, the chart points, the summary statistics and the y-axis range.
    Sensor values are reals; `toFixed(1)` and the pixel spacing of the chart
    are not modelled. */
module SensorChart {
  import opened Common
  import opened Readings

  /** A chart tab: its key and the reading field it plots. */
  datatype Metric = Metric(key: string, field: string)

  const METRICS: seq<Metric> := [Metric("temp", TEMP), Metric("ph", PH), Metric("tds", PPM), Metric("ec", EC)]

  // ---------------------------------------------------------------------
  // formatXLabel
  // ---------------------------------------------------------------------

  function Digit(d: nat): (c: char)
    requires d < 10
    ensures '0' <= c <= '9' && c as int - '0' as int == d
  {
    (d + '0' as int) as char
  }

  /** `n.toString().padStart(2, "0")` for `n < 100`. */
  function Pad2(n: nat): (s: string)
    requires n < 100
    ensures |s| == 2 && '0' <= s[0] <= '9' && '0' <= s[1] <= '9'
    ensures DigitsValue(s) == n
  {
    var s := [Digit(n / 10), Digit(n % 10)];
    assert s[..1][..0] == [] && s[..1] == [Digit(n / 10)];
    assert DigitsValue(s[..1]) == n / 10;
    assert n == n / 10 * 10 + n % 10;
    s
  }

  /** `Math.ceil(total / 10)`. */
  function LabelStep(total: nat): (k: nat)
    ensures total > 0 ==> k >= 1
    ensures 10 * k >= total && 10 * k < total + 10
  {
    (total + 9) / 10
  }

  /** `formatXLabel(date, index, total)`. */
  function FormatXLabel(date: Option<DateTime>, index: nat, total: nat): (s: string)
    ensures date.None? ==> s == ""
    ensures date.Some? && total <= 20 ==>
              |s| == 5 && s[2] == ':' && s == Pad2(Hours(date.value)) + ":" + Pad2(Minutes(date.value))
    ensures total > 20 ==> (s != "" <==> date.Some? && index % LabelStep(total) == 0)
    ensures s != "" ==> s == Pad2(Hours(date.value)) + ":" + Pad2(Minutes(date.value))
  {
    match date
    case None => ""
    case Some(t) =>
      if total > 20 && index % LabelStep(total) != 0 then ""
      else Pad2(Hours(t)) + ":" + Pad2(Minutes(t))
  }

  /** The number of non-empty labels. */
  function CountLabelled(labels: seq<string>): nat {
    if labels == [] then 0
    else CountLabelled(labels[..|labels| - 1]) + (if labels[|labels| - 1] != "" then 1 else 0)
  }

  /** The labels `formatXLabel` gives the points of a chart with these dates. */
  function XLabels(dates: seq<Option<DateTime>>): (ls: seq<string>)
    ensures |ls| == |dates|
    ensures forall i :: 0 <= i < |ls| ==> ls[i] == FormatXLabel(dates[i], i, |dates|)
  {
    seq(|dates|, i requires 0 <= i < |dates| => FormatXLabel(dates[i], i, |dates|))
  }

  /** The number of multiples of `k` in `0 .. n-1`. */
  function MultiplesBelow(n: nat, k: nat): nat
    requires k >= 1
  {
    if n == 0 then 0 else (n - 1) / k + 1
  }

  lemma {:induction false} MulAtLeast(a: int, k: int)
    requires a >= 1 && k >= 1
    ensures a * k >= k
  {
    if a > 1 {
      MulAtLeast(a - 1, k);
      assert a * k == (a - 1) * k + k;
    }
  }

  lemma DivUnique(x: int, k: int, q: int, r: int)
    requires k >= 1 && 0 <= r < k && x == q * k + r
    ensures x / k == q && x % k == r
  {
    var q', r' := x / k, x % k;
    assert x == q' * k + r';
    assert (q - q') * k == r' - r;
    if q > q' {
      MulAtLeast(q - q', k);
    } else if q < q' {
      MulAtLeast(q' - q, k);
    }
  }

  lemma DivStep(n: nat, k: nat)
    requires n >= 1 && k >= 1
    ensures n / k == (n - 1) / k + (if n % k == 0 then 1 else 0)
  {
    var q, r := (n - 1) / k, (n - 1) % k;
    assert n - 1 == q * k + r;
    if r == k - 1 {
      DivUnique(n, k, q + 1, 0);
    } else {
      DivUnique(n, k, q, r + 1);
    }
  }

  lemma {:induction false} LabelledPrefix(dates: seq<Option<DateTime>>, n: nat)
    requires |dates| > 20 && n <= |dates|
    ensures CountLabelled(XLabels(dates)[..n]) <= MultiplesBelow(n, LabelStep(|dates|))
  {
    var ls := XLabels(dates);
    var k := LabelStep(|dates|);
    if n > 0 {
      LabelledPrefix(dates, n - 1);
      assert ls[..n][..n - 1] == ls[..n - 1];
      if n - 1 > 0 {
        DivStep(n - 1, k);
      }
    }
  }

  lemma MultiplesBelowAtMostTen(n: nat, k: nat)
    requires n >= 1 && k >= 1 && 10 * k >= n
    ensures MultiplesBelow(n, k) <= 10
  {
    var q := (n - 1) / k;
    assert n - 1 == q * k + (n - 1) % k;
    if q >= 10 {
      MulAtLeast(q - 9, k);
    }
  }

  /** With more than 20 points at most ten of them carry a label. */
  lemma AtMostTenLabels(dates: seq<Option<DateTime>>)
    requires |dates| > 20
    ensures CountLabelled(XLabels(dates)) <= 10
  {
    LabelledPrefix(dates, |dates|);
    assert XLabels(dates)[..|dates|] == XLabels(dates);
    MultiplesBelowAtMostTen(|dates|, LabelStep(|dates|));
  }

  /** Whatever the number of points, index 0 is labelled when it has a date:
      0 is a multiple of every label step. */
  lemma FirstPointLabelled(t: DateTime, total: nat)
    ensures FormatXLabel(Some(t), 0, total) != ""
  {
  }

  // ---------------------------------------------------------------------
  // chartData
  // ---------------------------------------------------------------------

  /** `dataPointText`: `String(value)`, or "" for a missing value. */
  datatype PointText = NoText | ValueText(v: real)

  datatype ChartPoint = ChartPoint(value: real, xLabel: string, dataPointText: PointText)

  /** One point: a missing field plots 0 with no text, a present one its value. */
  function PointFor(r: Reading, index: nat, total: nat, field: string): (p: ChartPoint)
    ensures p.xLabel == FormatXLabel(r.timestamp, index, total)
    ensures p.dataPointText == NoText <==> Field(r, field).None?
    ensures p.value == Field(r, field).GetOr(0.0)
    ensures p.dataPointText.ValueText? ==> p.dataPointText.v == p.value
  {
    match Field(r, field)
    case None => ChartPoint(0.0, FormatXLabel(r.timestamp, index, total), NoText)
    case Some(v) => ChartPoint(v, FormatXLabel(r.timestamp, index, total), ValueText(v))
  }

  /** The chart points of the active metric: one per reading, in order. */
  function ChartPoints(data: seq<Reading>, field: string): (ps: seq<ChartPoint>)
    ensures |ps| == |data|
    ensures forall i :: 0 <= i < |ps| ==> ps[i].xLabel == FormatXLabel(data[i].timestamp, i, |data|)
    ensures forall i :: 0 <= i < |ps| && field !in data[i].fields ==> ps[i].value == 0.0 && ps[i].dataPointText == NoText
    ensures forall i :: 0 <= i < |ps| && field in data[i].fields ==>
              ps[i].value == data[i].fields[field] && ps[i].dataPointText == ValueText(data[i].fields[field])
  {
    seq(|data|, i requires 0 <= i < |data| => PointFor(data[i], i, |data|, field))
  }

  /** The labels of the chart points are the x-axis labels of the readings' dates. */
  lemma ChartLabelsAreXLabels(data: seq<Reading>, field: string)
    ensures var ps := ChartPoints(data, field);
            seq(|ps|, i requires 0 <= i < |ps| => ps[i].xLabel) ==
            XLabels(seq(|data|, i requires 0 <= i < |data| => data[i].timestamp))
  {
  }

  // ---------------------------------------------------------------------
  // stats
  // ---------------------------------------------------------------------

  function Values(ps: seq<ChartPoint>): (vs: seq<real>)
    ensures |vs| == |ps| && forall i :: 0 <= i < |ps| ==> vs[i] == ps[i].value
  {
    seq(|ps|, i requires 0 <= i < |ps| => ps[i].value)
  }

  /** `.filter((v) => v !== 0)`, keeping order. */
  function NonZero(vs: seq<real>): (r: seq<real>)
    ensures |r| <= |vs|
    ensures forall v :: v in r <==> v in vs && v != 0.0
    ensures r != [] ==> exists i :: 0 <= i < |vs| && vs[i] == r[|r| - 1] &&
                          forall j :: i < j < |vs| ==> vs[j] == 0.0
  {
    if vs == [] then []
    else
      var last := vs[|vs| - 1];
      var rest := NonZero(vs[..|vs| - 1]);
      if last != 0.0 then rest + [last]
      else
        assert rest != [] ==> exists i :: 0 <= i < |vs| - 1 && vs[i] == rest[|rest| - 1] &&
                                forall j :: i < j < |vs| ==> vs[j] == 0.0;
        rest
  }

  /** Filtering drops every zero and keeps every other value as often as it occurs. */
  lemma {:induction false} NonZeroCounts(vs: seq<real>)
    ensures multiset(NonZero(vs)) == multiset(vs)[0.0 := 0]
  {
    if vs != [] {
      var init, last := vs[..|vs| - 1], vs[|vs| - 1];
      NonZeroCounts(init);
      assert vs == init + [last];
      assert multiset(vs) == multiset(init) + multiset{last};
    }
  }

  /** Filtering keeps the order of the values: it works piece by piece. */
  lemma {:induction false} NonZeroAppend(a: seq<real>, b: seq<real>)
    ensures NonZero(a + b) == NonZero(a) + NonZero(b)
  {
    if b == [] {
      assert a + b == a;
    } else {
      NonZeroAppend(a, b[..|b| - 1]);
      assert (a + b)[..|a + b| - 1] == a + b[..|b| - 1];
    }
  }

  function SeqMin(s: seq<real>): (m: real)
    requires s != []
    ensures m in s && forall i :: 0 <= i < |s| ==> m <= s[i]
  {
    if |s| == 1 then s[0]
    else var m := SeqMin(s[1..]); if s[0] <= m then s[0] else m
  }

  function SeqMax(s: seq<real>): (m: real)
    requires s != []
    ensures m in s && forall i :: 0 <= i < |s| ==> s[i] <= m
  {
    if |s| == 1 then s[0]
    else var m := SeqMax(s[1..]); if s[0] >= m then s[0] else m
  }

  function Sum(s: seq<real>): real {
    if s == [] then 0.0 else s[0] + Sum(s[1..])
  }

  /** `reduce((a, b) => a + b, 0)` adds left to right; `Sum` agrees with each
      step of it. */
  lemma {:induction false} SumAppend(s: seq<real>, x: real)
    ensures Sum(s + [x]) == Sum(s) + x
  {
    if s == [] {
      assert [] + [x] == [x];
      assert [x][1..] == [];
    } else {
      SumAppend(s[1..], x);
      assert (s + [x])[1..] == s[1..] + [x];
    }
  }

  lemma {:induction false} SumBounds(s: seq<real>, lo: real, hi: real)
    requires forall i :: 0 <= i < |s| ==> lo <= s[i] <= hi
    ensures (|s| as real) * lo <= Sum(s) <= (|s| as real) * hi
  {
    if s != [] {
      SumBounds(s[1..], lo, hi);
    }
  }

  lemma DivBetween(a: real, n: real, lo: real, hi: real)
    requires n > 0.0 && n * lo <= a <= n * hi
    ensures lo <= a / n <= hi
  {
  }

  /** The mean of values within [lo, hi] lies within [lo, hi]. */
  lemma AverageBetween(s: seq<real>, lo: real, hi: real)
    requires s != []
    requires forall i :: 0 <= i < |s| ==> lo <= s[i] <= hi
    ensures lo <= Sum(s) / (|s| as real) <= hi
  {
    SumBounds(s, lo, hi);
    var n := |s| as real;
    var a := Sum(s);
    DivBetween(a, n, lo, hi);
  }

  datatype Stats = Stats(min: real, max: real, avg: real, latest: real)

  /** The statistics badges; zero values are left out. */
  function ChartStats(ps: seq<ChartPoint>): (st: Stats)
    ensures NonZero(Values(ps)) == [] ==> st == Stats(0.0, 0.0, 0.0, 0.0)
    ensures var nz := NonZero(Values(ps));
            nz != [] ==>
              && st.latest == nz[|nz| - 1]
              && st.min <= st.latest <= st.max
              && st.min <= st.avg <= st.max
              && st.min in nz && st.max in nz
              && forall i :: 0 <= i < |nz| ==> st.min <= nz[i] <= st.max
  {
    if ps == [] then Stats(0.0, 0.0, 0.0, 0.0)
    else
      var values := NonZero(Values(ps));
      if values == [] then Stats(0.0, 0.0, 0.0, 0.0)
      else
        var mn := SeqMin(values);
        var mx := SeqMax(values);
        var avg := Sum(values) / (|values| as real);
        AverageBetween(values, mn, mx);
        Stats(mn, mx, avg, values[|values| - 1])
  }

  /** The latest badge shows the last non-zero value: every later one is zero. */
  lemma LatestIsLastNonZero(ps: seq<ChartPoint>)
    requires NonZero(Values(ps)) != []
    ensures exists i :: 0 <= i < |ps| && ps[i].value == ChartStats(ps).latest && ps[i].value != 0.0 &&
              forall j :: i < j < |ps| ==> ps[j].value == 0.0
  {
    var nz := NonZero(Values(ps));
    assert nz[|nz| - 1] in nz;
    var i :| 0 <= i < |Values(ps)| && Values(ps)[i] == nz[|nz| - 1] &&
             forall j :: i < j < |Values(ps)| ==> Values(ps)[j] == 0.0;
    assert ps[i].value == ChartStats(ps).latest;
  }

  // ---------------------------------------------------------------------
  // yAxisConfig
  // ---------------------------------------------------------------------

  /** `Math.ceil` */
  function Ceil(x: real): (c: int)
    ensures x <= c as real < x + 1.0
  {
    var f := x.Floor;
    if f as real == x then f else f + 1
  }

  datatype YAxis = YAxis(maxValue: int, noOfSections: int, stepValue: int)

  /** The y-axis range: the largest value plus a tenth of the spread (or of 1
      when all values are equal), rounded up to five whole steps. */
  function YAxisConfig(ps: seq<ChartPoint>): (y: YAxis)
    ensures ps == [] ==> y == YAxis(100, 5, 20)
    ensures ps != [] ==> y.noOfSections == 5 && y.stepValue >= 1 && y.maxValue == 5 * y.stepValue
    ensures forall i :: 0 <= i < |ps| ==> ps[i].value <= y.maxValue as real
  {
    if ps == [] then YAxis(100, 5, 20)
    else
      var values := Values(ps);
      var mn := SeqMin(values);
      var mx := SeqMax(values);
      var range := if mx - mn == 0.0 then 1.0 else mx - mn;
      var padding := range * 0.1;
      var adjustedMax := Ceil(mx + padding);
      var stepValue := if Ceil(adjustedMax as real / 5.0) > 1 then Ceil(adjustedMax as real / 5.0) else 1;
      assert (5 * stepValue) as real >= adjustedMax as real;
      YAxis(stepValue * 5, 5, stepValue)
  }

  // ---------------------------------------------------------------------
  // The component
  // ---------------------------------------------------------------------

  datatype ChartView =
    | EmptyChart
    | ChartShown(points: seq<ChartPoint>, stats: Stats, axis: YAxis, hideDataPoints: bool)

  /** The rendered chart for the metric of tab `active` (`METRICS[activeMetric]`). */
  function Chart(data: seq<Reading>, active: nat): (v: ChartView)
    requires active < |METRICS|
    ensures v == EmptyChart <==> data == []
    ensures v.ChartShown? ==> v.points == ChartPoints(data, METRICS[active].field)
    ensures v.ChartShown? ==> v.stats == ChartStats(v.points) && v.axis == YAxisConfig(v.points)
    ensures v.ChartShown? ==> (v.hideDataPoints <==> |data| > 30)
  {
    if data == [] then EmptyChart
    else
      var points := ChartPoints(data, METRICS[active].field);
      ChartShown(points, ChartStats(points), YAxisConfig(points), |points| > 30)
  }
}
