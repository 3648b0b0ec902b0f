/** The history screen of `screens/RecordsScreen.js`: health colours of the
    four metrics, the newest-first list, the view-mode layout and the record
    count line. */
module RecordsScreen {
  import opened Common
  import opened Readings

  const GREY: string := "#94A3B8"
  const GREEN: string := "#10B981"
  const AMBER: string := "#F59E0B"
  const RED: string := "#EF4444"

  /** `getTempColor`: below 25 is good, 25 to 35 a warning, above 35 bad. */
  function TempColor(v: Option<real>): (c: string)
    ensures c == GREY <==> v.None?
    ensures c == GREEN <==> v.Some? && v.value < 25.0
    ensures c == AMBER <==> v.Some? && 25.0 <= v.value <= 35.0
    ensures c == RED <==> v.Some? && v.value > 35.0
  {
    match v
    case None => GREY
    case Some(x) => if x < 25.0 then GREEN else if x <= 35.0 then AMBER else RED
  }

  /** `getPhColor`: good exactly on the closed interval [6.5, 8.5]. */
  function PhColor(v: Option<real>): (c: string)
    ensures c == GREY <==> v.None?
    ensures c == GREEN <==> v.Some? && 6.5 <= v.value <= 8.5
    ensures c == RED <==> v.Some? && (v.value < 6.5 || v.value > 8.5)
  {
    match v
    case None => GREY
    case Some(x) => if x >= 6.5 && x <= 8.5 then GREEN else RED
  }

  /** `getTdsColor`: good up to 600 ppm. */
  function TdsColor(v: Option<real>): (c: string)
    ensures c == GREY <==> v.None?
    ensures c == GREEN <==> v.Some? && v.value <= 600.0
    ensures c == RED <==> v.Some? && v.value > 600.0
  {
    match v
    case None => GREY
    case Some(x) => if x <= 600.0 then GREEN else RED
  }

  /** `getEcColor`: good up to 109 mS/m. */
  function EcColor(v: Option<real>): (c: string)
    ensures c == GREY <==> v.None?
    ensures c == GREEN <==> v.Some? && v.value <= 109.0
    ensures c == RED <==> v.Some? && v.value > 109.0
  {
    match v
    case None => GREY
    case Some(x) => if x <= 109.0 then GREEN else RED
  }

  /** `[...records].reverse()` */
  function Reverse<T>(s: seq<T>): seq<T> {
    if s == [] then [] else Reverse(s[1..]) + [s[0]]
  }

  /** The list shows every record, the last one first. */
  lemma {:induction false} ReverseAt<T>(s: seq<T>, k: nat)
    requires k < |s|
    ensures |Reverse(s)| == |s| && Reverse(s)[k] == s[|s| - 1 - k]
  {
    ReverseLength(s);
    if k < |s| - 1 {
      ReverseAt(s[1..], k);
    }
  }

  lemma {:induction false} ReverseLength<T>(s: seq<T>)
    ensures |Reverse(s)| == |s|
  {
    if s != [] {
      ReverseLength(s[1..]);
    }
  }

  /** The list keeps exactly the records it was given. */
  lemma {:induction false} ReverseSameElements<T>(s: seq<T>)
    ensures multiset(Reverse(s)) == multiset(s)
  {
    if s != [] {
      ReverseSameElements(s[1..]);
      assert s == [s[0]] + s[1..];
    }
  }

  predicate Ascending(rs: seq<Reading>) {
    (forall i :: 0 <= i < |rs| ==> rs[i].timestamp.Some?) &&
    forall i, j :: 0 <= i < j < |rs| ==> NotAfter(rs[i].timestamp.value, rs[j].timestamp.value)
  }

  predicate Descending(rs: seq<Reading>) {
    (forall i :: 0 <= i < |rs| ==> rs[i].timestamp.Some?) &&
    forall i, j :: 0 <= i < j < |rs| ==> NotAfter(rs[j].timestamp.value, rs[i].timestamp.value)
  }

  /** The hook delivers records oldest first; the list then shows them newest first. */
  lemma NewestFirst(rs: seq<Reading>)
    requires Ascending(rs)
    ensures |Reverse(rs)| == |rs| && Descending(Reverse(rs))
  {
    ReverseLength(rs);
    var l := Reverse(rs);
    forall i | 0 <= i < |l| ensures l[i].timestamp.Some? {
      ReverseAt(rs, i);
    }
    forall i, j | 0 <= i < j < |l| ensures NotAfter(l[j].timestamp.value, l[i].timestamp.value) {
      ReverseAt(rs, i);
      ReverseAt(rs, j);
    }
  }

  /** `viewMode`: 'chart' | 'list' | 'both'. */
  datatype ViewMode = ChartMode | ListMode | BothMode

  /** The chart block of the list header. */
  datatype ChartSection = NoChart | ChartLoading | ChartOf(records: seq<Reading>)

  /** The list header and the rows under it. */
  datatype ScreenContent =
    | NoDeviceSelected
    | LoadingRecords
    | NoRecords
    | Rows(chart: ChartSection, listHeader: Option<string>, rows: seq<Reading>)

  /** "{n} record" plus "s" unless the count is one. */
  function CountLabel(n: nat): (s: string)
    ensures |s| > 0 && (s[|s| - 1] == 's' <==> n != 1)
    ensures |DecimalString(n)| < |s| && s[..|DecimalString(n)|] == DecimalString(n)
    ensures DigitsValue(s[..|DecimalString(n)|]) == n
    ensures s[|DecimalString(n)|..] == " record" + (if n != 1 then "s" else "")
  {
    assert (" record")[6] == 'd';
    DecimalRoundTrip(n);
    DecimalString(n) + " record" + (if n != 1 then "s" else "")
  }

  /** The `ListHeader` component (lines 213-239). */
  function Header(mode: ViewMode, loading: bool, records: seq<Reading>): (h: (ChartSection, Option<string>))
    ensures h.0 == NoChart <==> mode == ListMode
    ensures h.0 != NoChart ==> h.0 == (if loading then ChartLoading else ChartOf(records))
    ensures h.1.Some? <==> mode != ChartMode
    ensures h.1.Some? ==> h.1.value == CountLabel(|records|)
  {
    var chart := if mode == ChartMode || mode == BothMode then (if loading then ChartLoading else ChartOf(records)) else NoChart;
    var header := if mode == ListMode || mode == BothMode then Some(CountLabel(|records|)) else None;
    assert chart == NoChart ==> mode == ListMode by {
      assert ChartLoading != NoChart && ChartOf(records) != NoChart;
    }
    (chart, header)
  }

  /** The main render: the empty states, then a chart-only list or the rows. */
  function Content(deviceId: string, mode: ViewMode, loading: bool, records: seq<Reading>): (c: ScreenContent)
    ensures deviceId == "" <==> c == NoDeviceSelected
    ensures deviceId != "" && records == [] ==> c == (if loading then LoadingRecords else NoRecords)
    ensures c.Rows? <==> deviceId != "" && records != []
    ensures c.Rows? ==> (c.chart != NoChart <==> mode == ChartMode || mode == BothMode)
    ensures c.Rows? ==> (c.listHeader.Some? <==> mode == ListMode || mode == BothMode)
    ensures c.Rows? && c.listHeader.Some? ==> c.listHeader.value == CountLabel(|records|)
    ensures c.Rows? && mode == ChartMode ==> c.rows == []
    ensures c.Rows? && mode != ChartMode ==> c.rows == Reverse(records)
  {
    if deviceId == "" then NoDeviceSelected
    else if loading && records == [] then LoadingRecords
    else if records == [] then NoRecords
    else
      var (chart, header) := Header(mode, loading, records);
      if mode == ChartMode then Rows(chart, header, [])
      else Rows(chart, header, if mode == BothMode || mode == ListMode then Reverse(records) else [])
  }

  /** The colours of one list row, in the order the row shows the metrics. */
  function RowColors(r: Reading): (cs: seq<string>)
    ensures |cs| == 4
    ensures cs[0] == TempColor(Field(r, TEMP)) && cs[1] == PhColor(Field(r, PH))
    ensures cs[2] == TdsColor(Field(r, PPM)) && cs[3] == EcColor(Field(r, EC))
  {
    [TempColor(Field(r, TEMP)), PhColor(Field(r, PH)), TdsColor(Field(r, PPM)), EcColor(Field(r, EC))]
  }
}
