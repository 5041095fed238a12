/** The plotting rules of utils/plot_utils.py that do not depend on the
    drawing library: the y-axis range, the colour of each roast, which crack
    markers are drawn, the layout switch between the live and the historical
    chart, and reading a stored row back into a roast dictionary. A figure is
    modelled by the traces it holds and its layout; styling that only the
    drawing library reads is not. */
module PlotUtils {
  import opened Optional
  import opened Models

  /** The chart is drawn in degrees Fahrenheit. */
  const FahrenheitDisplay: bool := true

  /** Default padding, in degrees, above and below the data. */
  const DefaultPadding: int := 5

  // ---------------------------------------------------------------- y range

  datatype YRange = YRange(lo: real, hi: real)

  function SeqMin(s: seq<real>): (m: real)
    requires |s| > 0
    ensures m in s
    ensures forall x :: x in s ==> m <= x
  {
    if |s| == 1 then s[0]
    else
      var rest := SeqMin(s[1..]);
      assert forall x :: x in s[1..] ==> rest <= x;
      assert forall x :: x in s ==> x == s[0] || x in s[1..];
      if s[0] <= rest then s[0] else rest
  }

  function SeqMax(s: seq<real>): (m: real)
    requires |s| > 0
    ensures m in s
    ensures forall x :: x in s ==> x <= m
  {
    if |s| == 1 then s[0]
    else
      var rest := SeqMax(s[1..]);
      assert forall x :: x in s[1..] ==> x <= rest;
      assert forall x :: x in s ==> x == s[0] || x in s[1..];
      if rest <= s[0] then s[0] else rest
  }

  /** The y-axis range: [0, 100] for no data, otherwise the smallest and the
      largest value widened by `padding` on each side. */
  function CalculateYRange(allTempValues: seq<real>, padding: int): (r: YRange)
    ensures allTempValues == [] ==> r == YRange(0.0, 100.0)
    ensures allTempValues != [] ==>
              && r.lo + padding as real in allTempValues
              && r.hi - padding as real in allTempValues
              && forall x :: x in allTempValues ==> r.lo + padding as real <= x <= r.hi - padding as real
  {
    if allTempValues == [] then YRange(0.0, 100.0)
    else YRange(SeqMin(allTempValues) - padding as real, SeqMax(allTempValues) + padding as real)
  }

  /** With a non-negative padding the range is not inverted and every value
      lies within it. */
  lemma YRangeCoversData(allTempValues: seq<real>, padding: int)
    requires padding >= 0
    ensures CalculateYRange(allTempValues, padding).lo <= CalculateYRange(allTempValues, padding).hi
    ensures forall x :: x in allTempValues ==>
              CalculateYRange(allTempValues, padding).lo <= x <= CalculateYRange(allTempValues, padding).hi
  {
  }

  // ---------------------------------------------------------------- layout

  datatype Margin = Margin(l: int, r: int, b: int, t: int)

  datatype Legend = Legend(x: real, y: real, xanchor: string, yanchor: string,
                           bgcolor: string, bordercolor: string, borderwidth: int)

  /** The layout arguments; an absent `Option` is a key the arguments do not set. */
  datatype Layout = Layout(
    yaxisTitle: string,
    yaxisRange: YRange,
    margin: Margin,
    hovermode: string,
    xaxisTickformat: Option<string>,
    showLegend: Option<bool>,
    xaxisTitle: Option<string>,
    legend: Option<Legend>)

  /** Layout of the live chart (`realtime`) or of the historical comparison. */
  function LayoutArgs(yRange: YRange, realtime: bool): (r: Layout)
    ensures r.yaxisRange == yRange
    ensures r.yaxisTitle == "Temperature (\U{C2}\U{B0}F)"
    ensures realtime ==>
              && r.xaxisTickformat == Some("%H:%M") && r.showLegend == Some(false)
              && r.xaxisTitle == None && r.legend == None
    ensures !realtime ==>
              && r.xaxisTitle == Some("Time [min]") && r.legend.Some?
              && r.xaxisTickformat == None && r.showLegend == None
  {
    var title := "Temperature (\U{C2}\U{B0}" + (if FahrenheitDisplay then "F" else "C") + ")";
    var base := Layout(title, yRange, Margin(20, 20, 20, 20), "x unified", None, None, None, None);
    if realtime then
      base.(xaxisTickformat := Some("%H:%M"), showLegend := Some(false))
    else
      base.(xaxisTitle := Some("Time [min]"),
            legend := Some(Legend(1.02, 1.0, "left", "top", "rgba(255,255,255,0.8)", "rgba(0,0,0,0.1)", 1)))
  }

  // ---------------------------------------------------------------- roast dictionaries

  /** A value of a roast dictionary. */
  datatype Value =
    | Timestamp(t: Instant)
    | Text(s: Option<string>)
    | Number(n: Option<real>)
    | Series(xs: seq<real>)

  type RoastDict = map<string, Value>

  /** The row attributes copied one to one into a roast dictionary. */
  const ScalarKeys: seq<string> := [
    "start_time", "bean_info",
    "first_crack_start_time", "first_crack_start_temp",
    "second_crack_start_time", "second_crack_start_temp"]

  /** The attribute of a stored row named `key`. */
  function Attribute(row: Roast, key: string): Value
    requires key in ScalarKeys
  {
    if key == "start_time" then Timestamp(row.startTime)
    else if key == "bean_info" then Text(row.beanInfo)
    else if key == "first_crack_start_time" then Number(row.firstCrackStartTime)
    else if key == "first_crack_start_temp" then Number(row.firstCrackStartTemp)
    else if key == "second_crack_start_time" then Number(row.secondCrackStartTime)
    else Number(row.secondCrackStartTemp)
  }

  /** The dictionary a stored row reads back as. */
  function RowAsDict(row: Roast): RoastDict {
    map[
      "start_time" := Timestamp(row.startTime),
      "bean_info" := Text(row.beanInfo),
      "first_crack_start_time" := Number(row.firstCrackStartTime),
      "first_crack_start_temp" := Number(row.firstCrackStartTemp),
      "second_crack_start_time" := Number(row.secondCrackStartTime),
      "second_crack_start_temp" := Number(row.secondCrackStartTemp),
      "time_data" := Series(JsonLoads(row.secFromStart)),
      "temp_data" := Series(JsonLoads(row.temperatureF))]
  }

  /** The six scalar attributes are keyed by their names and copied as
      they are; the two series are the decoded JSON columns; no other key is
      present. */
  lemma RowAsDictFields(row: Roast)
    ensures RowAsDict(row).Keys == (set k | k in ScalarKeys) + {"time_data", "temp_data"}
    ensures forall k :: k in ScalarKeys ==> RowAsDict(row)[k] == Attribute(row, k)
    ensures RowAsDict(row)["time_data"] == Series(JsonLoads(row.secFromStart))
    ensures RowAsDict(row)["temp_data"] == Series(JsonLoads(row.temperatureF))
  {
    assert forall k :: k in ScalarKeys <==>
      k == "start_time" || k == "bean_info" ||
      k == "first_crack_start_time" || k == "first_crack_start_temp" ||
      k == "second_crack_start_time" || k == "second_crack_start_temp";
  }

  /** The first `n` scalar attributes of `row`, keyed by their names. */
  function ScalarPrefix(row: Roast, n: nat): RoastDict
    requires n <= |ScalarKeys|
  {
    if n == 0 then map[]
    else ScalarPrefix(row, n - 1)[ScalarKeys[n - 1] := Attribute(row, ScalarKeys[n - 1])]
  }

  /** Reads a stored row back, attribute by attribute, and decodes the two
      series from their JSON text. */
  method ConvertObjectToDict(row: Roast) returns (result: RoastDict)
    ensures result == RowAsDict(row)
  {
    result := map[];
    for i := 0 to |ScalarKeys|
      invariant result == ScalarPrefix(row, i)
    {
      result := result[ScalarKeys[i] := Attribute(row, ScalarKeys[i])];
    }
    result := result["time_data" := Series(JsonLoads(row.secFromStart))];
    result := result["temp_data" := Series(JsonLoads(row.temperatureF))];
    assert ScalarPrefix(row, 1) == map["start_time" := Timestamp(row.startTime)];
    assert ScalarPrefix(row, 2) == ScalarPrefix(row, 1)["bean_info" := Text(row.beanInfo)];
    assert ScalarPrefix(row, 3) == ScalarPrefix(row, 2)["first_crack_start_time" := Number(row.firstCrackStartTime)];
    assert ScalarPrefix(row, 4) == ScalarPrefix(row, 3)["first_crack_start_temp" := Number(row.firstCrackStartTemp)];
    assert ScalarPrefix(row, 5) == ScalarPrefix(row, 4)["second_crack_start_time" := Number(row.secondCrackStartTime)];
    assert ScalarPrefix(row, 6) == ScalarPrefix(row, 5)["second_crack_start_temp" := Number(row.secondCrackStartTemp)];
  }

  /** The keys a roast dictionary must have to be plotted. */
  predicate WellFormed(d: RoastDict) {
    && "start_time" in d && d["start_time"].Timestamp?
    && "bean_info" in d && d["bean_info"].Text?
    && "time_data" in d && d["time_data"].Series?
    && "temp_data" in d && d["temp_data"].Series?
    && forall e :: e in PlotEvents ==>
         && e + "_time" in d && d[e + "_time"].Number?
         && e + "_temp" in d && d[e + "_temp"].Number?
  }

  lemma RowAsDictWellFormed(row: Roast)
    ensures WellFormed(RowAsDict(row))
  {
    assert PlotEvents[0] + "_time" == "first_crack_start_time";
    assert PlotEvents[0] + "_temp" == "first_crack_start_temp";
    assert PlotEvents[1] + "_time" == "second_crack_start_time";
    assert PlotEvents[1] + "_temp" == "second_crack_start_temp";
  }

  // ---------------------------------------------------------------- traces

  /** An HSL colour. */
  datatype Hsl = Hsl(hue: int, saturation: int, lightness: int)

  /** The colour of roast number `i` (from 0). */
  function RoastColor(i: nat): Hsl {
    Hsl((i + 1) * 20, 70, 50)
  }

  /** One colour per roast, in roast order. */
  function RoastColors(numRoasts: nat): seq<Hsl> {
    seq(numRoasts, (i: nat) => RoastColor(i))
  }

  /** Roast `i` gets hue value (i+1)*20, so the hue values of different
      roasts differ and grow with the roast's position. A hue is an angle, so
      from the 18th roast on the colours repeat (hue 380 is hue 20). */
  lemma ColorPerRoast(numRoasts: nat)
    ensures |RoastColors(numRoasts)| == numRoasts
    ensures forall i :: 0 <= i < numRoasts ==> RoastColors(numRoasts)[i] == Hsl((i + 1) * 20, 70, 50)
    ensures forall i, j :: 0 <= i < j < numRoasts ==> RoastColors(numRoasts)[i].hue < RoastColors(numRoasts)[j].hue
  {
  }

  /** What is drawn for a roast: its temperature curve, and a star for each
      crack milestone. */
  datatype Trace =
    | Line(times: seq<real>, temps: seq<real>, color: Hsl)
    | Star(event: string, time: real, temp: real, color: Hsl)

  /** The milestones a stored roast can carry, as dictionary key prefixes. */
  const PlotEvents: seq<string> := ["first_crack_start", "second_crack_start"]

  /** The star drawn for `event`: none unless both its time and its
      temperature are known. */
  function EventMarker(roast: RoastDict, event: string, color: Hsl): seq<Trace>
    requires WellFormed(roast) && event in PlotEvents
  {
    var time := roast[event + "_time"].n;
    var temp := roast[event + "_temp"].n;
    if time == None || temp == None then []
    else [Star(event, time.value, temp.value, color)]
  }

  /** The stars for the first `k` milestones of `PlotEvents`. */
  function EventMarkers(roast: RoastDict, color: Hsl, k: nat): seq<Trace>
    requires WellFormed(roast) && k <= |PlotEvents|
  {
    if k == 0 then []
    else EventMarkers(roast, color, k - 1) + EventMarker(roast, PlotEvents[k - 1], color)
  }

  /** Adds the crack stars of one roast, skipping every milestone whose time
      or temperature is missing. */
  method AddEventMarkers(roast: RoastDict, color: Hsl) returns (stars: seq<Trace>)
    requires WellFormed(roast)
    ensures stars == EventMarkers(roast, color, |PlotEvents|)
  {
    stars := [];
    for i := 0 to |PlotEvents|
      invariant stars == EventMarkers(roast, color, i)
    {
      var event := PlotEvents[i];
      var eventTime := roast[event + "_time"].n;
      var eventTemp := roast[event + "_temp"].n;
      if eventTime == None || eventTemp == None {
        continue;
      }
      stars := stars + [Star(event, eventTime.value, eventTemp.value, color)];
    }
  }

  /** A roast gets at most one star per milestone, so at most two; each star
      shows a milestone whose time and temperature are both present, and
      every milestone with both present gets its star. */
  lemma {:induction false} EventMarkersExact(roast: RoastDict, color: Hsl, k: nat)
    requires WellFormed(roast) && k <= |PlotEvents|
    ensures |EventMarkers(roast, color, k)| <= k
    ensures forall s :: s in EventMarkers(roast, color, k) ==>
              && s.Star? && s.event in PlotEvents[..k] && s.color == color
              && roast[s.event + "_time"] == Number(Some(s.time))
              && roast[s.event + "_temp"] == Number(Some(s.temp))
    ensures forall a, b :: 0 <= a < b < |EventMarkers(roast, color, k)| ==>
              EventMarkers(roast, color, k)[a].event != EventMarkers(roast, color, k)[b].event
    ensures forall e :: e in PlotEvents[..k] ==>
              (roast[e + "_time"].n.Some? && roast[e + "_temp"].n.Some? <==>
               exists s :: s in EventMarkers(roast, color, k) && s.event == e)
  {
    if k > 0 {
      EventMarkersExact(roast, color, k - 1);
      assert PlotEvents[..k] == PlotEvents[..k - 1] + [PlotEvents[k - 1]];
      assert PlotEvents[0] != PlotEvents[1];
    }
  }

  // ---------------------------------------------------------------- the figure

  /** A roast handed to the plot: a stored row or an already built dictionary. */
  datatype PlotInput = StoredRow(row: Roast) | PlainDict(d: RoastDict)

  predicate Plottable(p: PlotInput) {
    p.StoredRow? || WellFormed(p.d)
  }

  function AsDict(p: PlotInput): (d: RoastDict)
    requires Plottable(p)
    ensures WellFormed(d)
  {
    match p
    case StoredRow(row) => RowAsDictWellFormed(row); RowAsDict(row)
    case PlainDict(d) => d
  }

  /** The traces of one roast drawn in `color`. */
  function RoastTraces(roast: RoastDict, color: Hsl): seq<Trace>
    requires WellFormed(roast)
  {
    [Line(roast["time_data"].xs, roast["temp_data"].xs, color)]
      + EventMarkers(roast, color, |PlotEvents|)
  }

  /** The traces of the first `n` roasts, in roast order. */
  function TracesOf(roasts: seq<PlotInput>, n: nat): seq<Trace>
    requires n <= |roasts| && forall p :: p in roasts ==> Plottable(p)
  {
    if n == 0 then []
    else TracesOf(roasts, n - 1) + RoastTraces(AsDict(roasts[n - 1]), RoastColor(n - 1))
  }

  /** The temperatures of the first `n` roasts, concatenated in roast order. */
  function TempsOf(roasts: seq<PlotInput>, n: nat): seq<real>
    requires n <= |roasts| && forall p :: p in roasts ==> Plottable(p)
  {
    if n == 0 then []
    else TempsOf(roasts, n - 1) + AsDict(roasts[n - 1])["temp_data"].xs
  }

  /** What the drawing library is given: the traces, in drawing order, and
      the layout. The roast-level reference lines are not modelled. */
  datatype Figure = Figure(traces: seq<Trace>, layout: Layout)

  /** Builds the chart of `roasts`: one curve and up to two stars per roast in
      the roast's own colour, and a y-axis range over every temperature of
      every roast. */
  method CreateTemperaturePlot(roasts: seq<PlotInput>, realtime: bool) returns (fig: Figure)
    requires forall p :: p in roasts ==> Plottable(p)
    ensures fig.traces == TracesOf(roasts, |roasts|)
    ensures fig.layout == LayoutArgs(CalculateYRange(TempsOf(roasts, |roasts|), DefaultPadding), realtime)
  {
    var colors := RoastColors(|roasts|);
    var traces: seq<Trace> := [];
    var allTempValues: seq<real> := [];
    for i := 0 to |roasts|
      invariant traces == TracesOf(roasts, i)
      invariant allTempValues == TempsOf(roasts, i)
    {
      var roast: RoastDict;
      if roasts[i].StoredRow? {
        roast := ConvertObjectToDict(roasts[i].row);
      } else {
        roast := roasts[i].d;
      }
      assert roast == AsDict(roasts[i]);
      allTempValues := allTempValues + roast["temp_data"].xs;
      traces := traces + [Line(roast["time_data"].xs, roast["temp_data"].xs, colors[i])];
      var stars := AddEventMarkers(roast, colors[i]);
      traces := traces + stars;
    }
    var yRange := CalculateYRange(allTempValues, DefaultPadding);
    fig := Figure(traces, LayoutArgs(yRange, realtime));
  }

  /** Every temperature of every roast is among the values the y range is
      computed from. */
  lemma {:induction false} TempsOfHoldsEveryRoast(roasts: seq<PlotInput>, n: nat, i: nat, x: real)
    requires n <= |roasts| && forall p :: p in roasts ==> Plottable(p)
    requires i < n && x in AsDict(roasts[i])["temp_data"].xs
    ensures x in TempsOf(roasts, n)
  {
    if i < n - 1 {
      TempsOfHoldsEveryRoast(roasts, n - 1, i, x);
    }
  }

  /** The chart's y range covers every temperature of every roast drawn. */
  lemma PlotRangeCoversEveryRoast(roasts: seq<PlotInput>, i: nat, x: real)
    requires forall p :: p in roasts ==> Plottable(p)
    requires i < |roasts| && x in AsDict(roasts[i])["temp_data"].xs
    ensures CalculateYRange(TempsOf(roasts, |roasts|), DefaultPadding).lo <= x
    ensures x <= CalculateYRange(TempsOf(roasts, |roasts|), DefaultPadding).hi
  {
    TempsOfHoldsEveryRoast(roasts, |roasts|, i, x);
    YRangeCoversData(TempsOf(roasts, |roasts|), DefaultPadding);
  }
}
