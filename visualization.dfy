/**
  `VisualizeDataTool.execute` up to the plotly call: the checks on the data
  dictionary, the choice of axes, the normalisation of each series and the
  choice of trace.  The figure itself is described by a `Chart` value.
 */
module Visualization {
  import opened Wrappers
  import opened PyStr
  import opened JsonValue

  /**
    A Python object as `_normalize_series` tells it apart: a `str` or a
    `bytes` value, a `Sequence` (a list or a tuple), any other iterable
    (with the items iterating it yields), or a scalar.
   */
  datatype PyObj =
    | Scalar(v: Value)
    | Text(s: string)
    | Bytes(b: seq<int>)
    | Sequence(items: seq<PyObj>)
    | Iterable(items: seq<PyObj>)

  /** `_normalize_series(values)`. */
  function NormalizeSeries(o: PyObj): (r: seq<PyObj>)
    ensures (o.Text? || o.Bytes? || o.Scalar?) ==> r == [o]
    ensures (o.Sequence? || o.Iterable?) ==> r == o.items
  {
    match o
    case Text(_) => [o]
    case Bytes(_) => [o]
    case Sequence(items) => items
    case Iterable(items) => items
    case Scalar(_) => [o]
  }

  /** A normalised series is a list, and normalising that list again gives it back. */
  lemma NormalizeIdempotent(o: PyObj)
    ensures NormalizeSeries(Sequence(NormalizeSeries(o))) == NormalizeSeries(o)
  {
  }

  /** A string is one data point, never a series of its characters. */
  lemma TextIsOnePoint(s: string)
    ensures |NormalizeSeries(Text(s))| == 1
  {
  }

  /** The trace `execute` adds. */
  datatype Trace = Lines | Markers | Bars

  /** `(chart_type or "bar").lower()`. */
  function ChartType(chartType: Option<string>): (r: string)
    ensures chartType.None? || chartType.value == "" ==> r == "bar"
    ensures chartType.Some? && chartType.value != "" ==> r == Lower(chartType.value)
  {
    if chartType.Some? && chartType.value != "" then Lower(chartType.value) else "bar"
  }

  /** `line` and `scatter` pick a scatter trace drawn with lines or with markers; anything else is a bar chart. */
  function TraceFor(chartType: Option<string>): (r: Trace)
    ensures r == Lines <==> ChartType(chartType) == "line"
    ensures r == Markers <==> ChartType(chartType) == "scatter"
  {
    var t := ChartType(chartType);
    if t == "line" then Lines else if t == "scatter" then Markers else Bars
  }

  /** The figure: one trace named after the y key, with the title and the axis titles. */
  datatype Chart = Chart(trace: Trace, x: seq<PyObj>, y: seq<PyObj>, name: string, title: Json, xTitle: string, yTitle: string)

  const TooFewColumns := "Visualization data must include at least two columns"
  const LengthMismatch := "Visualization data columns must have the same length"

  /** The keys of a dictionary, given as its items in insertion order, are distinct. */
  predicate DistinctKeys(data: seq<(string, PyObj)>) {
    forall i, j :: 0 <= i < j < |data| ==> data[i].0 != data[j].0
  }

  /**
    `VisualizeDataTool.execute(data, chart_type, title)` for a dictionary
    given as its items in insertion order: fewer than two keys or two
    series of different lengths raise `ValueError`.
   */
  function Execute(data: seq<(string, PyObj)>, chartType: Option<string>, title: Json): (r: Result<Chart>)
    requires DistinctKeys(data)
    ensures r.Failure? <==> |data| < 2 || |NormalizeSeries(data[0].1)| != |NormalizeSeries(data[1].1)|
    ensures |data| < 2 ==> r == Failure(TooFewColumns)
    ensures r.Failure? && |data| >= 2 ==> r == Failure(LengthMismatch)
    ensures r.Success? ==>
      && r.value.x == NormalizeSeries(data[0].1)
      && r.value.y == NormalizeSeries(data[1].1)
      && |r.value.x| == |r.value.y|
      && r.value.xTitle == data[0].0
      && r.value.name == data[1].0 == r.value.yTitle
      && r.value.title == title
      && r.value.trace == TraceFor(chartType)
  {
    if |data| < 2 then Failure(TooFewColumns)
    else
      var xs := NormalizeSeries(data[0].1);
      var ys := NormalizeSeries(data[1].1);
      if |xs| != |ys| then Failure(LengthMismatch)
      else Success(Chart(TraceFor(chartType), xs, ys, data[1].0, title, data[0].0, data[1].0))
  }

  /** Keys after the first two are ignored. */
  lemma ExtraKeysIgnored(data: seq<(string, PyObj)>, more: seq<(string, PyObj)>, chartType: Option<string>, title: Json)
    requires |data| >= 2 && DistinctKeys(data + more)
    ensures DistinctKeys(data)
    ensures Execute(data + more, chartType, title) == Execute(data, chartType, title)
  {
    assert forall i :: 0 <= i < |data| ==> (data + more)[i] == data[i];
  }

  /** An unset or empty chart type and every unknown one draw bars; the type is read without regard to case. */
  lemma TraceCases(chartType: Option<string>)
    ensures chartType.None? ==> TraceFor(chartType) == Bars
    ensures chartType.Some? && Lower(chartType.value) !in {"line", "scatter"} ==> TraceFor(chartType) == Bars
    ensures chartType.Some? && chartType.value != "" ==> TraceFor(chartType) == TraceFor(Some(Lower(chartType.value)))
  {
    if chartType.Some? && chartType.value != "" {
      LowerIdempotent(chartType.value);
    }
  }
}
