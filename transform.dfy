/** `transformSeries`: single mode keeps the series; multi mode turns every
    one-column series into a (dimension, metric) bar-chart series. */
module SeriesTransform {
  import opened JsValues
  import opened Shapes

  /** The TypeError the arrow function of `series.map` throws while building
      one output series. */
  datatype TypeError =
    | ColsUndefined    // `s.data.cols[0]` with `cols` undefined
    | NoFirstRow       // `s.data.rows[0][0]` with `rows` empty

  /** The first series (by index) whose mapping threw, and why. */
  datatype MapError = MapError(index: nat, cause: TypeError)

  /** The component state that `transformSeries` passes to `setState`. */
  datatype Transformed = Transformed(series: seq<Series>, isMultiseries: bool)

  /** The fixed first column of every bar-chart series. */
  const DimensionColumn: Column :=
    map["base_type" := Str("TextField"), "display_name" := Str("Name"), "name" := Str("dimension")]

  /** `m` carries over every property of `base` except the keys in `except`. */
  ghost predicate Inherits(m: Object, base: Object, except: set<string>) {
    forall k :: k !in except ==> (k in m <==> k in base) && (k in base ==> m[k] == base[k])
  }

  /** What a bar-chart series built from `s` looks like, property by property. */
  ghost predicate BarShaped(s: Series, b: Series) {
    // card: `display` is "bar", every other property copied
    && Get(b.card, "display") == Str("bar")
    && Inherits(b.card, s.card, {"display"})
    // cols: the dimension column, then the input's first column renamed
    && b.data.cols.Some? && |b.data.cols.value| == 2
    && b.data.cols.value[0].Keys == {"base_type", "display_name", "name"}
    && Get(b.data.cols.value[0], "base_type") == Str("TextField")
    && Get(b.data.cols.value[0], "display_name") == Str("Name")
    && Get(b.data.cols.value[0], "name") == Str("dimension")
    && Get(b.data.cols.value[1], "display_name") == Str("Value")
    && Get(b.data.cols.value[1], "name") == Str("metric")
    && Inherits(b.data.cols.value[1],
                if FirstColumn(s.data).Some? then FirstColumn(s.data).value else map[],
                {"display_name", "name"})
    // rows: one row, the card's name paired with the scalar value
    && b.data.rows == [[Get(s.card, "name"), FirstCell(s.data)]]
  }

  /** The arrow function of `series.map` (one input series to one output). */
  function ToBar(s: Series): (r: Result<Series, TypeError>)
    ensures s.data.cols.None? ==> r == Failure(ColsUndefined)
    ensures s.data.cols.Some? && |s.data.rows| == 0 ==> r == Failure(NoFirstRow)
    ensures r.Success? <==> s.data.cols.Some? && |s.data.rows| > 0
    ensures r.Success? ==> BarShaped(s, r.value)
  {
    match s.data.cols
    case None => Failure(ColsUndefined)
    case Some(cols) =>
      if |s.data.rows| == 0 then Failure(NoFirstRow)
      else
        // `{...undefined}` is `{}`, so an empty `cols` does not throw
        var first: Column := if |cols| > 0 then cols[0] else map[];
        var metric := first["display_name" := Str("Value")]["name" := Str("metric")];
        var row := s.data.rows[0];
        var cell := if |row| > 0 then row[0] else Undefined;
        Success(Series(s.card["display" := Str("bar")],
                       SeriesData(Some([DimensionColumn, metric]), [[Get(s.card, "name"), cell]])))
  }

  /** `series.map(...)`: maps in order and throws at the first series whose
      mapping throws. */
  function BarSeries(ss: seq<Series>): (r: Result<seq<Series>, MapError>)
    ensures r.Success? <==> forall i :: 0 <= i < |ss| ==> ToBar(ss[i]).Success?
    ensures r.Success? ==> |r.value| == |ss|
    ensures r.Success? ==> forall i :: 0 <= i < |ss| ==> ToBar(ss[i]) == Success(r.value[i])
    ensures r.Failure? ==> r.error.index < |ss| && ToBar(ss[r.error.index]) == Failure(r.error.cause)
    ensures r.Failure? ==> forall j :: 0 <= j < r.error.index ==> ToBar(ss[j]).Success?
  {
    if ss == [] then Success([])
    else
      match ToBar(ss[0])
      case Failure(e) => Failure(MapError(0, e))
      case Success(b) =>
        match BarSeries(ss[1..])
        case Failure(e) => Failure(MapError(e.index + 1, e.cause))
        case Success(rest) => Success([b] + rest)
  }

  /** `transformSeries(newProps)` up to the `setState` call: the state it sets,
      or the error thrown before it. */
  function Transform(series: seq<Series>, isMultiseriesHint: bool): (r: Result<Transformed, MapError>)
    ensures r.Failure? <==>
              && (isMultiseriesHint || |series| > 1)
              && exists i :: 0 <= i < |series| && ToBar(series[i]).Failure?
    ensures r.Failure? ==> r == Failure(BarSeries(series).error)
    ensures r.Success? ==> (r.value.isMultiseries <==> isMultiseriesHint || |series| > 1)
    ensures r.Success? && !r.value.isMultiseries ==> r.value.series == series
    ensures r.Success? && r.value.isMultiseries ==>
              |r.value.series| == |series| &&
              forall i :: 0 <= i < |series| ==> BarShaped(series[i], r.value.series[i])
  {
    if isMultiseriesHint || |series| > 1 then
      match BarSeries(series)
      case Failure(e) => Failure(e)
      case Success(bars) => Success(Transformed(bars, true))
    else
      Success(Transformed(series, false))
  }

  /** When every series is compatible, well formed and has a row, the
      transform succeeds and, in multi mode, each bar's metric cell is that
      series' only value. */
  lemma CompatibleSeriesTransform(initialSeries: Series, series: seq<Series>, isMultiseriesHint: bool)
    requires forall i :: 0 <= i < |series| ==>
               SeriesAreCompatible(initialSeries, series[i]) && WellFormed(series[i].data) && |series[i].data.rows| > 0
    ensures Transform(series, isMultiseriesHint).Success?
    ensures isMultiseriesHint || |series| > 1 ==>
              forall i :: 0 <= i < |series| ==>
                && series[i].data.rows[0] == [FirstCell(series[i].data)]
                && Transform(series, isMultiseriesHint).value.series[i].data.rows == [[Get(series[i].card, "name"), FirstCell(series[i].data)]]
  {
  }
}
