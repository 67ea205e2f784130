/** The `Scalar` React component: its state (`series`, `isMultiseries`),
    the lifecycle methods that set it and the branch `render` takes. */
module ScalarComponent {
  import opened JsValues
  import opened Shapes
  import opened SeriesTransform
  import opened ValueFormat

  /** The props the component reads. */
  datatype Props = Props(
    series: seq<Series>,
    isMultiseries: bool,
    data: SeriesData,
    gridSize: Option<GridSize>,
    settings: Settings)

  /** What `render` hands on: the bar chart it delegates to, with the series
      from the state, or the two display strings of a single scalar. */
  datatype View =
    | BarChart(series: seq<Series>)
    | ScalarDisplay(compact: string, full: string)

  class Scalar {
    var props: Props
    /** `this.state.series`; `None` is the initial `null`. */
    var series: Option<seq<Series>>
    /** `this.state.isMultiseries`; `None` is the initial `null`. */
    var isMultiseries: Option<bool>

    /** Both state fields are set together. */
    ghost predicate Valid()
      reads this
    {
      series.None? <==> isMultiseries.None?
    }

    constructor (props: Props)
      ensures Valid()
      ensures this.props == props && series == None && isMultiseries == None
    {
      this.props := props;
      series := None;
      isMultiseries := None;
    }

    /** `transformSeries(newProps)`: sets the state to the result of the
        transform, or throws before `setState` and leaves it as it was. */
    method TransformSeries(newProps: Props) returns (outcome: Outcome<MapError>)
      requires Valid()
      modifies this`series, this`isMultiseries
      ensures Valid()
      ensures match Transform(newProps.series, newProps.isMultiseries)
              case Success(t) =>
                outcome == Pass && series == Some(t.series) && isMultiseries == Some(t.isMultiseries)
              case Failure(e) =>
                outcome == Fail(e) && series == old(series) && isMultiseries == old(isMultiseries)
    {
      match Transform(newProps.series, newProps.isMultiseries)
      case Failure(e) =>
        outcome := Fail(e);
      case Success(t) =>
        series, isMultiseries := Some(t.series), Some(t.isMultiseries);
        outcome := Pass;
    }

    /** `componentWillMount`: transforms the initial props. */
    method ComponentWillMount() returns (outcome: Outcome<MapError>)
      requires Valid()
      modifies this`series, this`isMultiseries
      ensures Valid()
      ensures match Transform(props.series, props.isMultiseries)
              case Success(t) =>
                outcome == Pass && series == Some(t.series) && isMultiseries == Some(t.isMultiseries)
              case Failure(e) =>
                outcome == Fail(e) && series == old(series) && isMultiseries == old(isMultiseries)
    {
      outcome := TransformSeries(props);
    }

    /** `componentWillReceiveProps(newProps)`: skips the transform when the
        library's `isSameSeries` says the series did not change. */
    method ComponentWillReceiveProps(newProps: Props, isSameSeries: (seq<Series>, seq<Series>) -> bool)
      returns (outcome: Outcome<MapError>)
      requires Valid()
      modifies this`series, this`isMultiseries
      ensures Valid()
      ensures isSameSeries(newProps.series, props.series) ==>
                outcome == Pass && series == old(series) && isMultiseries == old(isMultiseries)
      ensures !isSameSeries(newProps.series, props.series) ==>
                match Transform(newProps.series, newProps.isMultiseries)
                case Success(t) =>
                  outcome == Pass && series == Some(t.series) && isMultiseries == Some(t.isMultiseries)
                case Failure(e) =>
                  outcome == Fail(e) && series == old(series) && isMultiseries == old(isMultiseries)
    {
      if isSameSeries(newProps.series, props.series) {
        outcome := Pass;
        return;
      }
      outcome := TransformSeries(newProps);
    }

    /** One props update as React drives it: `componentWillReceiveProps`,
        then, if it completed, `this.props` becomes the new props. */
    method ReceiveProps(newProps: Props, isSameSeries: (seq<Series>, seq<Series>) -> bool)
      returns (outcome: Outcome<MapError>)
      requires Valid()
      modifies this
      ensures Valid()
      ensures props == if outcome == Pass then newProps else old(props)
      ensures isSameSeries(newProps.series, old(props).series) ==>
                outcome == Pass && series == old(series) && isMultiseries == old(isMultiseries)
      ensures !isSameSeries(newProps.series, old(props).series) ==>
                match Transform(newProps.series, newProps.isMultiseries)
                case Success(t) =>
                  outcome == Pass && series == Some(t.series) && isMultiseries == Some(t.isMultiseries)
                case Failure(e) =>
                  outcome == Fail(e) && series == old(series) && isMultiseries == old(isMultiseries)
    {
      outcome := ComponentWillReceiveProps(newProps, isSameSeries);
      if outcome == Pass {
        props := newProps;
      }
    }

    /** `render`: the bar chart in multi mode, otherwise the scalar's
        display strings (a state still `null` is falsy). */
    method Render(ext: Externals) returns (view: View)
      requires Valid()
      ensures isMultiseries == Some(true) ==> view == BarChart(series.value)
      ensures isMultiseries != Some(true) ==>
                var v := Resolve(FirstCell(props.data), props.settings, ext);
                view == ScalarDisplay(
                  DisplayString(v, FirstColumn(props.data), IsSmall(props.gridSize), props.settings, ext),
                  DisplayString(v, FirstColumn(props.data), false, props.settings, ext))
      ensures view.BarChart? ==> isMultiseries == Some(true) && series.Some? && view.series == series.value
    {
      if isMultiseries == Some(true) {
        view := BarChart(series.value);
      } else {
        var compact, full := ScalarStrings(props.data, props.gridSize, props.settings, ext);
        view := ScalarDisplay(compact, full);
      }
    }
  }

  /** A client of the class: after mounting, a props update whose series
      `isSameSeries` judges unchanged keeps the state the mount set. */
  method MountThenSameSeries(props: Props, newProps: Props, isSameSeries: (seq<Series>, seq<Series>) -> bool)
    returns (s: Scalar)
    requires isSameSeries(newProps.series, props.series)
    requires Transform(props.series, props.isMultiseries).Success?
    ensures fresh(s) && s.Valid() && s.props == newProps
    ensures s.series == Some(Transform(props.series, props.isMultiseries).value.series)
    ensures s.isMultiseries == Some(props.isMultiseries || |props.series| > 1)
  {
    s := new Scalar(props);
    var mounted := s.ComponentWillMount();
    var updated := s.ReceiveProps(newProps, isSameSeries);
  }
}
