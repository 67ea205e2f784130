/** The shape of query results handed to the Scalar visualization, and its
    two static shape predicates. */
module Shapes {
  import opened JsValues

  /** A result column such as `{base_type, display_name, name, ...}`. */
  type Column = Object

  /** A card (saved question) such as `{id, name, display, ...}`. */
  type Card = Object

  type Row = seq<Value>

  /** `series.data`: `cols` may be undefined, `rows` is always an array. */
  datatype SeriesData = SeriesData(cols: Option<seq<Column>>, rows: seq<Row>)

  datatype Series = Series(card: Card, data: SeriesData)

  /** Every row has one cell per column. */
  ghost predicate WellFormed(data: SeriesData) {
    data.cols.Some? && forall r :: 0 <= r < |data.rows| ==> |data.rows[r]| == |data.cols.value|
  }

  /** `i.getIn(data, ["rows", 0, 0])`: undefined when either index is missing. */
  function FirstCell(data: SeriesData): (v: Value)
    ensures |data.rows| > 0 && |data.rows[0]| > 0 ==> v == data.rows[0][0]
    ensures v != Undefined ==> |data.rows| > 0 && |data.rows[0]| > 0
  {
    if |data.rows| > 0 && |data.rows[0]| > 0 then data.rows[0][0] else Undefined
  }

  /** `i.getIn(data, ["cols", 0])`: `None` stands for undefined. */
  function FirstColumn(data: SeriesData): (c: Option<Column>)
    ensures c.Some? <==> data.cols.Some? && data.cols.value != []
    ensures c.Some? ==> c.value == data.cols.value[0]
  {
    if data.cols.Some? && |data.cols.value| > 0 then Some(data.cols.value[0]) else None
  }

  /** `Scalar.isSensible`: the scalar is a good default for exactly one row
      and one column. */
  predicate IsSensible<C, R>(cols: seq<C>, rows: seq<R>)
    ensures IsSensible(cols, rows) <==>
              cols != [] && rows != [] && cols == [cols[0]] && rows == [rows[0]]
  {
    |rows| == 1 && |cols| == 1
  }

  /** `Scalar.seriesAreCompatible`: a series may join a scalar display iff its
      `cols` is present and has exactly one column. */
  predicate SeriesAreCompatible(initialSeries: Series, newSeries: Series)
    ensures SeriesAreCompatible(initialSeries, newSeries) <==>
              FirstColumn(newSeries.data).Some? && newSeries.data.cols == Some([FirstColumn(newSeries.data).value])
  {
    var cols := newSeries.data.cols;
    if cols.Some? && |cols.value| == 1 then
      assert cols.value == [cols.value[0]];
      true
    else
      false
  }

  /** Compatibility means "`cols` is a one-element array"; the initial series
      is never consulted, so absent, empty and wider `cols` all give false. */
  lemma CompatibleIffOneColumn(initialSeries: Series, newSeries: Series)
    ensures SeriesAreCompatible(initialSeries, newSeries)
            <==> exists c :: newSeries.data.cols == Some([c])
    ensures forall other :: SeriesAreCompatible(other, newSeries) == SeriesAreCompatible(initialSeries, newSeries)
  {
    var cols := newSeries.data.cols;
    if cols.Some? && |cols.value| == 1 {
      assert cols.value == [cols.value[0]];
      assert cols == Some([cols.value[0]]);
    }
  }

  /** For well-formed results, `isSensible` holds exactly when the data is
      one cell, namely the one the scalar display reads, under its single
      column. */
  lemma SensibleIsSingleCell(data: SeriesData)
    requires WellFormed(data)
    ensures IsSensible(data.cols.value, data.rows)
            <==> (data.rows == [[FirstCell(data)]] && data.cols == Some([FirstColumn(data).value]))
  {
    var cols := data.cols.value;
    if IsSensible(cols, data.rows) {
      assert |data.rows[0]| == 1;
      assert data.rows[0] == [data.rows[0][0]];
      assert cols == [cols[0]];
    }
  }

  /** A series whose data `isSensible` is compatible with any scalar display. */
  lemma SensibleIsCompatible(initialSeries: Series, s: Series)
    requires s.data.cols.Some? && IsSensible(s.data.cols.value, s.data.rows)
    ensures SeriesAreCompatible(initialSeries, s)
  {
  }
}
