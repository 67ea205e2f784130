# Scalar visualization: a Dafny model

This project models the logic of Metabase's `Scalar` visualization
(`frontend/src/metabase/visualizations/Scalar.jsx`), the "Number" chart that
shows one headline value. It covers four things:

- the static shape predicates `isSensible` and `seriesAreCompatible`;
- `transformSeries`, which either keeps the series (single mode) or turns
  each series into a two-column, one-row bar-chart series (multi mode), and
  the component state it sets;
- the lifecycle guard in `componentWillReceiveProps`, which skips the
  transform when `isSameSeries` judges the series unchanged;
- the single-scalar branch of `render`: reading `rows[0][0]`, the no-locale
  comma stripping, the empty string for an absent value, and the
  prefix/suffix decoration of the compact and full display strings.

Modules, one per concern:

- `JsValues` (`js_values.dfy`): JavaScript values, plain objects as
  `map<string, Value>`, truthiness and `== undefined`. The spread
  `{...o, k: v}` is the map update `o[k := v]`.
- `Shapes` (`shapes.dfy`): cards, columns, series data, and the two static
  predicates.
- `SeriesTransform` (`transform.dfy`): the per-series mapping, `series.map`
  and `transformSeries` as functions that return the new state or the
  TypeError thrown.
- `ValueFormat` (`value_format.dfy`): the number-formatting branch, the
  comma filter, the decoration, and the method `ScalarStrings`. That method
  rebuilds the two strings step by step, as `render` does.
- `ScalarComponent` (`scalar.dfy`): the class `Scalar`. It holds the props
  and the two state fields. Its lifecycle methods update that state in
  place, and `Render` picks the branch.

Library code whose source is not part of this model is passed in as
function-typed parameters, not interpreted:

- scaling and rounding (`Externals.adjust`);
- `toLocaleString` (`Externals.toLocaleString`; `None` when it throws);
- `formatValue` (`Externals.formatValue`);
- `isSameSeries` (a parameter of `ComponentWillReceiveProps`).

Two behaviours of `Scalar.jsx` worth knowing:

- `transformSeries` throws a TypeError for a series whose `rows` is empty
  (`s.data.rows[0][0]`, line 70) or whose `cols` is undefined
  (`s.data.cols[0]`, line 68). The throw happens before `setState`, so the
  model leaves the state unchanged and reports the first failing series.
  An empty `cols` array does not throw. The metric column is then built
  from `{...undefined}`, so it has only `display_name` and `name`.
- When `toLocaleString` throws, the value kept is the number as already
  scaled and rounded by lines 108 and 114.

## Model

| member | source | states |
|---|---|---|
| `Shapes.IsSensible` | frontend/src/metabase/visualizations/Scalar.jsx:25-27 | the definition of `isSensible` (both sequences are singletons); what it means for result data is stated by `Shapes.SensibleIsSingleCell` and `Shapes.SensibleIsCompatible` |
| `Shapes.SeriesAreCompatible` | frontend/src/metabase/visualizations/Scalar.jsx:33-38 | `seriesAreCompatible`: true exactly when `cols` is present and is exactly its first column, i.e. a single column; the initial series is not read |
| `Shapes.FirstCell` | frontend/src/metabase/visualizations/Scalar.jsx:101 | the definition of `i.getIn(data, ["rows", 0, 0])` (`rows[0][0]` when both indices exist, else undefined); its use is stated by `Shapes.SensibleIsSingleCell`, `SeriesTransform.ToBar` and `ValueFormat.ScalarStrings` |
| `Shapes.FirstColumn` | frontend/src/metabase/visualizations/Scalar.jsx:142 | the definition of `i.getIn(data, ["cols", 0])` (`cols[0]` when `cols` is present and non-empty, else undefined); its use is stated by `SeriesTransform.ToBar` and `ValueFormat.ScalarStrings` |
| `ValueFormat.IsSmall` | frontend/src/metabase/visualizations/Scalar.jsx:99 | the definition of `isSmall` (a grid size is given and is narrower than 4 units); its effect on the compact string is stated by `ValueFormat.ScalarStrings` |
| `Shapes.CompatibleIffOneColumn` | frontend/src/metabase/visualizations/Scalar.jsx:33-38 | compatible exactly when `cols` is a one-element array (absent, empty or wider gives false); the result is the same for every initial series |
| `Shapes.SensibleIsSingleCell` | frontend/src/metabase/visualizations/Scalar.jsx:25-27 | for well-formed data, `isSensible` holds iff the rows are exactly `[[v]]` with `v` the value the scalar display reads, and the columns are exactly the single first column |
| `Shapes.SensibleIsCompatible` | frontend/src/metabase/visualizations/Scalar.jsx:25-38 | a series whose data is sensible is compatible with any initial series |
| `SeriesTransform.ToBar` | frontend/src/metabase/visualizations/Scalar.jsx:63-73 | throws exactly when `cols` is undefined or `rows` is empty, and says which. On success: the card differs from the input only in `display` = "bar". There are two columns: the fixed TextField/Name/dimension column, and the input's first column with only `display_name` = "Value" and `name` = "metric" changed. There is one row, `[card.name, rows[0][0]]` |
| `SeriesTransform.BarSeries` | frontend/src/metabase/visualizations/Scalar.jsx:63-73 | succeeds iff every series maps. The output then has the input's length, and output i is the mapping of input i. On failure it reports the first failing index and its cause, and every earlier series maps |
| `SeriesTransform.Transform` | frontend/src/metabase/visualizations/Scalar.jsx:59-79 | multi mode holds exactly when the hint is set or there is more than one series. It throws exactly when it is in multi mode and some series' mapping throws, with the error `series.map` reports. In single mode the series is returned unchanged and nothing throws. In multi mode the output has the same length and each output is the bar shape of its input |
| `SeriesTransform.CompatibleSeriesTransform` | frontend/src/metabase/visualizations/Scalar.jsx:63-71 | if every series is compatible, well formed and has a row, the transform succeeds. In multi mode each bar's one row pairs the card name with that series' only cell |
| `ValueFormat.StripCommas` | frontend/src/metabase/visualizations/Scalar.jsx:134 | the result has no comma, is no longer than the input, and has every other character as often as the input does |
| `ValueFormat.StripCommasAppend` | frontend/src/metabase/visualizations/Scalar.jsx:134 | stripping distributes over concatenation, so characters keep their order |
| `ValueFormat.StripCommasKeepsCommaFree` | frontend/src/metabase/visualizations/Scalar.jsx:134 | a string without commas is returned unchanged |
| `ValueFormat.StripCommasIdempotent` | frontend/src/metabase/visualizations/Scalar.jsx:134 | stripping twice is stripping once |
| `ValueFormat.Localize` | frontend/src/metabase/visualizations/Scalar.jsx:104-135 | the value becomes a string iff `toLocaleString` succeeds. It uses the configured locale when that is truthy, otherwise "en". If `toLocaleString` throws, the value is the scaled and rounded number. With a locale the string is the formatter's own; without one it is the "en" formatter's output with every comma removed, so it contains no comma |
| `ValueFormat.Resolve` | frontend/src/metabase/visualizations/Scalar.jsx:101-139 | non-numbers pass through untouched. A number becomes exactly `Localize`'s result (so, without a locale, a string with no comma, or the adjusted number). The value is undefined/null afterwards iff it was before |
| `ValueFormat.Decorate` | frontend/src/metabase/visualizations/Scalar.jsx:146-153 | the result is prefix + string + suffix, each affix only when truthy. A truthy prefix starts it, a truthy suffix ends it, and with neither it is the string itself |
| `ValueFormat.DisplayString` | frontend/src/metabase/visualizations/Scalar.jsx:141-153 | an undefined or null value gives only prefix + suffix, with no `formatValue` call; any other value gives prefix + `formatValue(value, column, compact)` + suffix |
| `ValueFormat.ScalarStrings` | frontend/src/metabase/visualizations/Scalar.jsx:99-153 | the compact string is the display string with `compact` = `isSmall` (grid width below 4), and the full string uses `compact` = false. Both are prefix + suffix for an absent value, and they are equal unless the grid is small. Both start with a truthy prefix and end with a truthy suffix |
| `ScalarComponent.Scalar.constructor` | frontend/src/metabase/visualizations/Scalar.jsx:40-46 | keeps the props; both state fields start as `null` |
| `ScalarComponent.Scalar.TransformSeries` | frontend/src/metabase/visualizations/Scalar.jsx:59-80 | the state becomes the transform's `series` and `isMultiseries`; when the mapping throws, the state is unchanged and the error is reported |
| `ScalarComponent.Scalar.ComponentWillMount` | frontend/src/metabase/visualizations/Scalar.jsx:48-50 | the state is the transform of the current props |
| `ScalarComponent.Scalar.ComponentWillReceiveProps` | frontend/src/metabase/visualizations/Scalar.jsx:52-57 | when `isSameSeries(new, old)` holds, the state is unchanged; otherwise it is the transform of the new props |
| `ScalarComponent.Scalar.ReceiveProps` | frontend/src/metabase/visualizations/Scalar.jsx:52-57 | as above; when the update completes, the props are the new props, and when it throws they are unchanged |
| `ScalarComponent.Scalar.Render` | frontend/src/metabase/visualizations/Scalar.jsx:82-153 | a multi-mode state delegates to the bar chart with the stored series; otherwise the view carries the compact and full display strings of `props.data` |
| `ScalarComponent.MountThenSameSeries` | frontend/src/metabase/visualizations/Scalar.jsx:48-57 | after mounting, an update whose series `isSameSeries` judges equal keeps the mounted state |

## Left out

- JSX, CSS classes, `Ellipsified`, the tooltip flag, the `Urls.card` title link and the action buttons are presentation only.
- The component's static metadata is not modelled: `displayName`, `identifier`, `iconName`, `noHeader`, `supportsSeries` and `minSize`. `checkRenderable` has an empty body, so there is nothing to state about it.
- The `BarChart` props and the `getSettings` settings merge are left out: they are calls into code not part of this model. `Render` only says that it delegates, and with which series.
- ValueFormat.Localize: scaling and rounding (`parseFloat`, multiplication, `Math.round`, `Math.pow`) are floating point. They are one uninterpreted function, so the order "scale, then round" is not stated.
- ValueFormat.Localize: `toLocaleString` and its options (minimum fraction digits, currency style) are a foreign Intl formatter. They are uninterpreted; only the comma filter on its output is modelled.
- The `console.warn` in the `catch` block is logging. The model keeps only the value that is left after the catch.
- `formatValue` and `isSameSeries` are library functions not part of this model. They are parameters.
- `prefix` and `suffix` are modelled as optional strings. A non-string setting, which JavaScript would convert to a string, is not modelled.
- `isSmall` is a boolean. The source passes `undefined` when `gridSize` is absent, which is modelled as false.
- `data` and `data.rows` are always present. A missing `rows` is not modelled; for the display strings and for `transformSeries` it behaves like an empty one.
- NaN (a falsy number) is not modelled, and numbers are reals.
- React itself (when lifecycle methods run, and an error thrown during a lifecycle method) is not modelled beyond `ReceiveProps`, which assigns the new props after `componentWillReceiveProps`.
