/** The display strings of the single-series branch of `render`: read the
    scalar, format a number, call `formatValue`, add prefix and suffix. */
module ValueFormat {
  import opened JsValues
  import opened Shapes

  /** `props.gridSize`, in grid units. */
  datatype GridSize = GridSize(width: int, height: int)

  /** The `scalar.*` visualization settings the component reads. */
  datatype Settings = Settings(
    scale: Value,
    decimals: Value,
    currency: Value,
    locale: Value,
    prefix: Option<string>,
    suffix: Option<string>)

  /** Library code the component calls but whose behaviour is not modelled. */
  datatype Externals = Externals(
    // scale multiplication and rounding to `scalar.decimals` (floating point)
    adjust: (real, Settings) -> real,
    // `x.toLocaleString(locale, options)` with options built from the
    // settings; `None` when it throws (an invalid currency code, say)
    toLocaleString: (real, Value, Settings) -> Option<string>,
    // `formatValue(value, { column, compact })`
    formatValue: (Value, Option<Column>, bool) -> string)

  /** Grids narrower than this many units render the compact form. */
  const SmallWidth := 4

  /** `gridSize && gridSize.width < 4` (an absent grid size is falsy). */
  predicate IsSmall(gridSize: Option<GridSize>)
    ensures IsSmall(gridSize) <==> gridSize.Some? && gridSize.value.width <= SmallWidth - 1
  {
    gridSize.Some? && gridSize.value.width < SmallWidth
  }

  /** `.replace(/,/g, "")`: drops every comma and keeps the rest in order. */
  function StripCommas(s: string): (r: string)
    ensures ',' !in r
    ensures |r| <= |s|
    ensures forall c :: c != ',' ==> multiset(r)[c] == multiset(s)[c]
  {
    if s == [] then []
    else
      assert s == [s[0]] + s[1..];
      (if s[0] == ',' then [] else [s[0]]) + StripCommas(s[1..])
  }

  /** Stripping distributes over concatenation; with the one-character cases
      of the definition this fixes the result and its order. */
  lemma {:induction false} StripCommasAppend(a: string, b: string)
    ensures StripCommas(a + b) == StripCommas(a) + StripCommas(b)
  {
    if a != [] {
      assert (a + b)[0] == a[0] && (a + b)[1..] == a[1..] + b;
      StripCommasAppend(a[1..], b);
    } else {
      assert a + b == b;
    }
  }

  /** A string without commas is left as it is, so stripping is idempotent. */
  lemma {:induction false} StripCommasKeepsCommaFree(s: string)
    requires ',' !in s
    ensures StripCommas(s) == s
  {
    if s != [] {
      assert s[0] in s;
      assert forall c :: c in s[1..] ==> c in s;
      StripCommasKeepsCommaFree(s[1..]);
    }
  }

  lemma StripCommasIdempotent(s: string)
    ensures StripCommas(StripCommas(s)) == StripCommas(s)
  {
    StripCommasKeepsCommaFree(StripCommas(s));
  }

  /** The number formatting of `Scalar.jsx` lines 104-135 applied to the number `x`: the
      localized string, or, when `toLocaleString` throws, the number as it
      was after scaling and rounding. */
  function Localize(x: real, settings: Settings, ext: Externals): (r: Value)
    ensures var y := ext.adjust(x, settings);
            var locale := if Truthy(settings.locale) then settings.locale else Str("en");
            && (r.Str? <==> ext.toLocaleString(y, locale, settings).Some?)
            && (!r.Str? ==> r == Num(y))
    ensures Truthy(settings.locale) && r.Str? ==>
              r.s == ext.toLocaleString(ext.adjust(x, settings), settings.locale, settings).value
    ensures !Truthy(settings.locale) && r.Str? ==>
              r.s == StripCommas(ext.toLocaleString(ext.adjust(x, settings), Str("en"), settings).value)
    ensures !Truthy(settings.locale) && r.Str? ==> ',' !in r.s
  {
    var y := ext.adjust(x, settings);
    if Truthy(settings.locale) then
      match ext.toLocaleString(y, settings.locale, settings)
      case Some(s) => Str(s)
      case None => Num(y)
    else
      match ext.toLocaleString(y, Str("en"), settings)
      case Some(s) => Str(StripCommas(s))
      case None => Num(y)
  }

  /** The scalar value after the `try` block: numbers are localized, every
      other value passes through. */
  function Resolve(v: Value, settings: Settings, ext: Externals): (r: Value)
    ensures !v.Num? ==> r == v
    ensures v.Num? ==> r == Localize(v.x, settings, ext)
    ensures v.Num? ==> r.Str? || r.Num?
    ensures IsNullish(r) <==> IsNullish(v)
  {
    if v.Num? then Localize(v.x, settings, ext) else v
  }

  /** `prefix + s + suffix`, each affix only when it is truthy. */
  function Decorate(s: string, prefix: Option<string>, suffix: Option<string>): (r: string)
    ensures r == StringOr(prefix) + s + StringOr(suffix)
    ensures TruthyString(prefix) ==> r[..|prefix.value|] == prefix.value
    ensures TruthyString(suffix) ==> r[|r| - |suffix.value|..] == suffix.value
    ensures !TruthyString(prefix) && !TruthyString(suffix) ==> r == s
  {
    var withPrefix := if TruthyString(prefix) then prefix.value + s else s;
    if TruthyString(suffix) then withPrefix + suffix.value else withPrefix
  }

  /** One decorated display string of value `v`: empty before decoration when
      `v` is undefined or null, otherwise what `formatValue` gives. */
  function DisplayString(v: Value, column: Option<Column>, compact: bool, settings: Settings, ext: Externals): (r: string)
    ensures IsNullish(v) ==> r == StringOr(settings.prefix) + StringOr(settings.suffix)
    ensures !IsNullish(v) ==>
              r == StringOr(settings.prefix) + ext.formatValue(v, column, compact) + StringOr(settings.suffix)
  {
    Decorate(if IsNullish(v) then "" else ext.formatValue(v, column, compact), settings.prefix, settings.suffix)
  }

  /** Lines 99-153 of `render` in `Scalar.jsx`: the compact and the full display strings of
      the scalar in `data`. */
  method ScalarStrings(data: SeriesData, gridSize: Option<GridSize>, settings: Settings, ext: Externals)
    returns (compact: string, full: string)
    ensures var v := Resolve(FirstCell(data), settings, ext);
            && compact == DisplayString(v, FirstColumn(data), IsSmall(gridSize), settings, ext)
            && full == DisplayString(v, FirstColumn(data), false, settings, ext)
    ensures IsNullish(FirstCell(data)) ==>
              compact == full == StringOr(settings.prefix) + StringOr(settings.suffix)
    ensures !IsSmall(gridSize) ==> compact == full
    ensures TruthyString(settings.prefix) ==>
              compact[..|settings.prefix.value|] == settings.prefix.value &&
              full[..|settings.prefix.value|] == settings.prefix.value
    ensures TruthyString(settings.suffix) ==>
              compact[|compact| - |settings.suffix.value|..] == settings.suffix.value &&
              full[|full| - |settings.suffix.value|..] == settings.suffix.value
  {
    var isSmall := IsSmall(gridSize);
    var scalarValue := FirstCell(data);
    if scalarValue.Num? {
      var x := ext.adjust(scalarValue.x, settings);
      scalarValue := Num(x);
      if Truthy(settings.locale) {
        match ext.toLocaleString(x, settings.locale, settings)
        case Some(s) => scalarValue := Str(s);
        case None =>
      } else {
        match ext.toLocaleString(x, Str("en"), settings)
        case Some(s) => scalarValue := Str(StripCommas(s));
        case None =>
      }
    }
    compact := if IsNullish(scalarValue) then "" else ext.formatValue(scalarValue, FirstColumn(data), isSmall);
    full := if IsNullish(scalarValue) then "" else ext.formatValue(scalarValue, FirstColumn(data), false);
    if TruthyString(settings.prefix) {
      compact := settings.prefix.value + compact;
      full := settings.prefix.value + full;
    }
    if TruthyString(settings.suffix) {
      compact := compact + settings.suffix.value;
      full := full + settings.suffix.value;
    }
  }
}
