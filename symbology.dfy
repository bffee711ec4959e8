/** The gradient symbology of MyPlaceMapLayer.getCellAnalysisGradient: the
    attribute name built from the selected shop code, the quantisation of a
    feature's indicator into a palette index, and the style a feature gets.
    Numbers are reals; `Math.round(x)` is `floor(x + 1/2)`. */
module Symbology {
  import opened Wrappers
  import opened Json
  import Text

  const DefaultColors: seq<string> := ["#d7191c", "#fdae61", "#ffffbf", "#a6d96a", "#1a9641"]

  /** The path style object returned for a feature; `None` is `undefined`. */
  datatype PathStyle = PathStyle(fillColor: Option<string>, weight: real, opacity: real,
                                 color: Option<string>, fillOpacity: real)

  /** JavaScript's `Math.round`: halves go up. */
  function JsRound(x: real): (r: int)
    ensures r as real <= x + 0.5 < r as real + 1.0
  {
    (x + 0.5).Floor
  }

  /** `Math.round(v / (1 / len)) - 1`, raised to 0 when negative. There is no
      upper clamp. With an empty palette the step is infinite and the index is 0. */
  function ColorIndex(v: real, len: nat): nat {
    var raw := JsRound(v * len as real) - 1;
    if raw < 0 then 0 else raw
  }

  /** `colors[index]`, `None` (undefined) past the end. */
  function ColorFor(v: real, colors: seq<string>): Option<string> {
    var i := ColorIndex(v, |colors|);
    if i < |colors| then Some(colors[i]) else None
  }

  lemma JsRoundMonotone(x: real, y: real)
    requires x <= y
    ensures JsRound(x) <= JsRound(y)
  {
  }

  lemma JsRoundOfInt(n: int)
    ensures JsRound(n as real) == n
  {
  }

  lemma MulNonNegative(a: real, b: real)
    requires a >= 0.0 && b >= 0.0
    ensures a * b >= 0.0
  {
  }

  /** A larger indicator never selects an earlier colour. */
  lemma ColorIndexMonotone(v: real, w: real, len: nat)
    requires v <= w
    ensures ColorIndex(v, len) <= ColorIndex(w, len)
  {
    var n := len as real;
    assert v * n <= w * n by {
      MulNonNegative(w - v, n);
      assert w * n == v * n + (w - v) * n;
    }
    JsRoundMonotone(v * len as real, w * len as real);
  }

  /** v = 0 gives the first colour and v = 1 the last one. */
  lemma ColorIndexEnds(len: nat)
    requires len > 0
    ensures ColorIndex(0.0, len) == 0
    ensures ColorIndex(1.0, len) == len - 1
  {
    JsRoundOfInt(0);
    JsRoundOfInt(len);
  }

  /** For an indicator in [0, 1] the index is a position of the palette. */
  lemma ColorIndexInRange(v: real, len: nat)
    requires 0.0 <= v <= 1.0 && len > 0
    ensures ColorIndex(v, len) <= len - 1
  {
    ColorIndexMonotone(v, 1.0, len);
    ColorIndexEnds(len);
  }

  /** Index i > 0 is chosen exactly for indicators in [(i + 1/2)/len, (i + 3/2)/len),
      and index 0 for every indicator below 3/(2 len). */
  lemma ColorIndexBucket(v: real, len: nat, i: nat)
    requires len > 0
    ensures i > 0 ==> (ColorIndex(v, len) == i <==>
      (i as real + 0.5) <= v * len as real < (i as real + 1.5))
    ensures ColorIndex(v, len) == 0 <==> v * len as real < 1.5
  {
  }

  /** The colour is undefined exactly when the palette is empty or the
      indicator reaches 1 + 1/(2 len): large values index past the end. */
  lemma ColorForUndefined(v: real, colors: seq<string>)
    ensures ColorFor(v, colors) == None <==>
      |colors| == 0 || v * |colors| as real >= |colors| as real + 0.5
  {
  }

  /** On the default palette, 0 is red, 1 is green and 1.5 has no colour. */
  lemma DefaultPaletteExamples()
    ensures |DefaultColors| == 5
    ensures ColorFor(0.0, DefaultColors) == Some("#d7191c")
    ensures ColorFor(1.0, DefaultColors) == Some("#1a9641")
    ensures ColorFor(1.5, DefaultColors) == None
  {
    ColorIndexEnds(5);
    assert JsRound(1.5 * 5.0) == 8;
  }

  // ---------------------------------------------------------------------------
  // The style function

  /** `"shop_" + field.toLowerCase() + "_indice"`. */
  function SymbologyField(field: string): string {
    "shop_" + Text.Lower(field) + "_indice"
  }

  /** The attribute name is case-insensitive in the shop code: two codes name
      the same attribute exactly when they agree once lower-cased. */
  lemma SymbologyFieldCaseInsensitive(a: string, b: string)
    ensures SymbologyField(a) == SymbologyField(b) <==> Text.Lower(a) == Text.Lower(b)
    ensures SymbologyField(Text.Lower(a)) == SymbologyField(a)
  {
    Text.LowerIdempotent(a);
    if SymbologyField(a) == SymbologyField(b) {
      var la, lb := Text.Lower(a), Text.Lower(b);
      assert |la| == |lb|;
      assert la == SymbologyField(a)[5..5 + |la|];
      assert lb == SymbologyField(b)[5..5 + |lb|];
    }
  }

  /** The number JavaScript's division sees for a property value: a number,
      `null` as 0, a boolean as 0 or 1; `undefined` (a missing property) and
      the other kinds give NaN, modelled as `None`. */
  function IndicatorOf(v: Option<Value>): Option<real> {
    match v
    case Some(JNumber(n)) => Some(n)
    case Some(JNull) => Some(0.0)
    case Some(JBool(b)) => Some(if b then 1.0 else 0.0)
    case _ => None
  }

  /** `feature.properties[field]`. */
  function PropertyOf(feature: Value, field: string): Option<Value> {
    var properties :- Member(feature, "properties");
    Member(properties, field)
  }

  /** The style one feature gets; a NaN indicator selects `colors[NaN]`,
      which is undefined. */
  function GradientStyle(field: string, colors: seq<string>, feature: Value): PathStyle {
    var value := IndicatorOf(PropertyOf(feature, field));
    var fillColor := if value.Some? then ColorFor(value.value, colors) else None;
    PathStyle(fillColor, 2.0, 1.0, Some("white"), 0.5)
  }

  /** `getCellAnalysisGradient(shopCode, colors)`: the style callback. */
  function CellAnalysisGradient(shopCode: string, colors: Option<seq<string>>): Value -> PathStyle {
    var field := SymbologyField(shopCode);
    var palette := colors.GetOr(DefaultColors);
    feature => GradientStyle(field, palette, feature)
  }

  /** Every feature gets weight 2, opacity 1, a white outline and fill
      opacity 0.5, and a fill colour from the palette (the default one when
      none is given) chosen by its `shop_<code>_indice` property. */
  lemma CellAnalysisGradientStyle(shopCode: string, colors: Option<seq<string>>, feature: Value, v: real)
    requires PropertyOf(feature, SymbologyField(shopCode)) == Some(JNumber(v))
    ensures var style := CellAnalysisGradient(shopCode, colors)(feature);
      && style.weight == 2.0 && style.opacity == 1.0 && style.color == Some("white") && style.fillOpacity == 0.5
      && style.fillColor == ColorFor(v, colors.GetOr(DefaultColors))
      && (colors == None && 0.0 <= v <= 1.0 ==> style.fillColor.Some? && style.fillColor.value in DefaultColors)
  {
    if colors == None && 0.0 <= v <= 1.0 {
      ColorIndexInRange(v, 5);
    }
  }

  /** A feature whose `properties` lack the attribute gets no fill colour.
      (A missing or null `properties` makes the source throw.) */
  lemma CellAnalysisGradientMissing(shopCode: string, colors: Option<seq<string>>, feature: Value)
    requires Member(feature, "properties").Some? && Member(feature, "properties").value != JNull
    requires Member(Member(feature, "properties").value, SymbologyField(shopCode)) == None
    ensures CellAnalysisGradient(shopCode, colors)(feature).fillColor == None
  {
  }
}
