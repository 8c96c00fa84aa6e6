/** The value records of the sensor API: indicator readings with a warning
level, gauge readings with a fill fraction, the free-form generic values, the
range indication and the instrument overrides, each with its encoder and its
defaulting decoder.
 */
module Values {
  import opened Wire

  /** WarningLevel. Records carry it as a plain 32-bit integer, so values
      outside the enumeration can travel too. */
  const GOOD: int32 := 0
  const WARNING: int32 := 1
  const BAD: int32 := 2
  const WARNING_LEVEL_COUNT: int32 := 3

  // ValueWithLevel ------------------------------------------------------------

  datatype ValueWithLevel = ValueWithLevel(value: string, warningLevel: int32)

  /** The decoder's default instance. */
  const DefaultValueWithLevel := ValueWithLevel("", BAD)

  function ValueWithLevelToWire(x: ValueWithLevel): WireObject {
    map["value" := WString(x.value), "warningLevel" := WInt(x.warningLevel)]
  }

  function ValueWithLevelFromWire(w: WireObject): Result<ValueWithLevel> {
    var value :- Field(w, "value", "", AsString);
    var warningLevel :- Field(w, "warningLevel", BAD, AsInt32);
    Ok(ValueWithLevel(value, warningLevel))
  }

  /** Every encoded field is read back under the same name. */
  lemma ValueWithLevelRoundTrip(x: ValueWithLevel)
    ensures ValueWithLevelFromWire(ValueWithLevelToWire(x)) == Ok(x)
  {
  }

  /** Decoding is the wire's fields laid over the default instance; in
      particular an absent text is "" and an absent warning level is BAD. */
  lemma ValueWithLevelDecodeIsOverlay(w: WireObject, d: ValueWithLevel)
    requires ValueWithLevelFromWire(w) == Ok(d)
    ensures ValueWithLevelToWire(d) == Overlay(ValueWithLevelToWire(DefaultValueWithLevel), w)
    ensures "value" !in w ==> d.value == ""
    ensures "warningLevel" !in w ==> d.warningLevel == BAD
  {
    var e := ValueWithLevelToWire(d);
    var o := Overlay(ValueWithLevelToWire(DefaultValueWithLevel), w);
    assert e.Keys == o.Keys;
  }

  /** Element codec for a value nested inside another record. */
  function ValueWithLevelToValue(x: ValueWithLevel): WireValue {
    WObject(ValueWithLevelToWire(x))
  }

  function ValueWithLevelFromValue(v: WireValue): Result<ValueWithLevel> {
    if v.WObject? then ValueWithLevelFromWire(v.fields) else Malformed([])
  }

  // ValueWithFill -------------------------------------------------------------

  /** A gauge reading; `fill` is meant to lie in [0, 1] but is not checked. */
  datatype ValueWithFill = ValueWithFill(fill: real, value: string, warningLevel: int32)

  const DefaultValueWithFill := ValueWithFill(0.0, "", BAD)

  function ValueWithFillToWire(x: ValueWithFill): WireObject {
    map["fill" := WReal(x.fill), "value" := WString(x.value), "warningLevel" := WInt(x.warningLevel)]
  }

  function ValueWithFillFromWire(w: WireObject): Result<ValueWithFill> {
    var fill :- Field(w, "fill", 0.0, AsReal);
    var value :- Field(w, "value", "", AsString);
    var warningLevel :- Field(w, "warningLevel", BAD, AsInt32);
    Ok(ValueWithFill(fill, value, warningLevel))
  }

  lemma ValueWithFillRoundTrip(x: ValueWithFill)
    ensures ValueWithFillFromWire(ValueWithFillToWire(x)) == Ok(x)
  {
  }

  /** An absent fill is 0, an absent text "", an absent warning level BAD;
      present fields are taken as they are. */
  lemma ValueWithFillDecodeIsOverlay(w: WireObject, d: ValueWithFill)
    requires ValueWithFillFromWire(w) == Ok(d)
    ensures ValueWithFillToWire(d) == Overlay(ValueWithFillToWire(DefaultValueWithFill), w)
    ensures "fill" !in w ==> d.fill == 0.0
    ensures "value" !in w ==> d.value == ""
    ensures "warningLevel" !in w ==> d.warningLevel == BAD
  {
    var e := ValueWithFillToWire(d);
    var o := Overlay(ValueWithFillToWire(DefaultValueWithFill), w);
    assert e.Keys == o.Keys;
  }

  function ValueWithFillToValue(x: ValueWithFill): WireValue {
    WObject(ValueWithFillToWire(x))
  }

  function ValueWithFillFromValue(v: WireValue): Result<ValueWithFill> {
    if v.WObject? then ValueWithFillFromWire(v.fields) else Malformed([])
  }

  /** A stack of gauges; list order is display order. */
  function FillListToValue(xs: seq<ValueWithFill>): WireValue {
    ListToWire(xs, ValueWithFillToValue)
  }

  function FillListFromValue(v: WireValue): Result<seq<ValueWithFill>> {
    ListFromWire(v, ValueWithFillFromValue)
  }

  lemma FillListRoundTrip(xs: seq<ValueWithFill>)
    ensures FillListFromValue(FillListToValue(xs)) == Ok(xs)
  {
    forall x: ValueWithFill ensures ValueWithFillFromValue(ValueWithFillToValue(x)) == Ok(x) {
      ValueWithFillRoundTrip(x);
    }
    ListRoundTrip(xs, ValueWithFillToValue, ValueWithFillFromValue);
  }

  // GenericValues -------------------------------------------------------------

  datatype GenericValues = GenericValues(
    singleValues: map<string, ValueWithLevel>,
    multiValues: map<string, seq<ValueWithFill>>)

  const DefaultGenericValues := GenericValues(map[], map[])

  function GenericValuesToWire(x: GenericValues): WireObject {
    map["singleValues" := MapToWire(x.singleValues, ValueWithLevelToValue),
        "multiValues" := MapToWire(x.multiValues, FillListToValue)]
  }

  function GenericValuesFromWire(w: WireObject): Result<GenericValues> {
    var singleValues :- Field(w, "singleValues", map[], v => MapFromWire(v, ValueWithLevelFromValue));
    var multiValues :- Field(w, "multiValues", map[], v => MapFromWire(v, FillListFromValue));
    Ok(GenericValues(singleValues, multiValues))
  }

  /** Both maps come back with the same keys, the same readings and the same
      order inside every stack. */
  lemma GenericValuesRoundTrip(x: GenericValues)
    ensures GenericValuesFromWire(GenericValuesToWire(x)) == Ok(x)
  {
    forall y: ValueWithLevel ensures ValueWithLevelFromValue(ValueWithLevelToValue(y)) == Ok(y) {
      ValueWithLevelRoundTrip(y);
    }
    forall ys: seq<ValueWithFill> ensures FillListFromValue(FillListToValue(ys)) == Ok(ys) {
      FillListRoundTrip(ys);
    }
    MapRoundTrip(x.singleValues, ValueWithLevelToValue, ValueWithLevelFromValue);
    MapRoundTrip(x.multiValues, FillListToValue, FillListFromValue);
  }

  /** Absent maps decode to empty maps. */
  lemma GenericValuesAbsentMapsAreEmpty(w: WireObject)
    requires GenericValuesFromWire(w).Ok?
    ensures "singleValues" !in w ==> GenericValuesFromWire(w).value.singleValues == map[]
    ensures "multiValues" !in w ==> GenericValuesFromWire(w).value.multiValues == map[]
    ensures GenericValuesFromWire(map[]) == Ok(DefaultGenericValues)
  {
  }

  // RangeSpecification --------------------------------------------------------

  /** RangeSpecification::Type. The tag is an 8-bit field, so tags beyond
      the enumeration can arrive from a newer peer. */
  const DISABLED: uint8 := 0
  const FIXED_CIRCLE: uint8 := 1
  const TYPE_COUNT: uint8 := 2

  /** Every tag that has no payload. */
  type RadiuslessType = k: int | 0 <= k < 0x100 && k != 1

  /** The range indication as a sum type: the radius exists only under the
      FIXED_CIRCLE tag, so an inactive payload can be neither sent nor read. */
  datatype RangeSpecification = FixedCircle(radius: real) | Radiusless(kind: RadiuslessType) {
    function Type(): uint8 {
      if FixedCircle? then FIXED_CIRCLE else kind
    }
  }

  /** The default constructor's value: no range indication. */
  const DefaultRange := Radiusless(DISABLED)

  function RangeToWire(x: RangeSpecification): (w: WireObject)
    ensures "type" in w && w["type"] == WInt(x.Type())
    ensures "radius" in w <==> x.Type() == FIXED_CIRCLE
    ensures x.FixedCircle? ==> w["radius"] == WReal(x.radius)
    ensures w.Keys <= {"type", "radius"}
  {
    match x
    case FixedCircle(radius) => map["type" := WInt(FIXED_CIRCLE), "radius" := WReal(radius)]
    case Radiusless(kind) => map["type" := WInt(kind)]
  }

  function RangeFromWire(w: WireObject): (r: Result<RangeSpecification>)
    ensures "type" !in w ==> r == Ok(DefaultRange)
    ensures r.Ok? ==> "type" !in w || w["type"] == WInt(r.value.Type())
    ensures r.Ok? && r.value.FixedCircle? && "radius" !in w ==> r.value.radius == 0.0
    ensures r.Ok? && r.value.FixedCircle? && "radius" in w ==> w["radius"] == WReal(r.value.radius)
  {
    var kind :- Field(w, "type", DISABLED, AsUint8);
    if kind == FIXED_CIRCLE then
      var radius :- Field(w, "radius", 0.0, AsReal);
      Ok(FixedCircle(radius))
    else
      Ok(Radiusless(kind))
  }

  /** The tag always survives, and so does the radius under FIXED_CIRCLE. */
  lemma RangeRoundTrip(x: RangeSpecification)
    ensures RangeFromWire(RangeToWire(x)) == Ok(x)
    ensures RangeFromWire(RangeToWire(x)).value.Type() == x.Type()
  {
  }

  /** Under any tag but FIXED_CIRCLE the decoder never looks at `radius`. */
  lemma RangeIgnoresInactiveRadius(w: WireObject, radius: WireValue)
    requires RangeFromWire(w).Ok? && RangeFromWire(w).value.Type() != FIXED_CIRCLE
    ensures RangeFromWire(w["radius" := radius]) == RangeFromWire(w)
    ensures RangeFromWire(w - {"radius"}) == RangeFromWire(w)
  {
  }

  function RangeToValue(x: RangeSpecification): WireValue {
    WObject(RangeToWire(x))
  }

  function RangeFromValue(v: WireValue): Result<RangeSpecification> {
    if v.WObject? then RangeFromWire(v.fields) else Malformed([])
  }

  // OverrideValues ------------------------------------------------------------

  datatype OverrideValues = OverrideValues(
    batteryLevels: seq<real>,
    batteryWarningLevels: seq<int32>,
    warningLevels: seq<int32>,
    range: RangeSpecification)

  /** What the default constructor leaves: empty lists, no range indication. */
  const ConstructedOverrideValues := OverrideValues([], [], [], DefaultRange)

  /** The decoder's default instance, which differs from the constructed value:
      one empty battery and one BAD lamp. */
  const DefaultOverrideValues := OverrideValues([0.0], [], [BAD], DefaultRange)

  function OverrideValuesToWire(x: OverrideValues): WireObject {
    map["batteryLevels" := ListToWire(x.batteryLevels, RealToWire),
        "batteryWarningLevels" := ListToWire(x.batteryWarningLevels, Int32ToWire),
        "warningLevels" := ListToWire(x.warningLevels, Int32ToWire),
        "range" := RangeToValue(x.range)]
  }

  function OverrideValuesFromWire(w: WireObject): Result<OverrideValues> {
    var batteryLevels :- Field(w, "batteryLevels", [0.0], v => ListFromWire(v, AsReal));
    var batteryWarningLevels :- Field(w, "batteryWarningLevels", [], v => ListFromWire(v, AsInt32));
    var warningLevels :- Field(w, "warningLevels", [BAD], v => ListFromWire(v, AsInt32));
    var range :- Field(w, "range", DefaultRange, RangeFromValue);
    Ok(OverrideValues(batteryLevels, batteryWarningLevels, warningLevels, range))
  }

  lemma OverrideValuesRoundTrip(x: OverrideValues)
    ensures OverrideValuesFromWire(OverrideValuesToWire(x)) == Ok(x)
  {
    ListRoundTrip(x.batteryLevels, RealToWire, AsReal);
    ListRoundTrip(x.batteryWarningLevels, Int32ToWire, AsInt32);
    ListRoundTrip(x.warningLevels, Int32ToWire, AsInt32);
    RangeRoundTrip(x.range);
  }

  /** An object carrying at most `batteryLevels` decodes to the default
      instance with only that list replaced; the empty object decodes to the
      default instance itself. */
  lemma OverrideValuesDefaults(levels: seq<real>)
    ensures OverrideValuesFromWire(map[]) == Ok(DefaultOverrideValues)
    ensures OverrideValuesFromWire(map["batteryLevels" := ListToWire(levels, RealToWire)])
         == Ok(DefaultOverrideValues.(batteryLevels := levels))
  {
    ListRoundTrip(levels, RealToWire, AsReal);
  }

  function OverrideValuesToValue(x: OverrideValues): WireValue {
    WObject(OverrideValuesToWire(x))
  }

  function OverrideValuesFromValue(v: WireValue): Result<OverrideValues> {
    if v.WObject? then OverrideValuesFromWire(v.fields) else Malformed([])
  }

  function GenericValuesToValue(x: GenericValues): WireValue {
    WObject(GenericValuesToWire(x))
  }

  function GenericValuesFromValue(v: WireValue): Result<GenericValues> {
    if v.WObject? then GenericValuesFromWire(v.fields) else Malformed([])
  }
}
