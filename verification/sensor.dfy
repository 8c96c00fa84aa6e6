/** The two position records of the sensor API: the aircraft state snapshot
(RemoteSensorData) and one traffic contact (RemoteTrafficElement), together
with the reserved "not available" sentinel that many of their fields use.
 */
module Sensor {
  import opened Wire
  import opened Values

  /** The one value that means "not available" in the fields so documented. */
  const InvalidValue: int32 := -100000

  const Invalid: real := InvalidValue as real

  /** Tolerance used when recognising the sentinel in a floating field. */
  const InvalidTolerance: real := 0.01

  function Abs(x: real): real {
    if x < 0.0 then -x else x
  }

  /** isInvalid: within the tolerance of the sentinel. */
  predicate IsInvalid(v: real) {
    Abs(v - Invalid) < InvalidTolerance
  }

  /** The sentinel is recognised, and exactly the open interval of width 0.02
      around it is. */
  lemma IsInvalidInterval(v: real)
    ensures IsInvalid(v) <==> -100000.01 < v < -99999.99
    ensures IsInvalid(Invalid)
    ensures !IsInvalid(0.0)
  {
  }

  // RemoteSensorData ----------------------------------------------------------

  /** One aircraft state snapshot. `attitude` is the row-major 3x3 rotation
      matrix and `acceleration` the vector in aircraft axes; their lengths are
      a convention the records do not enforce. */
  datatype RemoteSensorData = RemoteSensorData(
    longitude: real, latitude: real, altitude: real,
    groundspeed: real, groundtrack: real,
    satCount: uint32,
    attitude: seq<real>,
    indicatedHeading: real, trueHeading: real, magneticHeading: real,
    acceleration: seq<real>,
    verticalSpeed: real, turnrate: real, airspeed: real,
    pressInside: real, pressOutside: real,
    tempInside: real, tempOutside: real,
    loc90: real, loc150: real, gs90: real, gs150: real,
    aoa: real, maxAoA: real,
    warningLevel: int32)

  const IdentityAttitude: seq<real> := [1.0, 0.0, 0.0, 0.0, 1.0, 0.0, 0.0, 0.0, 1.0]
  const RestingAcceleration: seq<real> := [0.0, -9.81, 0.0]

  /** The value the default constructor builds: zero position and motion,
      level attitude, 1 g downwards, sentinel for every optional reading. */
  function ConstructedSensorData(): (d: RemoteSensorData)
    ensures IsInvalid(d.trueHeading) && IsInvalid(d.magneticHeading) && IsInvalid(d.airspeed)
    ensures d.attitude == IdentityAttitude && d.warningLevel == BAD
  {
    var invalid := Invalid;
    RemoteSensorData(
      0.0, 0.0, 0.0,
      0.0, 0.0,
      0,
      IdentityAttitude,
      0.0, invalid, invalid,
      RestingAcceleration,
      0.0, 0.0, invalid,
      invalid, invalid,
      invalid, invalid,
      invalid, invalid, invalid, invalid,
      invalid, invalid,
      BAD)
  }

  function SensorDataToWire(x: RemoteSensorData): WireObject {
    map[
      "longitude" := WReal(x.longitude),
      "latitude" := WReal(x.latitude),
      "altitude" := WReal(x.altitude),
      "groundspeed" := WReal(x.groundspeed),
      "groundtrack" := WReal(x.groundtrack),
      "satCount" := WInt(x.satCount),
      "attitude" := ListToWire(x.attitude, RealToWire),
      "indicatedHeading" := WReal(x.indicatedHeading),
      "trueHeading" := WReal(x.trueHeading),
      "magneticHeading" := WReal(x.magneticHeading),
      "acceleration" := ListToWire(x.acceleration, RealToWire),
      "verticalSpeed" := WReal(x.verticalSpeed),
      "turnrate" := WReal(x.turnrate),
      "airspeed" := WReal(x.airspeed),
      "pressInside" := WReal(x.pressInside),
      "pressOutside" := WReal(x.pressOutside),
      "tempInside" := WReal(x.tempInside),
      "tempOutside" := WReal(x.tempOutside),
      "loc90" := WReal(x.loc90),
      "loc150" := WReal(x.loc150),
      "gs90" := WReal(x.gs90),
      "gs150" := WReal(x.gs150),
      "aoa" := WReal(x.aoa),
      "maxAoA" := WReal(x.maxAoA),
      "warningLevel" := WInt(x.warningLevel)]
  }

  // Where each field sits in the encoded object. Looking a name up in a
  // literal map costs the verifier more the later the name is listed, so the
  // early fields get a lemma each.

  lemma SensorWireLongitude(x: RemoteSensorData)
    ensures "longitude" in SensorDataToWire(x) && SensorDataToWire(x)["longitude"] == WReal(x.longitude)
  {
  }

  lemma SensorWireLatitude(x: RemoteSensorData)
    ensures "latitude" in SensorDataToWire(x) && SensorDataToWire(x)["latitude"] == WReal(x.latitude)
  {
  }

  lemma SensorWireAltitude(x: RemoteSensorData)
    ensures "altitude" in SensorDataToWire(x) && SensorDataToWire(x)["altitude"] == WReal(x.altitude)
  {
  }

  lemma SensorWireGroundspeed(x: RemoteSensorData)
    ensures "groundspeed" in SensorDataToWire(x) && SensorDataToWire(x)["groundspeed"] == WReal(x.groundspeed)
  {
  }

  lemma SensorWireGroundtrack(x: RemoteSensorData)
    ensures "groundtrack" in SensorDataToWire(x) && SensorDataToWire(x)["groundtrack"] == WReal(x.groundtrack)
  {
  }

  lemma SensorWireSatCountAttitude(x: RemoteSensorData)
    ensures "satCount" in SensorDataToWire(x) && SensorDataToWire(x)["satCount"] == WInt(x.satCount)
    ensures "attitude" in SensorDataToWire(x) && SensorDataToWire(x)["attitude"] == ListToWire(x.attitude, RealToWire)
  {
  }

  lemma SensorWireHeadings(x: RemoteSensorData)
    ensures "indicatedHeading" in SensorDataToWire(x) && SensorDataToWire(x)["indicatedHeading"] == WReal(x.indicatedHeading)
    ensures "trueHeading" in SensorDataToWire(x) && SensorDataToWire(x)["trueHeading"] == WReal(x.trueHeading)
    ensures "magneticHeading" in SensorDataToWire(x) && SensorDataToWire(x)["magneticHeading"] == WReal(x.magneticHeading)
  {
  }

  lemma SensorWireAcceleration(x: RemoteSensorData)
    ensures "acceleration" in SensorDataToWire(x) && SensorDataToWire(x)["acceleration"] == ListToWire(x.acceleration, RealToWire)
    ensures "verticalSpeed" in SensorDataToWire(x) && SensorDataToWire(x)["verticalSpeed"] == WReal(x.verticalSpeed)
  {
  }

  lemma SensorWireRates(x: RemoteSensorData)
    ensures "turnrate" in SensorDataToWire(x) && SensorDataToWire(x)["turnrate"] == WReal(x.turnrate)
    ensures "airspeed" in SensorDataToWire(x) && SensorDataToWire(x)["airspeed"] == WReal(x.airspeed)
    ensures "pressInside" in SensorDataToWire(x) && SensorDataToWire(x)["pressInside"] == WReal(x.pressInside)
  {
  }

  lemma SensorWireAir(x: RemoteSensorData)
    ensures "pressOutside" in SensorDataToWire(x) && SensorDataToWire(x)["pressOutside"] == WReal(x.pressOutside)
    ensures "tempInside" in SensorDataToWire(x) && SensorDataToWire(x)["tempInside"] == WReal(x.tempInside)
    ensures "tempOutside" in SensorDataToWire(x) && SensorDataToWire(x)["tempOutside"] == WReal(x.tempOutside)
    ensures "loc90" in SensorDataToWire(x) && SensorDataToWire(x)["loc90"] == WReal(x.loc90)
    ensures "loc150" in SensorDataToWire(x) && SensorDataToWire(x)["loc150"] == WReal(x.loc150)
  {
  }

  lemma SensorWireApproach(x: RemoteSensorData)
    ensures "gs90" in SensorDataToWire(x) && SensorDataToWire(x)["gs90"] == WReal(x.gs90)
    ensures "gs150" in SensorDataToWire(x) && SensorDataToWire(x)["gs150"] == WReal(x.gs150)
    ensures "aoa" in SensorDataToWire(x) && SensorDataToWire(x)["aoa"] == WReal(x.aoa)
    ensures "maxAoA" in SensorDataToWire(x) && SensorDataToWire(x)["maxAoA"] == WReal(x.maxAoA)
    ensures "warningLevel" in SensorDataToWire(x) && SensorDataToWire(x)["warningLevel"] == WInt(x.warningLevel)
  {
  }

  function RealListFromWire(v: WireValue): Result<seq<real>> {
    ListFromWire(v, AsReal)
  }

  // The decoder reads the fields in wire order, five at a time. Each field
  // has its own default, written out as the decoder states them rather than
  // taken from the constructor above, so that SensorDataDecodeEmpty compares
  // two independent definitions.

  function PositionFromWire(w: WireObject): (r: Result<(real, real, real, real, real)>)
    ensures r.Ok? <==>
      && Readable(w, "longitude", AsReal)
      && Readable(w, "latitude", AsReal)
      && Readable(w, "altitude", AsReal)
      && Readable(w, "groundspeed", AsReal)
      && Readable(w, "groundtrack", AsReal)
    ensures r.Ok? ==>
      && FilledFrom(w, "longitude", AsReal, r.value.0, 0.0)
      && FilledFrom(w, "latitude", AsReal, r.value.1, 0.0)
      && FilledFrom(w, "altitude", AsReal, r.value.2, 0.0)
      && FilledFrom(w, "groundspeed", AsReal, r.value.3, 0.0)
      && FilledFrom(w, "groundtrack", AsReal, r.value.4, 0.0)
  {
    var longitude :- Field(w, "longitude", 0.0, AsReal);
    var latitude :- Field(w, "latitude", 0.0, AsReal);
    var altitude :- Field(w, "altitude", 0.0, AsReal);
    var groundspeed :- Field(w, "groundspeed", 0.0, AsReal);
    var groundtrack :- Field(w, "groundtrack", 0.0, AsReal);
    Ok((longitude, latitude, altitude, groundspeed, groundtrack))
  }

  function OrientationFromWire(w: WireObject): (r: Result<(uint32, seq<real>, real, real, real)>)
    ensures r.Ok? <==>
      && Readable(w, "satCount", AsUint32)
      && Readable(w, "attitude", RealListFromWire)
      && Readable(w, "indicatedHeading", AsReal)
      && Readable(w, "trueHeading", AsReal)
      && Readable(w, "magneticHeading", AsReal)
    ensures r.Ok? ==>
      && FilledFrom(w, "satCount", AsUint32, r.value.0, 0)
      && FilledFrom(w, "attitude", RealListFromWire, r.value.1, [1.0, 0.0, 0.0, 0.0, 1.0, 0.0, 0.0, 0.0, 1.0])
      && FilledFrom(w, "indicatedHeading", AsReal, r.value.2, 0.0)
      && FilledFrom(w, "trueHeading", AsReal, r.value.3, Invalid)
      && FilledFrom(w, "magneticHeading", AsReal, r.value.4, Invalid)
  {
    var satCount :- Field(w, "satCount", 0, AsUint32);
    var attitude :- Field(w, "attitude", [1.0, 0.0, 0.0, 0.0, 1.0, 0.0, 0.0, 0.0, 1.0], RealListFromWire);
    var indicatedHeading :- Field(w, "indicatedHeading", 0.0, AsReal);
    var trueHeading :- Field(w, "trueHeading", Invalid, AsReal);
    var magneticHeading :- Field(w, "magneticHeading", Invalid, AsReal);
    Ok((satCount, attitude, indicatedHeading, trueHeading, magneticHeading))
  }

  function MotionFromWire(w: WireObject): (r: Result<(seq<real>, real, real, real, real)>)
    ensures r.Ok? <==>
      && Readable(w, "acceleration", RealListFromWire)
      && Readable(w, "verticalSpeed", AsReal)
      && Readable(w, "turnrate", AsReal)
      && Readable(w, "airspeed", AsReal)
      && Readable(w, "pressInside", AsReal)
    ensures r.Ok? ==>
      && FilledFrom(w, "acceleration", RealListFromWire, r.value.0, [0.0, -9.81, 0.0])
      && FilledFrom(w, "verticalSpeed", AsReal, r.value.1, 0.0)
      && FilledFrom(w, "turnrate", AsReal, r.value.2, 0.0)
      && FilledFrom(w, "airspeed", AsReal, r.value.3, Invalid)
      && FilledFrom(w, "pressInside", AsReal, r.value.4, Invalid)
  {
    var acceleration :- Field(w, "acceleration", [0.0, -9.81, 0.0], RealListFromWire);
    var verticalSpeed :- Field(w, "verticalSpeed", 0.0, AsReal);
    var turnrate :- Field(w, "turnrate", 0.0, AsReal);
    var airspeed :- Field(w, "airspeed", Invalid, AsReal);
    var pressInside :- Field(w, "pressInside", Invalid, AsReal);
    Ok((acceleration, verticalSpeed, turnrate, airspeed, pressInside))
  }

  function AtmosphereFromWire(w: WireObject): (r: Result<(real, real, real, real, real)>)
    ensures r.Ok? <==>
      && Readable(w, "pressOutside", AsReal)
      && Readable(w, "tempInside", AsReal)
      && Readable(w, "tempOutside", AsReal)
      && Readable(w, "loc90", AsReal)
      && Readable(w, "loc150", AsReal)
    ensures r.Ok? ==>
      && FilledFrom(w, "pressOutside", AsReal, r.value.0, Invalid)
      && FilledFrom(w, "tempInside", AsReal, r.value.1, Invalid)
      && FilledFrom(w, "tempOutside", AsReal, r.value.2, Invalid)
      && FilledFrom(w, "loc90", AsReal, r.value.3, Invalid)
      && FilledFrom(w, "loc150", AsReal, r.value.4, Invalid)
  {
    var pressOutside :- Field(w, "pressOutside", Invalid, AsReal);
    var tempInside :- Field(w, "tempInside", Invalid, AsReal);
    var tempOutside :- Field(w, "tempOutside", Invalid, AsReal);
    var loc90 :- Field(w, "loc90", Invalid, AsReal);
    var loc150 :- Field(w, "loc150", Invalid, AsReal);
    Ok((pressOutside, tempInside, tempOutside, loc90, loc150))
  }

  function ApproachFromWire(w: WireObject): (r: Result<(real, real, real, real, int32)>)
    ensures r.Ok? <==>
      && Readable(w, "gs90", AsReal)
      && Readable(w, "gs150", AsReal)
      && Readable(w, "aoa", AsReal)
      && Readable(w, "maxAoA", AsReal)
      && Readable(w, "warningLevel", AsInt32)
    ensures r.Ok? ==>
      && FilledFrom(w, "gs90", AsReal, r.value.0, Invalid)
      && FilledFrom(w, "gs150", AsReal, r.value.1, Invalid)
      && FilledFrom(w, "aoa", AsReal, r.value.2, Invalid)
      && FilledFrom(w, "maxAoA", AsReal, r.value.3, Invalid)
      && FilledFrom(w, "warningLevel", AsInt32, r.value.4, BAD)
  {
    var gs90 :- Field(w, "gs90", Invalid, AsReal);
    var gs150 :- Field(w, "gs150", Invalid, AsReal);
    var aoa :- Field(w, "aoa", Invalid, AsReal);
    var maxAoA :- Field(w, "maxAoA", Invalid, AsReal);
    var warningLevel :- Field(w, "warningLevel", BAD, AsInt32);
    Ok((gs90, gs150, aoa, maxAoA, warningLevel))
  }

  /** Decodes exactly when every field the object carries has the right
      kind. */
  function SensorDataFromWire(w: WireObject): (r: Result<RemoteSensorData>)
    ensures r.Ok? <==>
      && Readable(w, "longitude", AsReal)
      && Readable(w, "latitude", AsReal)
      && Readable(w, "altitude", AsReal)
      && Readable(w, "groundspeed", AsReal)
      && Readable(w, "groundtrack", AsReal)
      && Readable(w, "satCount", AsUint32)
      && Readable(w, "attitude", RealListFromWire)
      && Readable(w, "indicatedHeading", AsReal)
      && Readable(w, "trueHeading", AsReal)
      && Readable(w, "magneticHeading", AsReal)
      && Readable(w, "acceleration", RealListFromWire)
      && Readable(w, "verticalSpeed", AsReal)
      && Readable(w, "turnrate", AsReal)
      && Readable(w, "airspeed", AsReal)
      && Readable(w, "pressInside", AsReal)
      && Readable(w, "pressOutside", AsReal)
      && Readable(w, "tempInside", AsReal)
      && Readable(w, "tempOutside", AsReal)
      && Readable(w, "loc90", AsReal)
      && Readable(w, "loc150", AsReal)
      && Readable(w, "gs90", AsReal)
      && Readable(w, "gs150", AsReal)
      && Readable(w, "aoa", AsReal)
      && Readable(w, "maxAoA", AsReal)
      && Readable(w, "warningLevel", AsInt32)
  {
    var p :- PositionFromWire(w);
    var o :- OrientationFromWire(w);
    var m :- MotionFromWire(w);
    var a :- AtmosphereFromWire(w);
    var r :- ApproachFromWire(w);
    Ok(RemoteSensorData(
      p.0, p.1, p.2, p.3, p.4,
      o.0, o.1, o.2, o.3, o.4,
      m.0, m.1, m.2, m.3, m.4,
      a.0, a.1, a.2, a.3, a.4,
      r.0, r.1, r.2, r.3, r.4))
  }

  lemma PositionRoundTrip(x: RemoteSensorData)
    ensures PositionFromWire(SensorDataToWire(x)) == Ok((x.longitude, x.latitude, x.altitude, x.groundspeed, x.groundtrack))
  {
    SensorWireLongitude(x);
    SensorWireLatitude(x);
    SensorWireAltitude(x);
    SensorWireGroundspeed(x);
    SensorWireGroundtrack(x);
  }

  lemma OrientationRoundTrip(x: RemoteSensorData)
    ensures OrientationFromWire(SensorDataToWire(x)) == Ok((x.satCount, x.attitude, x.indicatedHeading, x.trueHeading, x.magneticHeading))
  {
    SensorWireSatCountAttitude(x);
    SensorWireHeadings(x);
    ListRoundTrip(x.attitude, RealToWire, AsReal);
  }

  lemma MotionRoundTrip(x: RemoteSensorData)
    ensures MotionFromWire(SensorDataToWire(x)) == Ok((x.acceleration, x.verticalSpeed, x.turnrate, x.airspeed, x.pressInside))
  {
    SensorWireAcceleration(x);
    SensorWireRates(x);
    ListRoundTrip(x.acceleration, RealToWire, AsReal);
  }

  lemma AtmosphereRoundTrip(x: RemoteSensorData)
    ensures AtmosphereFromWire(SensorDataToWire(x)) == Ok((x.pressOutside, x.tempInside, x.tempOutside, x.loc90, x.loc150))
  {
    SensorWireAir(x);
  }

  lemma ApproachRoundTrip(x: RemoteSensorData)
    ensures ApproachFromWire(SensorDataToWire(x)) == Ok((x.gs90, x.gs150, x.aoa, x.maxAoA, x.warningLevel))
  {
    SensorWireApproach(x);
  }

  lemma SensorDataRoundTrip(x: RemoteSensorData)
    ensures SensorDataFromWire(SensorDataToWire(x)) == Ok(x)
  {
    PositionRoundTrip(x);
    OrientationRoundTrip(x);
    MotionRoundTrip(x);
    AtmosphereRoundTrip(x);
    ApproachRoundTrip(x);
  }

  /** Decoding an object with no fields gives exactly the constructed value:
      the decoder's defaults and the constructor's agree field by field. */
  lemma SensorDataDecodeEmpty()
    ensures SensorDataFromWire(map[]) == Ok(ConstructedSensorData())
  {
  }

  /** Each position field of a decoded record is the wire's entry of the same
      name when the object carries it, and the constructed value otherwise. */
  lemma PositionFields(w: WireObject)
    requires SensorDataFromWire(w).Ok?
    ensures var d, c := SensorDataFromWire(w).value, ConstructedSensorData();
      && FilledFrom(w, "longitude", AsReal, d.longitude, c.longitude)
      && FilledFrom(w, "latitude", AsReal, d.latitude, c.latitude)
      && FilledFrom(w, "altitude", AsReal, d.altitude, c.altitude)
      && FilledFrom(w, "groundspeed", AsReal, d.groundspeed, c.groundspeed)
      && FilledFrom(w, "groundtrack", AsReal, d.groundtrack, c.groundtrack)
  {
  }

  /** Each orientation field of a decoded record is the wire's entry of the same
      name when the object carries it, and the constructed value otherwise. */
  lemma OrientationFields(w: WireObject)
    requires SensorDataFromWire(w).Ok?
    ensures var d, c := SensorDataFromWire(w).value, ConstructedSensorData();
      && FilledFrom(w, "satCount", AsUint32, d.satCount, c.satCount)
      && FilledFrom(w, "attitude", RealListFromWire, d.attitude, c.attitude)
      && FilledFrom(w, "indicatedHeading", AsReal, d.indicatedHeading, c.indicatedHeading)
      && FilledFrom(w, "trueHeading", AsReal, d.trueHeading, c.trueHeading)
      && FilledFrom(w, "magneticHeading", AsReal, d.magneticHeading, c.magneticHeading)
  {
  }

  /** Each motion field of a decoded record is the wire's entry of the same
      name when the object carries it, and the constructed value otherwise. */
  lemma MotionFields(w: WireObject)
    requires SensorDataFromWire(w).Ok?
    ensures var d, c := SensorDataFromWire(w).value, ConstructedSensorData();
      && FilledFrom(w, "acceleration", RealListFromWire, d.acceleration, c.acceleration)
      && FilledFrom(w, "verticalSpeed", AsReal, d.verticalSpeed, c.verticalSpeed)
      && FilledFrom(w, "turnrate", AsReal, d.turnrate, c.turnrate)
      && FilledFrom(w, "airspeed", AsReal, d.airspeed, c.airspeed)
      && FilledFrom(w, "pressInside", AsReal, d.pressInside, c.pressInside)
  {
  }

  /** Each atmosphere field of a decoded record is the wire's entry of the same
      name when the object carries it, and the constructed value otherwise. */
  lemma AtmosphereFields(w: WireObject)
    requires SensorDataFromWire(w).Ok?
    ensures var d, c := SensorDataFromWire(w).value, ConstructedSensorData();
      && FilledFrom(w, "pressOutside", AsReal, d.pressOutside, c.pressOutside)
      && FilledFrom(w, "tempInside", AsReal, d.tempInside, c.tempInside)
      && FilledFrom(w, "tempOutside", AsReal, d.tempOutside, c.tempOutside)
      && FilledFrom(w, "loc90", AsReal, d.loc90, c.loc90)
      && FilledFrom(w, "loc150", AsReal, d.loc150, c.loc150)
  {
  }

  /** Each approach field of a decoded record is the wire's entry of the same
      name when the object carries it, and the constructed value otherwise. */
  lemma ApproachFields(w: WireObject)
    requires SensorDataFromWire(w).Ok?
    ensures var d, c := SensorDataFromWire(w).value, ConstructedSensorData();
      && FilledFrom(w, "gs90", AsReal, d.gs90, c.gs90)
      && FilledFrom(w, "gs150", AsReal, d.gs150, c.gs150)
      && FilledFrom(w, "aoa", AsReal, d.aoa, c.aoa)
      && FilledFrom(w, "maxAoA", AsReal, d.maxAoA, c.maxAoA)
      && FilledFrom(w, "warningLevel", AsInt32, d.warningLevel, c.warningLevel)
  {
  }

  /** Every field of a decoded record depends on the wire's entry of the
      same name alone: that entry when present, the constructed value when
      absent. */
  lemma SensorDataDecodeFields(w: WireObject)
    requires SensorDataFromWire(w).Ok?
    ensures var d, c := SensorDataFromWire(w).value, ConstructedSensorData();
      && FilledFrom(w, "longitude", AsReal, d.longitude, c.longitude)
      && FilledFrom(w, "latitude", AsReal, d.latitude, c.latitude)
      && FilledFrom(w, "altitude", AsReal, d.altitude, c.altitude)
      && FilledFrom(w, "groundspeed", AsReal, d.groundspeed, c.groundspeed)
      && FilledFrom(w, "groundtrack", AsReal, d.groundtrack, c.groundtrack)
      && FilledFrom(w, "satCount", AsUint32, d.satCount, c.satCount)
      && FilledFrom(w, "attitude", RealListFromWire, d.attitude, c.attitude)
      && FilledFrom(w, "indicatedHeading", AsReal, d.indicatedHeading, c.indicatedHeading)
      && FilledFrom(w, "trueHeading", AsReal, d.trueHeading, c.trueHeading)
      && FilledFrom(w, "magneticHeading", AsReal, d.magneticHeading, c.magneticHeading)
      && FilledFrom(w, "acceleration", RealListFromWire, d.acceleration, c.acceleration)
      && FilledFrom(w, "verticalSpeed", AsReal, d.verticalSpeed, c.verticalSpeed)
      && FilledFrom(w, "turnrate", AsReal, d.turnrate, c.turnrate)
      && FilledFrom(w, "airspeed", AsReal, d.airspeed, c.airspeed)
      && FilledFrom(w, "pressInside", AsReal, d.pressInside, c.pressInside)
      && FilledFrom(w, "pressOutside", AsReal, d.pressOutside, c.pressOutside)
      && FilledFrom(w, "tempInside", AsReal, d.tempInside, c.tempInside)
      && FilledFrom(w, "tempOutside", AsReal, d.tempOutside, c.tempOutside)
      && FilledFrom(w, "loc90", AsReal, d.loc90, c.loc90)
      && FilledFrom(w, "loc150", AsReal, d.loc150, c.loc150)
      && FilledFrom(w, "gs90", AsReal, d.gs90, c.gs90)
      && FilledFrom(w, "gs150", AsReal, d.gs150, c.gs150)
      && FilledFrom(w, "aoa", AsReal, d.aoa, c.aoa)
      && FilledFrom(w, "maxAoA", AsReal, d.maxAoA, c.maxAoA)
      && FilledFrom(w, "warningLevel", AsInt32, d.warningLevel, c.warningLevel)
  {
    PositionFields(w);
    OrientationFields(w);
    MotionFields(w);
    AtmosphereFields(w);
    ApproachFields(w);
  }

  lemma PositionWithout(w: WireObject, ks: set<string>)
    requires PositionFromWire(w).Ok?
    ensures var r := PositionFromWire(w).value;
      PositionFromWire(w - ks) == Ok((
      if "longitude" in ks then 0.0 else r.0,
      if "latitude" in ks then 0.0 else r.1,
      if "altitude" in ks then 0.0 else r.2,
      if "groundspeed" in ks then 0.0 else r.3,
      if "groundtrack" in ks then 0.0 else r.4))
  {
    var r := PositionFromWire(w).value;
    FilledFromWithout(w, ks, "longitude", AsReal, r.0, 0.0);
    FilledFromWithout(w, ks, "latitude", AsReal, r.1, 0.0);
    FilledFromWithout(w, ks, "altitude", AsReal, r.2, 0.0);
    FilledFromWithout(w, ks, "groundspeed", AsReal, r.3, 0.0);
    FilledFromWithout(w, ks, "groundtrack", AsReal, r.4, 0.0);
  }

  lemma OrientationWithout(w: WireObject, ks: set<string>)
    requires OrientationFromWire(w).Ok?
    ensures var r := OrientationFromWire(w).value;
      OrientationFromWire(w - ks) == Ok((
      if "satCount" in ks then 0 else r.0,
      if "attitude" in ks then [1.0, 0.0, 0.0, 0.0, 1.0, 0.0, 0.0, 0.0, 1.0] else r.1,
      if "indicatedHeading" in ks then 0.0 else r.2,
      if "trueHeading" in ks then Invalid else r.3,
      if "magneticHeading" in ks then Invalid else r.4))
  {
    var r := OrientationFromWire(w).value;
    FilledFromWithout(w, ks, "satCount", AsUint32, r.0, 0);
    FilledFromWithout(w, ks, "attitude", RealListFromWire, r.1, [1.0, 0.0, 0.0, 0.0, 1.0, 0.0, 0.0, 0.0, 1.0]);
    FilledFromWithout(w, ks, "indicatedHeading", AsReal, r.2, 0.0);
    FilledFromWithout(w, ks, "trueHeading", AsReal, r.3, Invalid);
    FilledFromWithout(w, ks, "magneticHeading", AsReal, r.4, Invalid);
  }

  lemma MotionWithout(w: WireObject, ks: set<string>)
    requires MotionFromWire(w).Ok?
    ensures var r := MotionFromWire(w).value;
      MotionFromWire(w - ks) == Ok((
      if "acceleration" in ks then [0.0, -9.81, 0.0] else r.0,
      if "verticalSpeed" in ks then 0.0 else r.1,
      if "turnrate" in ks then 0.0 else r.2,
      if "airspeed" in ks then Invalid else r.3,
      if "pressInside" in ks then Invalid else r.4))
  {
    var r := MotionFromWire(w).value;
    FilledFromWithout(w, ks, "acceleration", RealListFromWire, r.0, [0.0, -9.81, 0.0]);
    FilledFromWithout(w, ks, "verticalSpeed", AsReal, r.1, 0.0);
    FilledFromWithout(w, ks, "turnrate", AsReal, r.2, 0.0);
    FilledFromWithout(w, ks, "airspeed", AsReal, r.3, Invalid);
    FilledFromWithout(w, ks, "pressInside", AsReal, r.4, Invalid);
  }

  lemma AtmosphereWithout(w: WireObject, ks: set<string>)
    requires AtmosphereFromWire(w).Ok?
    ensures var r := AtmosphereFromWire(w).value;
      AtmosphereFromWire(w - ks) == Ok((
      if "pressOutside" in ks then Invalid else r.0,
      if "tempInside" in ks then Invalid else r.1,
      if "tempOutside" in ks then Invalid else r.2,
      if "loc90" in ks then Invalid else r.3,
      if "loc150" in ks then Invalid else r.4))
  {
    var r := AtmosphereFromWire(w).value;
    FilledFromWithout(w, ks, "pressOutside", AsReal, r.0, Invalid);
    FilledFromWithout(w, ks, "tempInside", AsReal, r.1, Invalid);
    FilledFromWithout(w, ks, "tempOutside", AsReal, r.2, Invalid);
    FilledFromWithout(w, ks, "loc90", AsReal, r.3, Invalid);
    FilledFromWithout(w, ks, "loc150", AsReal, r.4, Invalid);
  }

  lemma ApproachWithout(w: WireObject, ks: set<string>)
    requires ApproachFromWire(w).Ok?
    ensures var r := ApproachFromWire(w).value;
      ApproachFromWire(w - ks) == Ok((
      if "gs90" in ks then Invalid else r.0,
      if "gs150" in ks then Invalid else r.1,
      if "aoa" in ks then Invalid else r.2,
      if "maxAoA" in ks then Invalid else r.3,
      if "warningLevel" in ks then BAD else r.4))
  {
    var r := ApproachFromWire(w).value;
    FilledFromWithout(w, ks, "gs90", AsReal, r.0, Invalid);
    FilledFromWithout(w, ks, "gs150", AsReal, r.1, Invalid);
    FilledFromWithout(w, ks, "aoa", AsReal, r.2, Invalid);
    FilledFromWithout(w, ks, "maxAoA", AsReal, r.3, Invalid);
    FilledFromWithout(w, ks, "warningLevel", AsInt32, r.4, BAD);
  }

  /** `d` with the fields named in `names` set back to the values the
      default constructor gives them. */
  function ResetFields(d: RemoteSensorData, names: set<string>): RemoteSensorData {
    var c := ConstructedSensorData();
    RemoteSensorData(
      if "longitude" in names then c.longitude else d.longitude,
      if "latitude" in names then c.latitude else d.latitude,
      if "altitude" in names then c.altitude else d.altitude,
      if "groundspeed" in names then c.groundspeed else d.groundspeed,
      if "groundtrack" in names then c.groundtrack else d.groundtrack,
      if "satCount" in names then c.satCount else d.satCount,
      if "attitude" in names then c.attitude else d.attitude,
      if "indicatedHeading" in names then c.indicatedHeading else d.indicatedHeading,
      if "trueHeading" in names then c.trueHeading else d.trueHeading,
      if "magneticHeading" in names then c.magneticHeading else d.magneticHeading,
      if "acceleration" in names then c.acceleration else d.acceleration,
      if "verticalSpeed" in names then c.verticalSpeed else d.verticalSpeed,
      if "turnrate" in names then c.turnrate else d.turnrate,
      if "airspeed" in names then c.airspeed else d.airspeed,
      if "pressInside" in names then c.pressInside else d.pressInside,
      if "pressOutside" in names then c.pressOutside else d.pressOutside,
      if "tempInside" in names then c.tempInside else d.tempInside,
      if "tempOutside" in names then c.tempOutside else d.tempOutside,
      if "loc90" in names then c.loc90 else d.loc90,
      if "loc150" in names then c.loc150 else d.loc150,
      if "gs90" in names then c.gs90 else d.gs90,
      if "gs150" in names then c.gs150 else d.gs150,
      if "aoa" in names then c.aoa else d.aoa,
      if "maxAoA" in names then c.maxAoA else d.maxAoA,
      if "warningLevel" in names then c.warningLevel else d.warningLevel)
  }

  /** An update that leaves fields out resets those fields, and no others, to
      their constructed values; leaving fields out never turns a decodable
      object into a malformed one. */
  lemma SensorDataDecodeWithout(w: WireObject, ks: set<string>)
    requires SensorDataFromWire(w).Ok?
    ensures SensorDataFromWire(w - ks) == Ok(ResetFields(SensorDataFromWire(w).value, ks))
  {
    PositionWithout(w, ks);
    OrientationWithout(w, ks);
    MotionWithout(w, ks);
    AtmosphereWithout(w, ks);
    ApproachWithout(w, ks);
  }

  // RemoteTrafficElement ------------------------------------------------------

  /** One traffic contact. The first three bytes of `icaoAddress` form the
      address (0 means none); the other numeric fields use the sentinel when
      not available. `name` is meant to be at most 9 characters, which the
      record does not enforce. */
  datatype RemoteTrafficElement = RemoteTrafficElement(
    icaoAddress: uint32,
    longitude: real, latitude: real,
    pressureAltitude: int32, velocity: int32, climbRate: int32, squawk: int32,
    groundtrack: real,
    name: string)

  /** The value the default constructor builds: no address, every reading
      "not available", empty name. */
  function ConstructedTraffic(): (e: RemoteTrafficElement)
    ensures e.icaoAddress == 0 && e.name == ""
    ensures IsInvalid(e.longitude) && IsInvalid(e.latitude) && IsInvalid(e.groundtrack)
    ensures e.pressureAltitude == e.velocity == e.climbRate == e.squawk == InvalidValue
  {
    RemoteTrafficElement(0, Invalid, Invalid, InvalidValue, InvalidValue, InvalidValue, InvalidValue, Invalid, "")
  }

  function TrafficToWire(x: RemoteTrafficElement): WireObject {
    map[
      "icaoAddress" := WInt(x.icaoAddress),
      "longitude" := WReal(x.longitude),
      "latitude" := WReal(x.latitude),
      "pressureAltitude" := WInt(x.pressureAltitude),
      "velocity" := WInt(x.velocity),
      "climbRate" := WInt(x.climbRate),
      "squawk" := WInt(x.squawk),
      "groundtrack" := WReal(x.groundtrack),
      "name" := WString(x.name)]
  }

  function TrafficFromWire(w: WireObject): (r: Result<RemoteTrafficElement>)
    ensures r.Ok? <==>
      && Readable(w, "icaoAddress", AsUint32)
      && Readable(w, "longitude", AsReal)
      && Readable(w, "latitude", AsReal)
      && Readable(w, "pressureAltitude", AsInt32)
      && Readable(w, "velocity", AsInt32)
      && Readable(w, "climbRate", AsInt32)
      && Readable(w, "squawk", AsInt32)
      && Readable(w, "groundtrack", AsReal)
      && Readable(w, "name", AsString)
    ensures r.Ok? ==>
      && FilledFrom(w, "icaoAddress", AsUint32, r.value.icaoAddress, 0)
      && FilledFrom(w, "longitude", AsReal, r.value.longitude, Invalid)
      && FilledFrom(w, "latitude", AsReal, r.value.latitude, Invalid)
      && FilledFrom(w, "pressureAltitude", AsInt32, r.value.pressureAltitude, InvalidValue)
      && FilledFrom(w, "velocity", AsInt32, r.value.velocity, InvalidValue)
      && FilledFrom(w, "climbRate", AsInt32, r.value.climbRate, InvalidValue)
      && FilledFrom(w, "squawk", AsInt32, r.value.squawk, InvalidValue)
      && FilledFrom(w, "groundtrack", AsReal, r.value.groundtrack, Invalid)
      && FilledFrom(w, "name", AsString, r.value.name, "")
  {
    var icaoAddress :- Field(w, "icaoAddress", 0, AsUint32);
    var longitude :- Field(w, "longitude", Invalid, AsReal);
    var latitude :- Field(w, "latitude", Invalid, AsReal);
    var pressureAltitude :- Field(w, "pressureAltitude", InvalidValue, AsInt32);
    var velocity :- Field(w, "velocity", InvalidValue, AsInt32);
    var climbRate :- Field(w, "climbRate", InvalidValue, AsInt32);
    var squawk :- Field(w, "squawk", InvalidValue, AsInt32);
    var groundtrack :- Field(w, "groundtrack", Invalid, AsReal);
    var name :- Field(w, "name", "", AsString);
    Ok(RemoteTrafficElement(icaoAddress, longitude, latitude, pressureAltitude, velocity, climbRate, squawk, groundtrack, name))
  }

  lemma TrafficRoundTrip(x: RemoteTrafficElement)
    ensures TrafficFromWire(TrafficToWire(x)) == Ok(x)
  {
  }

  /** `d` with the fields named in `names` set back to the values the
      default constructor gives them. */
  function ResetTrafficFields(d: RemoteTrafficElement, names: set<string>): RemoteTrafficElement {
    var c := ConstructedTraffic();
    RemoteTrafficElement(
      if "icaoAddress" in names then c.icaoAddress else d.icaoAddress,
      if "longitude" in names then c.longitude else d.longitude,
      if "latitude" in names then c.latitude else d.latitude,
      if "pressureAltitude" in names then c.pressureAltitude else d.pressureAltitude,
      if "velocity" in names then c.velocity else d.velocity,
      if "climbRate" in names then c.climbRate else d.climbRate,
      if "squawk" in names then c.squawk else d.squawk,
      if "groundtrack" in names then c.groundtrack else d.groundtrack,
      if "name" in names then c.name else d.name)
  }

  /** An object with no fields decodes to the constructed contact. */
  lemma TrafficDecodeEmpty()
    ensures TrafficFromWire(map[]) == Ok(ConstructedTraffic())
  {
  }

  /** Every field of a decoded contact is the wire's entry of the same name
      when the object carries it, and the constructed value otherwise. */
  lemma TrafficDecodeFields(w: WireObject)
    requires TrafficFromWire(w).Ok?
    ensures var e, c := TrafficFromWire(w).value, ConstructedTraffic();
      && FilledFrom(w, "icaoAddress", AsUint32, e.icaoAddress, c.icaoAddress)
      && FilledFrom(w, "longitude", AsReal, e.longitude, c.longitude)
      && FilledFrom(w, "latitude", AsReal, e.latitude, c.latitude)
      && FilledFrom(w, "pressureAltitude", AsInt32, e.pressureAltitude, c.pressureAltitude)
      && FilledFrom(w, "velocity", AsInt32, e.velocity, c.velocity)
      && FilledFrom(w, "climbRate", AsInt32, e.climbRate, c.climbRate)
      && FilledFrom(w, "squawk", AsInt32, e.squawk, c.squawk)
      && FilledFrom(w, "groundtrack", AsReal, e.groundtrack, c.groundtrack)
      && FilledFrom(w, "name", AsString, e.name, c.name)
  {
  }

  /** Leaving fields out of a contact resets exactly those fields to their
      constructed values. */
  lemma TrafficDecodeWithout(w: WireObject, ks: set<string>)
    requires TrafficFromWire(w).Ok?
    ensures TrafficFromWire(w - ks) == Ok(ResetTrafficFields(TrafficFromWire(w).value, ks))
  {
    var r := TrafficFromWire(w).value;
    FilledFromWithout(w, ks, "icaoAddress", AsUint32, r.icaoAddress, 0);
    FilledFromWithout(w, ks, "longitude", AsReal, r.longitude, Invalid);
    FilledFromWithout(w, ks, "latitude", AsReal, r.latitude, Invalid);
    FilledFromWithout(w, ks, "pressureAltitude", AsInt32, r.pressureAltitude, InvalidValue);
    FilledFromWithout(w, ks, "velocity", AsInt32, r.velocity, InvalidValue);
    FilledFromWithout(w, ks, "climbRate", AsInt32, r.climbRate, InvalidValue);
    FilledFromWithout(w, ks, "squawk", AsInt32, r.squawk, InvalidValue);
    FilledFromWithout(w, ks, "groundtrack", AsReal, r.groundtrack, Invalid);
    FilledFromWithout(w, ks, "name", AsString, r.name, "");
  }

  function TrafficToValue(x: RemoteTrafficElement): WireValue {
    WObject(TrafficToWire(x))
  }

  function TrafficFromValue(v: WireValue): Result<RemoteTrafficElement> {
    if v.WObject? then TrafficFromWire(v.fields) else Malformed([])
  }

  /** The payload of updateTrafficData: the contacts, in order. */
  function TrafficListToValue(xs: seq<RemoteTrafficElement>): WireValue {
    ListToWire(xs, TrafficToValue)
  }

  function TrafficListFromValue(v: WireValue): Result<seq<RemoteTrafficElement>> {
    ListFromWire(v, TrafficFromValue)
  }

  lemma TrafficListRoundTrip(xs: seq<RemoteTrafficElement>)
    ensures TrafficListFromValue(TrafficListToValue(xs)) == Ok(xs)
  {
    forall x: RemoteTrafficElement ensures TrafficFromValue(TrafficToValue(x)) == Ok(x) {
      TrafficRoundTrip(x);
    }
    ListRoundTrip(xs, TrafficToValue, TrafficFromValue);
  }

  function SensorDataToValue(x: RemoteSensorData): WireValue {
    WObject(SensorDataToWire(x))
  }

  function SensorDataFromValue(v: WireValue): Result<RemoteSensorData> {
    if v.WObject? then SensorDataFromWire(v.fields) else Malformed([])
  }
}
