/** The procedure catalog of the sensor API: which procedures exist, under
which name each is called, which numeric id a call carries by default, and
the argument list each call wrapper builds.

A call is what one peer hands to the RPC layer: the procedure name, the
encoded arguments and the id under which the result or error will come back.
The optional completion receiver of the wrappers is not part of this model;
the session model routes every outcome to the handler that made the call.
 */
module Catalog {
  import opened Wire
  import opened Values
  import opened Sensor

  /** RemoteApiFunctions, in declaration order. The first two are served by
      this server and called by the avionics display; the other four are
      served by the display and called by this server. */
  datatype RemoteApiFunction =
    | UpdateAltitudeAGL
    | UpdateEvent
    | UpdateSensorData
    | SetOverrideValues
    | UpdateTrafficData
    | SetGenericValues

  const REMOTE_API_FUNCTION_COUNT: uint32 := 6

  /** The enum value of a procedure, which is also its default call id. */
  function Ordinal(f: RemoteApiFunction): (n: uint32)
    ensures n < REMOTE_API_FUNCTION_COUNT
  {
    match f
    case UpdateAltitudeAGL => 0
    case UpdateEvent => 1
    case UpdateSensorData => 2
    case SetOverrideValues => 3
    case UpdateTrafficData => 4
    case SetGenericValues => 5
  }

  /** The procedure whose enum value is `n`, if there is one. */
  function FunctionWithOrdinal(n: int): (r: Option<RemoteApiFunction>)
    ensures r.Some? <==> 0 <= n < REMOTE_API_FUNCTION_COUNT as int
    ensures r.Some? ==> Ordinal(r.value) == n
  {
    if n == 0 then Some(UpdateAltitudeAGL)
    else if n == 1 then Some(UpdateEvent)
    else if n == 2 then Some(UpdateSensorData)
    else if n == 3 then Some(SetOverrideValues)
    else if n == 4 then Some(UpdateTrafficData)
    else if n == 5 then Some(SetGenericValues)
    else None
  }

  /** The ids 0 .. REMOTE_API_FUNCTION_COUNT - 1 are exactly the ordinals,
      one per procedure: no two procedures share a default id. */
  lemma OrdinalsAreIds(f: RemoteApiFunction, g: RemoteApiFunction)
    ensures FunctionWithOrdinal(Ordinal(f)) == Some(f)
    ensures Ordinal(f) == Ordinal(g) <==> f == g
  {
  }

  /** The name under which the procedure is called. */
  function ProcedureName(f: RemoteApiFunction): string {
    match f
    case UpdateAltitudeAGL => "updateAltitudeAGL"
    case UpdateEvent => "updateEvent"
    case UpdateSensorData => "updateSensorData"
    case SetOverrideValues => "setOverrideValues"
    case UpdateTrafficData => "updateTrafficData"
    case SetGenericValues => "setGenericValues"
  }

  /** The procedure called `name`, if there is one. */
  function FunctionNamed(name: string): (r: Option<RemoteApiFunction>)
    ensures r.Some? ==> ProcedureName(r.value) == name
  {
    if name == "updateAltitudeAGL" then Some(UpdateAltitudeAGL)
    else if name == "updateEvent" then Some(UpdateEvent)
    else if name == "updateSensorData" then Some(UpdateSensorData)
    else if name == "setOverrideValues" then Some(SetOverrideValues)
    else if name == "updateTrafficData" then Some(UpdateTrafficData)
    else if name == "setGenericValues" then Some(SetGenericValues)
    else None
  }

  /** Every procedure is found under its own name, so no two procedures share
      a name. */
  lemma NamesIdentifyProcedures(f: RemoteApiFunction, g: RemoteApiFunction)
    ensures FunctionNamed(ProcedureName(f)) == Some(f)
    ensures ProcedureName(f) == ProcedureName(g) <==> f == g
  {
  }

  /** Which peer implements a procedure. */
  datatype Peer = Server | Display

  function Implementer(f: RemoteApiFunction): (p: Peer)
    ensures p == Server <==> Ordinal(f) < 2
  {
    match f
    case UpdateAltitudeAGL => Server
    case UpdateEvent => Server
    case _ => Display
  }

  /** RemoteEvent. */
  const WARNING_LAMP_CLICKED: int32 := 0
  const REMOTE_EVENT_COUNT: int32 := 1

  // Call wrappers -------------------------------------------------------------

  datatype Call = Call(procedure: string, args: seq<WireValue>, id: uint32)

  /** A call to `f` with one encoded argument. */
  function CallTo(f: RemoteApiFunction, arg: WireValue, id: uint32): Call {
    Call(ProcedureName(f), [arg], id)
  }

  function UpdateTrafficDataCall(data: seq<RemoteTrafficElement>, id: uint32 := Ordinal(UpdateTrafficData)): Call {
    CallTo(UpdateTrafficData, TrafficListToValue(data), id)
  }

  function UpdateSensorDataCall(data: RemoteSensorData, id: uint32 := Ordinal(UpdateSensorData)): Call {
    CallTo(UpdateSensorData, SensorDataToValue(data), id)
  }

  function SetOverrideValuesCall(data: OverrideValues, id: uint32 := Ordinal(SetOverrideValues)): Call {
    CallTo(SetOverrideValues, OverrideValuesToValue(data), id)
  }

  function SetGenericValuesCall(data: GenericValues, id: uint32 := Ordinal(SetGenericValues)): Call {
    CallTo(SetGenericValues, GenericValuesToValue(data), id)
  }

  function UpdateAltitudeAGLCall(altitude: real, id: uint32 := Ordinal(UpdateAltitudeAGL)): Call {
    CallTo(UpdateAltitudeAGL, RealToWire(altitude), id)
  }

  /** The event travels as a plain integer. */
  function UpdateEventCall(event: int32, id: uint32 := Ordinal(UpdateEvent)): Call {
    CallTo(UpdateEvent, Int32ToWire(event), id)
  }

  /** A decoded call: the procedure and its native argument. */
  datatype Request =
    | AltitudeAGL(altitude: real)
    | Event(event: int32)
    | SensorData(sensorData: RemoteSensorData)
    | Override(overrideValues: OverrideValues)
    | Traffic(traffic: seq<RemoteTrafficElement>)
    | Generic(genericValues: GenericValues)

  function RequestFunction(q: Request): RemoteApiFunction {
    match q
    case AltitudeAGL(_) => UpdateAltitudeAGL
    case Event(_) => UpdateEvent
    case SensorData(_) => UpdateSensorData
    case Override(_) => SetOverrideValues
    case Traffic(_) => UpdateTrafficData
    case Generic(_) => SetGenericValues
  }

  /** One use of a wrapper: the request it is given and the id it is passed. */
  datatype Invocation = Invocation(request: Request, id: uint32)

  /** A wrapper used without an explicit id. */
  function DefaultInvocation(q: Request): (inv: Invocation)
    ensures inv.request == q
    ensures FunctionWithOrdinal(inv.id) == Some(RequestFunction(q))
  {
    Invocation(q, Ordinal(RequestFunction(q)))
  }

  /** What the wrapper for the invocation's procedure sends. */
  function WrapperCall(inv: Invocation): Call {
    match inv.request
    case AltitudeAGL(a) => UpdateAltitudeAGLCall(a, inv.id)
    case Event(e) => UpdateEventCall(e, inv.id)
    case SensorData(d) => UpdateSensorDataCall(d, inv.id)
    case Override(o) => SetOverrideValuesCall(o, inv.id)
    case Traffic(t) => UpdateTrafficDataCall(t, inv.id)
    case Generic(g) => SetGenericValuesCall(g, inv.id)
  }

  /** Called without an id, each wrapper sends its own procedure name with
      that procedure's enum value as the id. */
  lemma WrapperDefaultIds(altitude: real, event: int32, d: RemoteSensorData, o: OverrideValues,
                          t: seq<RemoteTrafficElement>, g: GenericValues)
    ensures UpdateAltitudeAGLCall(altitude).procedure == "updateAltitudeAGL" && UpdateAltitudeAGLCall(altitude).id == 0
    ensures UpdateEventCall(event).procedure == "updateEvent" && UpdateEventCall(event).id == 1
    ensures UpdateSensorDataCall(d).procedure == "updateSensorData" && UpdateSensorDataCall(d).id == 2
    ensures SetOverrideValuesCall(o).procedure == "setOverrideValues" && SetOverrideValuesCall(o).id == 3
    ensures UpdateTrafficDataCall(t).procedure == "updateTrafficData" && UpdateTrafficDataCall(t).id == 4
    ensures SetGenericValuesCall(g).procedure == "setGenericValues" && SetGenericValuesCall(g).id == 5
  {
  }

  /** Decodes the argument of a call to `f` with that procedure's codec. */
  function DecodeArgument(f: RemoteApiFunction, a: WireValue): (r: Result<Request>)
    ensures r.Ok? ==> RequestFunction(r.value) == f
  {
    match f
    case UpdateAltitudeAGL => var x :- AsReal(a); Ok(AltitudeAGL(x))
    case UpdateEvent => var x :- AsInt32(a); Ok(Event(x))
    case UpdateSensorData => var x :- SensorDataFromValue(a); Ok(SensorData(x))
    case SetOverrideValues => var x :- OverrideValuesFromValue(a); Ok(Override(x))
    case UpdateTrafficData => var x :- TrafficListFromValue(a); Ok(Traffic(x))
    case SetGenericValues => var x :- GenericValuesFromValue(a); Ok(Generic(x))
  }

  /** A reference receiver for the calls the wrappers build (the display's
      own receiver is not part of this model): look the procedure up by name
      and decode its first argument with the codec of that procedure. An
      unknown name or a missing argument is refused. */
  function DecodeCall(c: Call): (r: Result<Request>)
    ensures r.Ok? ==> FunctionNamed(c.procedure) == Some(RequestFunction(r.value))
    ensures FunctionNamed(c.procedure).None? || |c.args| == 0 ==> r.Malformed?
  {
    match FunctionNamed(c.procedure)
    case None => Malformed([c.procedure])
    case Some(f) =>
      if |c.args| == 0 then Malformed([c.procedure]) else DecodeArgument(f, c.args[0])
  }

  /** A one-argument call under a procedure's own name is decoded with that
      procedure's codec. */
  lemma DecodeNamedCall(f: RemoteApiFunction, a: WireValue, id: uint32)
    ensures DecodeCall(Call(ProcedureName(f), [a], id)) == DecodeArgument(f, a)
  {
    NamesIdentifyProcedures(f, f);
  }

  // The argument each wrapper encodes decodes back to the request.

  lemma SensorDataArgumentRoundTrip(d: RemoteSensorData)
    ensures DecodeArgument(UpdateSensorData, SensorDataToValue(d)) == Ok(SensorData(d))
  {
    SensorDataRoundTrip(d);
  }

  lemma OverrideArgumentRoundTrip(o: OverrideValues)
    ensures DecodeArgument(SetOverrideValues, OverrideValuesToValue(o)) == Ok(Override(o))
  {
    OverrideValuesRoundTrip(o);
  }

  lemma TrafficArgumentRoundTrip(t: seq<RemoteTrafficElement>)
    ensures DecodeArgument(UpdateTrafficData, TrafficListToValue(t)) == Ok(Traffic(t))
  {
    TrafficListRoundTrip(t);
  }

  lemma GenericArgumentRoundTrip(g: GenericValues)
    ensures DecodeArgument(SetGenericValues, GenericValuesToValue(g)) == Ok(Generic(g))
  {
    GenericValuesRoundTrip(g);
  }

  lemma ArgumentRoundTrip(inv: Invocation)
    ensures DecodeArgument(RequestFunction(inv.request), WrapperCall(inv).args[0]) == Ok(inv.request)
  {
    match inv.request
    case AltitudeAGL(a) =>
      assert WrapperCall(inv).args[0] == WReal(a);
    case Event(e) =>
      assert WrapperCall(inv).args[0] == WInt(e);
    case SensorData(d) =>
      assert WrapperCall(inv).args[0] == SensorDataToValue(d);
      SensorDataArgumentRoundTrip(d);
    case Override(o) =>
      assert WrapperCall(inv).args[0] == OverrideValuesToValue(o);
      OverrideArgumentRoundTrip(o);
    case Traffic(t) =>
      assert WrapperCall(inv).args[0] == TrafficListToValue(t);
      TrafficArgumentRoundTrip(t);
    case Generic(g) =>
      assert WrapperCall(inv).args[0] == GenericValuesToValue(g);
      GenericArgumentRoundTrip(g);
  }

  /** Each wrapper names its own procedure, passes the id it is given, and
      its argument reaches the receiving peer unchanged. */
  lemma WrapperCallDelivers(inv: Invocation)
    ensures FunctionNamed(WrapperCall(inv).procedure) == Some(RequestFunction(inv.request))
    ensures WrapperCall(inv).id == inv.id
    ensures DecodeCall(WrapperCall(inv)) == Ok(inv.request)
  {
    var f := RequestFunction(inv.request);
    var c := WrapperCall(inv);
    assert c == Call(ProcedureName(f), [c.args[0]], inv.id);
    DecodeNamedCall(f, c.args[0], inv.id);
    ArgumentRoundTrip(inv);
  }
}
