/** One client session of the example server (ProcedureHandler): the records
it keeps for its client, the two send timers, the periodic tick that pushes
the records to the display, and what it does with the messages the display
sends back.

The clock and the freshly generated sample data are inputs: a tick is given
the current time and the snapshot the generators would have produced. The
console log lines become `Report` values.
 */
module Session {
  import opened Wire
  import opened Values
  import opened Sensor
  import opened Catalog

  /** Sensor data, override values and generic values are sent when more
      than this many seconds have passed since the last such send. */
  const HIGH_RATE_INTERVAL: real := 0.033

  /** Traffic is sent when more than this many seconds have passed since
      the last traffic send. */
  const TRAFFIC_INTERVAL: real := 0.5

  /** The records a handler keeps for its client. */
  datatype Native = Native(
    sensorData: RemoteSensorData,
    traffic: seq<RemoteTrafficElement>,
    overrideValues: OverrideValues,
    genericValues: GenericValues)

  datatype Handler = Handler(
    client: nat,
    lastSendTime: real,
    lastTrafficSendTime: real,
    native: Native)

  /** The procedures this server answers; the constructor registers a
      receiver for each. */
  const Registered: set<string> := {"updateAltitudeAGL", "updateEvent"}

  /** The registered procedures are exactly the ones the catalog assigns to
      the server. */
  lemma RegisteredAreServerProcedures(f: RemoteApiFunction)
    ensures ProcedureName(f) in Registered <==> Implementer(f) == Server
  {
  }

  /** A handler created at time `now` for connection `client`: both timers
      start at `now`, every record is default-constructed and the traffic
      list holds one default contact. */
  function NewHandler(client: nat, now: real): (h: Handler)
    ensures h.client == client
    ensures h.lastSendTime == now && h.lastTrafficSendTime == now
    ensures |h.native.traffic| == 1 && h.native.traffic[0] == ConstructedTraffic()
    ensures h.native.sensorData == ConstructedSensorData()
  {
    Handler(client, now, now,
      Native(ConstructedSensorData(), [ConstructedTraffic()], ConstructedOverrideValues, DefaultGenericValues))
  }

  // The periodic tick ---------------------------------------------------------

  /** The two send timers of a handler. */
  datatype Timer = HighRate | TrafficTimer

  function Interval(k: Timer): real {
    match k
    case HighRate => HIGH_RATE_INTERVAL
    case TrafficTimer => TRAFFIC_INTERVAL
  }

  /** When the timer's branch last fired (or the creation time). */
  function Last(h: Handler, k: Timer): real {
    match k
    case HighRate => h.lastSendTime
    case TrafficTimer => h.lastTrafficSendTime
  }

  /** A branch fires when strictly more than its interval has passed. */
  predicate Due(h: Handler, t: real, k: Timer) {
    t - Last(h, k) > Interval(k)
  }

  /** The new handler state and the wrapper invocations it made, in order. */
  datatype TickResult = TickResult(handler: Handler, calls: seq<Invocation>)

  /** The high-rate branch: refresh the three records from the snapshot and
      send each with its wrapper's default id, then restart the timer. */
  function HighRateBranch(h: Handler, t: real, snapshot: Native): TickResult {
    var native := h.native.(
      sensorData := snapshot.sensorData,
      overrideValues := snapshot.overrideValues,
      genericValues := snapshot.genericValues);
    TickResult(
      h.(native := native, lastSendTime := t),
      [DefaultInvocation(SensorData(native.sensorData)),
       DefaultInvocation(Override(native.overrideValues)),
       DefaultInvocation(Generic(native.genericValues))])
  }

  /** The traffic branch: refresh the traffic list from the snapshot and send
      it, then restart the traffic timer. */
  function TrafficBranch(h: Handler, t: real, snapshot: Native): TickResult {
    var native := h.native.(traffic := snapshot.traffic);
    TickResult(
      h.(native := native, lastTrafficSendTime := t),
      [DefaultInvocation(Traffic(native.traffic))])
  }

  /** The call ids of a list of invocations, in order. */
  function Ids(calls: seq<Invocation>): (ids: seq<int>)
    ensures |ids| == |calls|
    ensures forall i :: 0 <= i < |calls| ==> ids[i] == calls[i].id
  {
    seq(|calls|, i requires 0 <= i < |calls| => calls[i].id as int)
  }

  /** The requests of a list of invocations, in order. */
  function Requests(calls: seq<Invocation>): (qs: seq<Request>)
    ensures |qs| == |calls|
    ensures forall i :: 0 <= i < |calls| ==> qs[i] == calls[i].request
  {
    seq(|calls|, i requires 0 <= i < |calls| => calls[i].request)
  }

  /** One tick at time `t`. The high-rate calls (sensor data, override
      values, generic values, with ids 2, 3, 5) come first when due, then the
      traffic call (id 4) when due; each branch restarts only its own timer
      and refreshes, and sends, only its own records. */
  function Tick(h: Handler, t: real, snapshot: Native): (r: TickResult)
    ensures Ids(r.calls) == (if Due(h, t, HighRate) then [2, 3, 5] else []) + (if Due(h, t, TrafficTimer) then [4] else [])
    ensures var n := r.handler.native;
      Requests(r.calls) ==
        (if Due(h, t, HighRate) then [SensorData(n.sensorData), Override(n.overrideValues), Generic(n.genericValues)] else []) +
        (if Due(h, t, TrafficTimer) then [Traffic(n.traffic)] else [])
    ensures r.handler.client == h.client
    ensures r.handler.lastSendTime == if t - h.lastSendTime > 0.033 then t else h.lastSendTime
    ensures r.handler.lastTrafficSendTime == if t - h.lastTrafficSendTime > 0.5 then t else h.lastTrafficSendTime
    ensures r.handler.native.sensorData == if Due(h, t, HighRate) then snapshot.sensorData else h.native.sensorData
    ensures r.handler.native.overrideValues == if Due(h, t, HighRate) then snapshot.overrideValues else h.native.overrideValues
    ensures r.handler.native.genericValues == if Due(h, t, HighRate) then snapshot.genericValues else h.native.genericValues
    ensures r.handler.native.traffic == if Due(h, t, TrafficTimer) then snapshot.traffic else h.native.traffic
  {
    var high := if Due(h, t, HighRate) then HighRateBranch(h, t, snapshot) else TickResult(h, []);
    var traffic :=
      if Due(high.handler, t, TrafficTimer) then TrafficBranch(high.handler, t, snapshot)
      else TickResult(high.handler, []);
    TickResult(traffic.handler, high.calls + traffic.calls)
  }

  /** Every call of a tick carries the default id of its procedure, so a
      result or error that comes back can be traced to the procedure by id;
      with WrapperCallDelivers this gives what the display receives: the
      procedure's name, that id, and the record the handler now holds. */
  lemma TickUsesDefaultIds(h: Handler, t: real, snapshot: Native)
    ensures var calls := Tick(h, t, snapshot).calls;
      forall i :: 0 <= i < |calls| ==> FunctionWithOrdinal(calls[i].id) == Some(RequestFunction(calls[i].request))
  {
    var calls := Tick(h, t, snapshot).calls;
    forall i | 0 <= i < |calls|
      ensures FunctionWithOrdinal(calls[i].id) == Some(RequestFunction(calls[i].request))
    {
      assert Ids(calls)[i] == calls[i].id;
      assert Requests(calls)[i] == calls[i].request;
    }
  }

  /** A handler ticked at the moment of its creation sends nothing; in fact
      it stays silent until more than the high-rate interval has passed. */
  lemma NewHandlerIsQuiet(client: nat, now: real, t: real, snapshot: Native)
    ensures Tick(NewHandler(client, now), now, snapshot).calls == []
    ensures Tick(NewHandler(client, now), t, snapshot).calls == [] <==> t - now <= HIGH_RATE_INTERVAL
  {
    var r := Tick(NewHandler(client, now), t, snapshot);
    if t - now > HIGH_RATE_INTERVAL {
      assert |Ids(r.calls)| > 0;
    }
  }

  /** A tick's effect on one timer: restarted at `t` when its branch fired,
      untouched otherwise (in particular, by the other branch). */
  lemma TickTimer(h: Handler, t: real, snapshot: Native, k: Timer)
    ensures Last(Tick(h, t, snapshot).handler, k) == if Due(h, t, k) then t else Last(h, k)
  {
  }

  // Runs of ticks -------------------------------------------------------------

  /** One pass of the server loop as seen by a handler: the time read by the
      tick and the sample data it would generate. */
  datatype Step = Step(now: real, snapshot: Native)

  /** Ticks in sequence: the final handler and every call, in order. A
      timer only moves to a time later than where it stood, so neither timer
      ever goes back, even when the clock does. */
  function Run(h: Handler, steps: seq<Step>): (r: TickResult)
    ensures r.handler.client == h.client
    ensures r.handler.lastSendTime >= h.lastSendTime
    ensures r.handler.lastTrafficSendTime >= h.lastTrafficSendTime
    decreases |steps|
  {
    if |steps| == 0 then TickResult(h, [])
    else
      var first := Tick(h, steps[0].now, steps[0].snapshot);
      var rest := Run(first.handler, steps[1..]);
      TickResult(rest.handler, first.calls + rest.calls)
  }

  /** The times at which timer `k`'s branch fired during a run, in order. */
  function FiringTimes(h: Handler, steps: seq<Step>, k: Timer): seq<real>
    decreases |steps|
  {
    if |steps| == 0 then []
    else
      var next := Tick(h, steps[0].now, steps[0].snapshot).handler;
      (if Due(h, steps[0].now, k) then [steps[0].now] else []) + FiringTimes(next, steps[1..], k)
  }

  /** A run's firings of a branch end where its timer ends: none leaves the
      timer where it was, otherwise the first comes more than the interval
      after the timer's start and the timer ends at the last. */
  lemma {:induction false} FiringsMoveTimer(h: Handler, steps: seq<Step>, k: Timer)
    ensures var ts := FiringTimes(h, steps, k);
      var last := Last(Run(h, steps).handler, k);
      && (|ts| == 0 ==> last == Last(h, k))
      && (|ts| > 0 ==> ts[0] - Last(h, k) > Interval(k) && last == ts[|ts| - 1])
    decreases |steps|
  {
    if |steps| > 0 {
      var s := steps[0];
      var next := Tick(h, s.now, s.snapshot).handler;
      TickTimer(h, s.now, s.snapshot, k);
      FiringsMoveTimer(next, steps[1..], k);
    }
  }

  /** Whatever the clock does, two consecutive firings of a branch are more
      than its interval apart. */
  lemma {:induction false} FiringsAreSpaced(h: Handler, steps: seq<Step>, k: Timer)
    ensures var ts := FiringTimes(h, steps, k);
      forall i :: 0 <= i < |ts| - 1 ==> ts[i + 1] - ts[i] > Interval(k)
    decreases |steps|
  {
    if |steps| > 0 {
      var s := steps[0];
      var next := Tick(h, s.now, s.snapshot).handler;
      FiringsAreSpaced(next, steps[1..], k);
      var rest := FiringTimes(next, steps[1..], k);
      var ts := FiringTimes(h, steps, k);
      if Due(h, s.now, k) {
        assert ts == [s.now] + rest;
        if |rest| > 0 {
          TickTimer(h, s.now, s.snapshot, k);
          FiringsMoveTimer(next, steps[1..], k);
        }
        forall i | 0 <= i < |ts| - 1 ensures ts[i + 1] - ts[i] > Interval(k) {
          if i > 0 {
            assert ts[i] == rest[i - 1] && ts[i + 1] == rest[i];
          }
        }
      } else {
        assert ts == rest;
      }
    }
  }

  /** Hence a branch fires at most once per interval: n firings take the
      timer forward by more than n intervals. */
  lemma {:induction false} FiringCountBound(h: Handler, steps: seq<Step>, k: Timer)
    ensures var n := |FiringTimes(h, steps, k)|;
      n as real * Interval(k) <= Last(Run(h, steps).handler, k) - Last(h, k)
    ensures |FiringTimes(h, steps, k)| > 0 ==>
      |FiringTimes(h, steps, k)| as real * Interval(k) < Last(Run(h, steps).handler, k) - Last(h, k)
    decreases |steps|
  {
    if |steps| > 0 {
      var s := steps[0];
      var next := Tick(h, s.now, s.snapshot).handler;
      TickTimer(h, s.now, s.snapshot, k);
      FiringCountBound(next, steps[1..], k);
    }
  }

  /** Every high-rate firing sends three calls and every traffic firing one. */
  lemma {:induction false} RunCallCount(h: Handler, steps: seq<Step>)
    ensures |Run(h, steps).calls| == 3 * |FiringTimes(h, steps, HighRate)| + |FiringTimes(h, steps, TrafficTimer)|
    decreases |steps|
  {
    if |steps| > 0 {
      var s := steps[0];
      var first := Tick(h, s.now, s.snapshot);
      RunCallCount(first.handler, steps[1..]);
      assert |first.calls| == |Ids(first.calls)|;
    }
  }

  /** Results for the handler's own sends are never logged: their ids are
      those of procedures the display implements. */
  lemma OwnResultsAreDiscarded(h: Handler, t: real, snapshot: Native, results: WireValue)
    ensures var calls := Tick(h, t, snapshot).calls;
      forall i :: 0 <= i < |calls| ==> OnProcedureResult(results, calls[i].id).None?
  {
    var calls := Tick(h, t, snapshot).calls;
    forall i | 0 <= i < |calls| ensures OnProcedureResult(results, calls[i].id).None? {
      assert Ids(calls)[i] == calls[i].id;
    }
  }

  // Messages from the display ---------------------------------------------------

  /** What the handler logs. */
  datatype Report =
    | AltitudeReport(altitude: Result<real>)
    | EventReport(event: Result<int32>)
    | ErrorReport(errorCode: int32, errorMessage: string, errorData: Option<WireValue>, id: uint32)

  /** A result for an earlier call, correlated by id alone: id 0 is logged
      as an altitude and id 1 as an event; every other result, including
      those for the handler's own sends (ids 2 to 5), is discarded. */
  function OnProcedureResult(results: WireValue, id: uint32): (r: Option<Report>)
    ensures r.Some? <==> id == 0 || id == 1
    ensures id == 0 ==> r == Some(AltitudeReport(AsReal(results)))
    ensures id == 1 ==> r == Some(EventReport(AsInt32(results)))
  {
    if id == Ordinal(UpdateAltitudeAGL) then Some(AltitudeReport(AsReal(results)))
    else if id == Ordinal(UpdateEvent) then Some(EventReport(AsInt32(results)))
    else None
  }

  /** An error for an earlier call: always logged, with its id. */
  function OnProcedureError(errorCode: int32, errorMessage: string, errorData: Option<WireValue>, id: uint32): (r: Report)
    ensures r.ErrorReport? && r.id == id && r.errorCode == errorCode
  {
    ErrorReport(errorCode, errorMessage, errorData, id)
  }

  /** A call from the display. The two registered procedures log their first
      argument (which they read without checking that there is one); every
      call is answered with no result. */
  function CallProcedure(procedure: string, values: seq<WireValue>): (r: (Option<Report>, Option<WireValue>))
    requires procedure in Registered ==> |values| >= 1
    ensures r.0.Some? <==> procedure in Registered
    ensures r.1.None?
  {
    if procedure == "updateAltitudeAGL" then (Some(AltitudeReport(AsReal(values[0]))), None)
    else if procedure == "updateEvent" then (Some(EventReport(AsInt32(values[0]))), None)
    else (None, None)
  }

  /** The display's calls to this server, made with the catalog's wrappers,
      are logged with exactly the value the display sent. */
  lemma ServedCallsAreLogged(altitude: real, event: int32, id: uint32)
    ensures var c := UpdateAltitudeAGLCall(altitude, id);
      CallProcedure(c.procedure, c.args).0 == Some(AltitudeReport(Ok(altitude)))
    ensures var c := UpdateEventCall(event, id);
      CallProcedure(c.procedure, c.args).0 == Some(EventReport(Ok(event)))
  {
  }

  /** A message arriving from the display. */
  datatype Inbound =
    | ResultMessage(results: WireValue, id: uint32)
    | ErrorMessage(errorCode: int32, errorMessage: string, errorData: Option<WireValue>, id: uint32)
    | CallMessage(procedure: string, values: seq<WireValue>)

  /** A call to a registered procedure carries at least one argument. */
  predicate WellFormed(m: Inbound) {
    m.CallMessage? && m.procedure in Registered ==> |m.values| >= 1
  }

  predicate AllWellFormed(inbound: seq<Inbound>) {
    forall i :: 0 <= i < |inbound| ==> WellFormed(inbound[i])
  }

  function Receive(m: Inbound): Option<Report>
    requires WellFormed(m)
  {
    match m
    case ResultMessage(results, id) => OnProcedureResult(results, id)
    case ErrorMessage(code, message, data, id) => Some(OnProcedureError(code, message, data, id))
    case CallMessage(procedure, values) => CallProcedure(procedure, values).0
  }

  /** The log of a batch of inbound messages, in arrival order. */
  function Pump(inbound: seq<Inbound>): (log: seq<Report>)
    requires forall i :: 0 <= i < |inbound| ==> WellFormed(inbound[i])
    ensures |log| <= |inbound|
    ensures (forall i :: 0 <= i < |inbound| ==> inbound[i].ErrorMessage?) ==> |log| == |inbound|
    ensures (forall i :: 0 <= i < |inbound| ==> inbound[i].ResultMessage? && inbound[i].id >= 2) ==> log == []
    decreases |inbound|
  {
    if |inbound| == 0 then []
    else
      var rest := Pump(inbound[1..]);
      match Receive(inbound[0])
      case Some(report) => [report] + rest
      case None => rest
  }

  /** Batches are logged independently of how the messages are split. */
  lemma {:induction false} PumpAppend(a: seq<Inbound>, b: seq<Inbound>)
    requires forall i :: 0 <= i < |a| ==> WellFormed(a[i])
    requires forall i :: 0 <= i < |b| ==> WellFormed(b[i])
    ensures forall i :: 0 <= i < |a + b| ==> WellFormed((a + b)[i])
    ensures Pump(a + b) == Pump(a) + Pump(b)
    decreases |a|
  {
    if |a| > 0 {
      assert (a + b)[1..] == a[1..] + b;
      assert (a + b)[0] == a[0];
      PumpAppend(a[1..], b);
    } else {
      assert a + b == b;
    }
  }

  datatype UpdateResult = UpdateResult(handler: Handler, calls: seq<Invocation>, log: seq<Report>)

  /** update(): drain the inbound messages, then tick. */
  function Update(h: Handler, inbound: seq<Inbound>, t: real, snapshot: Native): (r: UpdateResult)
    requires AllWellFormed(inbound)
    ensures |r.log| <= |inbound|
  {
    var tick := Tick(h, t, snapshot);
    UpdateResult(tick.handler, tick.calls, Pump(inbound))
  }

  /** An update is the drained log plus one tick: its handler and calls are
      the tick's, so each timer is restarted exactly when its branch is due,
      whatever arrived from the display. */
  lemma UpdateIsTick(h: Handler, inbound: seq<Inbound>, t: real, snapshot: Native, k: Timer)
    requires AllWellFormed(inbound)
    ensures var u, tick := Update(h, inbound, t, snapshot), Tick(h, t, snapshot);
      && u.log == Pump(inbound)
      && u.handler == tick.handler
      && u.calls == tick.calls
      && Last(u.handler, k) == if Due(h, t, k) then t else Last(h, k)
  {
    TickTimer(h, t, snapshot, k);
  }

  /** Results, errors and calls from the display change nothing in the
      handler: neither its timers nor its records nor what it sends. */
  lemma UpdateIgnoresInbound(h: Handler, a: seq<Inbound>, b: seq<Inbound>, t: real, snapshot: Native)
    requires AllWellFormed(a) && AllWellFormed(b)
    ensures Update(h, a, t, snapshot).handler == Update(h, b, t, snapshot).handler
    ensures Update(h, a, t, snapshot).calls == Update(h, b, t, snapshot).calls
  {
  }
}
