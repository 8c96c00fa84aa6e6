# Horizon RPC sensor server: a Dafny model

This project models the core of the Horizon RPC server example: a small server that pushes aircraft sensor data, instrument overrides, generic indicator values and traffic contacts to the Horizon avionics display over a bidirectional RPC link, and logs what the display sends back.

It has two halves.

- **The sensor API** (`RPCSensorAPI.h`):
  - the wire records with their encoders and defaulting decoders;
  - the "not available" sentinel and its tolerance check;
  - the procedure catalog (names, enum values used as default call ids);
  - the six call wrappers.
- **The example server** (`main.cpp`):
  - one client session (`ProcedureHandler`) with its two send timers, the periodic tick, and the handling of results, errors and calls from the display;
  - one pass of the main loop: accept, update every session, erase the disconnected ones.

Modules, in dependency order:

- `Wire` (`wire.dfy`):
  - the abstract wire value: numbers, text, lists and objects;
  - the `Result` of decoding;
  - "fill if available" field reading (`Field`);
  - generic list and string-keyed map codecs.
- `Values` (`values.dfy`): `ValueWithLevel`, `ValueWithFill`, `GenericValues`, `RangeSpecification`, `OverrideValues`.
- `Sensor` (`sensor.dfy`): `invalidValue`/`isInvalid`, `RemoteSensorData`, `RemoteTrafficElement`.
- `Catalog` (`catalog.dfy`):
  - `RemoteApiFunctions` and `RemoteEvent`;
  - the name/id pairing;
  - the call wrappers;
  - the receiving side's decoding of a call.
- `Session` (`session.dfy`): the `ProcedureHandler`. The clock and the freshly generated sample data are inputs. Console output becomes `Report` values.
- `Server` (`server.dfy`): one pass of the loop in `main`. Accepting, per-handler inputs and connectivity are inputs of the pass.

The record decoders mirror the field-by-field macros: an absent field takes its default, and a present field is read under its own name. `RangeSpecification` is a sum type, so its radius exists only under the `FIXED_CIRCLE` tag.

The timers compare strictly: a branch fires when *more than* 0.033 s (high rate) or 0.5 s (traffic) have passed. The code uses `>`, and the model follows the code.

## Model

| member | source | states |
|---|---|---|
| Wire.Field | RPCSensorAPI.h:44-47 | An absent field decodes to its default and never fails. A present field succeeds exactly when its reader accepts the wire entry of that name, and then yields what the reader yields. |
| Wire.FieldWithout | RPCSensorAPI.h:244-272 | Removing a set of fields from the object resets a field to its default exactly when it is among the removed ones. Every other field decodes as before. |
| Wire.FilledFromWithout | RPCSensorAPI.h:244-272 | A field filled from an object stays readable when fields are removed, and holds its default if it was removed and its old value otherwise. |
| Wire.ListRoundTrip | RPCSensorAPI.h:127-129 | A vector field comes back with the same length, elements and order whenever its elements round-trip. |
| Wire.MapRoundTrip | RPCSensorAPI.h:74-75 | An unordered_map field comes back with the same keys and values whenever its values round-trip. |
| Values.ValueWithLevelRoundTrip | RPCSensorAPI.h:39-47 | Decoding the encoding of a ValueWithLevel gives it back. |
| Values.ValueWithLevelDecodeIsOverlay | RPCSensorAPI.h:44-47 | A decoded ValueWithLevel is the wire's fields laid over the default instance. An absent text is "" and an absent warning level is BAD. |
| Values.ValueWithFillRoundTrip | RPCSensorAPI.h:57-67 | Decoding the encoding of a ValueWithFill gives it back. |
| Values.ValueWithFillDecodeIsOverlay | RPCSensorAPI.h:63-67 | A decoded ValueWithFill is the wire laid over the defaults: an absent fill is 0, an absent text "", an absent warning level BAD. |
| Values.FillListRoundTrip | RPCSensorAPI.h:75 | A stack of gauges comes back with the same gauges in the same order. |
| Values.GenericValuesRoundTrip | RPCSensorAPI.h:77-85 | Both generic maps come back with the same keys, readings and stack order. |
| Values.GenericValuesAbsentMapsAreEmpty | RPCSensorAPI.h:82-85 | An absent singleValues or multiValues decodes to an empty map. The empty object decodes to two empty maps. |
| Values.RangeToWire | RPCSensorAPI.h:109-114 | The encoding always carries the type tag. It carries a radius exactly when the tag is FIXED_CIRCLE, and that radius is the record's. It carries no other field. |
| Values.RangeFromWire | RPCSensorAPI.h:116-121 | No tag decodes to DISABLED. A decoded tag is the wire's tag. Under FIXED_CIRCLE the radius is the wire's when present, otherwise 0. |
| Values.RangeRoundTrip | RPCSensorAPI.h:109-121 | Encoding then decoding preserves the tag always, and the radius under FIXED_CIRCLE. |
| Values.RangeIgnoresInactiveRadius | RPCSensorAPI.h:118-120 | Under any tag but FIXED_CIRCLE, adding, changing or removing a radius on the wire does not change the decoded value. |
| Values.OverrideValuesRoundTrip | RPCSensorAPI.h:132-144 | Decoding the encoding of an OverrideValues gives back all three lists and the range. |
| Values.OverrideValuesDefaults | RPCSensorAPI.h:139-144 | The empty object decodes to batteryLevels [0], no battery warning levels, warningLevels [BAD] and range DISABLED. An object with only batteryLevels keeps those three defaults for the other fields. |
| Sensor.IsInvalidInterval | RPCSensorAPI.h:149-154 | isInvalid holds exactly on the open interval of radius 0.01 around -100000. It holds for the sentinel and not for 0. |
| Sensor.ConstructedSensorData | RPCSensorAPI.h:207-214 | The default constructor gives the identity attitude and warning level BAD, and marks the true heading, magnetic heading and airspeed as invalid. |
| Sensor.SensorDataRoundTrip | RPCSensorAPI.h:216-272 | The encoder writes all 25 fields, and the decoder reads each back under its own name, so the record returns unchanged. |
| Sensor.SensorDataDecodeEmpty | RPCSensorAPI.h:207-271 | The empty object decodes to exactly the default-constructed record: the decode defaults and the constructor agree field by field. |
| Sensor.SensorDataFromWire | RPCSensorAPI.h:244-272 | A sensor record decodes exactly when every field the object carries has the right kind; fields the object lacks never cause a failure. |
| Sensor.SensorDataDecodeFields | RPCSensorAPI.h:207-271 | Each of the 25 fields of a decoded record depends only on the wire's entry of the same name: that entry, read, when present, and the constructed value when absent. |
| Sensor.SensorDataDecodeWithout | RPCSensorAPI.h:244-272 | Leaving a set of fields out of a decodable object still decodes. It resets exactly those fields to their constructed values and leaves the other fields as decoded. |
| Sensor.ConstructedTraffic | RPCSensorAPI.h:287-290 | A default contact has no address and an empty name. Every other reading is the "not available" sentinel. |
| Sensor.TrafficDecodeFields | RPCSensorAPI.h:287-313 | Each field of a decoded contact depends only on the wire's entry of the same name: that entry, read, when present, and the constructed value when absent. |
| Sensor.TrafficRoundTrip | RPCSensorAPI.h:292-314 | Decoding the encoding of a contact gives it back. |
| Sensor.TrafficDecodeEmpty | RPCSensorAPI.h:287-313 | The empty object decodes to exactly the default-constructed contact. |
| Sensor.TrafficDecodeWithout | RPCSensorAPI.h:304-314 | Leaving fields out of a decodable contact resets exactly those fields to their constructed values. |
| Sensor.TrafficListRoundTrip | RPCSensorAPI.h:319-321 | The payload of updateTrafficData returns the same contacts in the same order. |
| Catalog.Ordinal | RPCSensorAPI.h:11-19 | Every procedure's enum value is below REMOTE_API_FUNCTION_COUNT (6). |
| Catalog.FunctionWithOrdinal | RPCSensorAPI.h:11-19 | An id names a procedure exactly when it lies in 0..5, and that procedure's enum value is the id. |
| Catalog.OrdinalsAreIds | RPCSensorAPI.h:11-19 | Looking up a procedure's enum value finds that procedure. Two procedures share an enum value only if they are the same procedure. |
| Catalog.FunctionNamed | RPCSensorAPI.h:319-344 | A procedure found by name is called by exactly that name. |
| Catalog.NamesIdentifyProcedures | RPCSensorAPI.h:319-344 | Every procedure is found under its own name, and no two procedures share a name. |
| Catalog.Implementer | RPCSensorAPI.h:11-17 | Exactly the first two procedures (ids 0 and 1) are served by this server; the other four are served by the display. |
| Catalog.DefaultInvocation | RPCSensorAPI.h:319-344 | A wrapper used without an id sends the request under the id whose enum value names the request's procedure. |
| Catalog.WrapperDefaultIds | RPCSensorAPI.h:319-344 | Each wrapper without an explicit id sends its own procedure name with its own enum constant: "updateAltitudeAGL" 0, "updateEvent" 1, "updateSensorData" 2, "setOverrideValues" 3, "updateTrafficData" 4, "setGenericValues" 5. |
| Catalog.DecodeArgument | RPCSensorAPI.h:319-344 | An argument decoded for a procedure is a request for that procedure. |
| Catalog.DecodeCall | RPCSensorAPI.h:319-344 | The model's reference receiver for the one-argument calls the wrappers build: an unknown name or an empty argument list is refused, and a decoded call is a request for the procedure of that name. |
| Catalog.DecodeNamedCall | RPCSensorAPI.h:319-344 | A one-argument call under a procedure's own name is decoded with that procedure's codec. |
| Catalog.ArgumentRoundTrip | RPCSensorAPI.h:319-344 | The argument any wrapper encodes decodes back to the request it was given. |
| Catalog.WrapperCallDelivers | RPCSensorAPI.h:319-344 | A wrapper call names its own procedure and carries the id it was passed. The receiving peer decodes it to exactly the request that was wrapped. |
| Session.RegisteredAreServerProcedures | main.cpp:127-131 | The constructor registers receivers exactly for the procedures the catalog assigns to the server. |
| Session.NewHandler | main.cpp:127-131 | A new handler keeps its client. Both timers start at the creation time. It holds one default traffic contact and default sensor data. |
| Session.Tick | main.cpp:165-182 | When due (more than 0.033 s elapsed), the high-rate branch sends ids 2, 3, 5 with the refreshed sensor, override and generic records. When due (more than 0.5 s elapsed), the traffic branch then sends id 4 with the refreshed traffic. Each branch restarts only its own timer and refreshes only its own records; nothing else changes. |
| Session.TickUsesDefaultIds | main.cpp:168-181 | Every call of a tick carries the default id of the procedure it invokes. |
| Session.NewHandlerIsQuiet | main.cpp:127-128 | A tick at the creation time sends nothing. A new handler sends nothing exactly while no more than 0.033 s have passed. |
| Session.TickTimer | main.cpp:168-181 | A tick restarts a timer at the tick's time when that timer's branch fired, and leaves it untouched otherwise. |
| Session.Run | main.cpp:165-182 | Over any run of ticks the handler keeps its client, and neither timer ever moves back, whatever the clock does. |
| Session.FiringsMoveTimer | main.cpp:168-181 | Over any run of ticks: with no firings the timer ends where it began; otherwise the first firing comes more than the interval after the start, and the timer ends at the last firing. |
| Session.FiringsAreSpaced | main.cpp:168-181 | For any sequence of clock readings, consecutive firings of a branch are more than its interval apart. |
| Session.FiringCountBound | main.cpp:168-181 | n firings of a branch move its timer forward by at least n intervals, and by strictly more when n > 0. |
| Session.RunCallCount | main.cpp:168-181 | A run sends three calls per high-rate firing plus one per traffic firing. |
| Session.OwnResultsAreDiscarded | main.cpp:137-146 | Results for the handler's own sends (ids 2 to 5) are never logged. |
| Session.OnProcedureResult | main.cpp:137-146 | A result is logged exactly when its id is 0 (read as an altitude) or 1 (read as an event). Every other id is discarded. |
| Session.OnProcedureError | main.cpp:148-152 | Every error is logged with its code and id. |
| Session.CallProcedure | main.cpp:154-163 | A call is logged exactly when it names a registered procedure. Every call is answered with no result. |
| Session.ServedCallsAreLogged | main.cpp:154-163 | A display call made with the updateAltitudeAGL or updateEvent wrapper is logged with exactly the value sent. |
| Session.Pump | main.cpp:137-166 | Draining inbound messages gives at most one report per message. It gives one per message when all are errors, and none when all are results with ids of 2 or more. |
| Session.PumpAppend | main.cpp:166 | Draining two batches in a row logs the same as draining them together. |
| Session.Update | main.cpp:165-182 | An update gives at most one report per inbound message. |
| Session.UpdateIsTick | main.cpp:165-182 | An update's log is the drained inbound messages' reports, and its handler and calls are those of one tick at the same time, so each timer restarts exactly when its branch is due. |
| Session.UpdateIgnoresInbound | main.cpp:137-163 | Results, errors and calls from the display change neither the handler's timers and records nor what it sends. |
| Server.Accept | main.cpp:194-197 | A newly accepted client's handler is appended at the end of the list, and the existing handlers keep their order. |
| Server.KeepAppend | main.cpp:198-208 | Erasing from a concatenation erases from each part, keeping the front part's survivors in front. |
| Server.KeepMembers | main.cpp:198-208 | A handler survives exactly when it sits at a connected position. |
| Server.KeepLength | main.cpp:198-208 | The number of survivors is the number of connected positions. |
| Server.WalkAndErase | main.cpp:198-208 | The erase-while-walking loop leaves exactly the connected handlers, in their original order. |
| Server.ServePass | main.cpp:193-208 | Every handler, including a newly appended one, is updated exactly once and in list order with its own inputs. The survivors are the updated handlers whose client is still connected, in order. |
| Server.PassKeepsOrder | main.cpp:198-208 | After a pass: there are as many survivors as connected clients; a handler survives exactly when its client is connected; and the last handler, when connected, is still last. |

## Left out

- Sample data generators: `fillSensorData`, `fillOverrideValues`, `fillGenericValues`, `fillTrafficData` and the rotation-matrix builders (main.cpp:33-49, 61-121). They are floating-point sine/cosine stand-ins. A tick instead takes the refreshed records as an arbitrary `snapshot` input and adopts the relevant parts whole.
- The RPC transport: IRPC.h, `createRPCValue`/`createNativeValue`, JSON-RPC framing, zlib compression and `ProtocolNegotiation` are not part of this model. The wire is an abstract value.
  - A present field of the wrong kind, or an integer outside its native width, decodes to `Malformed`; the real transport's behaviour there is not visible.
  - A floating field does not accept an integer wire value.
- Sockets, `accept`, `isConnected`, `getSecs`, `delay(10)` and the endless repetition of the loop: these are inputs of a pass, or left out.
- Console output is modelled as `Report` values. Its text formatting and the JSON dump of error data are left out.
- The optional `IRemoteProcedureCaller` argument of the wrappers. Every outcome is routed to the handler that made the call.
- Float vs double precision: every floating field is a mathematical real.
- The 9-character limit on a traffic contact's name and the 9- and 3-element lengths of attitude and acceleration are documented conventions. The records do not enforce them, and neither does the model.
- The uninitialised radius of a `RangeSpecification` under any tag but `FIXED_CIRCLE`: the sum type has no radius there.
- The default-constructed `OverrideValues` (empty lists) differs from the decoder's default instance (`[0]`, `[]`, `[BAD]`). The model keeps both and applies each where the code does.
- Session.CallProcedure: requires a call to a registered procedure to carry an argument, because the code reads `values[0]` unchecked.
- Session.Update: states only the bound on the log in its own contract. Session.UpdateIsTick states that the log is Session.Pump's and that the handler and calls are Session.Tick's.
- The display's own receiver is not part of this repository. Catalog.DecodeCall stands in for it, so that the wrappers' round trip can be stated. This server's receiver (main.cpp:154-163) is Session.CallProcedure: it answers an unknown name with no result and does not check the argument count.
- An error with data is one `Report` carrying the data, where the code prints two console lines.
