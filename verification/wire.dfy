/** The abstract wire form that every message codec produces and consumes.

A wire value is what the RPC layer carries between the two peers: numbers, text,
lists and objects (field name to value). How it is framed or compressed on the
socket is not part of this model. This module also holds the native integer
widths of the records and the generic codecs for lists and string-keyed maps.
 */
module Wire {

  /** Native integer widths used by the records. */
  type uint8 = x: int | 0 <= x < 0x100
  type int32 = x: int | -0x8000_0000 <= x < 0x8000_0000
  type uint32 = x: int | 0 <= x < 0x1_0000_0000

  datatype WireValue =
    | WInt(i: int)
    | WReal(r: real)
    | WString(s: string)
    | WList(items: seq<WireValue>)
    | WObject(fields: map<string, WireValue>)

  /** A wire object: the fields of one record, by name. */
  type WireObject = map<string, WireValue>

  datatype Option<+T> = None | Some(value: T)

  /** The outcome of decoding: a native value, or the path of field names
      leading to a field that was present but had the wrong kind. */
  datatype Result<+T> = Ok(value: T) | Malformed(path: seq<string>) {

    predicate IsFailure() {
      Malformed?
    }

    function PropagateFailure<U>(): Result<U>
      requires Malformed?
    {
      Malformed(path)
    }

    function Extract(): T
      requires Ok?
    {
      value
    }
  }

  /** Prefixes the path of a failure with the field it happened in. */
  function Within<T>(r: Result<T>, name: string): (r': Result<T>)
    ensures r'.Ok? <==> r.Ok?
    ensures r.Ok? ==> r' == r
    ensures r.Malformed? ==> r'.path == [name] + r.path
  {
    match r
    case Ok(_) => r
    case Malformed(p) => Malformed([name] + p)
  }

  // Scalar readers: each accepts exactly the wire kind (and range) of its native type.

  function AsReal(v: WireValue): (r: Result<real>)
    ensures r.Ok? <==> v.WReal?
    ensures r.Ok? ==> v == WReal(r.value)
  {
    if v.WReal? then Ok(v.r) else Malformed([])
  }

  function AsString(v: WireValue): (r: Result<string>)
    ensures r.Ok? <==> v.WString?
    ensures r.Ok? ==> v == WString(r.value)
  {
    if v.WString? then Ok(v.s) else Malformed([])
  }

  function AsInt32(v: WireValue): (r: Result<int32>)
    ensures r.Ok? <==> v.WInt? && -0x8000_0000 <= v.i < 0x8000_0000
    ensures r.Ok? ==> v == WInt(r.value)
  {
    if v.WInt? && -0x8000_0000 <= v.i < 0x8000_0000 then Ok(v.i) else Malformed([])
  }

  function AsUint32(v: WireValue): (r: Result<uint32>)
    ensures r.Ok? <==> v.WInt? && 0 <= v.i < 0x1_0000_0000
    ensures r.Ok? ==> v == WInt(r.value)
  {
    if v.WInt? && 0 <= v.i < 0x1_0000_0000 then Ok(v.i) else Malformed([])
  }

  function AsUint8(v: WireValue): (r: Result<uint8>)
    ensures r.Ok? <==> v.WInt? && 0 <= v.i < 0x100
    ensures r.Ok? ==> v == WInt(r.value)
  {
    if v.WInt? && 0 <= v.i < 0x100 then Ok(v.i) else Malformed([])
  }

  function RealToWire(x: real): WireValue { WReal(x) }

  function Int32ToWire(x: int32): WireValue { WInt(x) }

  /** "Fill if available": the field's value when the object carries it,
      otherwise the field's default. Absence is never a failure. */
  function Field<T>(w: WireObject, name: string, default: T, read: WireValue -> Result<T>): (r: Result<T>)
    ensures name !in w ==> r == Ok(default)
    ensures name in w ==> (r.Ok? <==> read(w[name]).Ok?)
    ensures name in w && r.Ok? ==> r == read(w[name])
  {
    if name in w then Within(read(w[name]), name) else Ok(default)
  }

  /** The decoder can read the field: it is absent, or present with the
      right kind. */
  predicate Readable<T>(w: WireObject, name: string, read: WireValue -> Result<T>) {
    name in w ==> read(w[name]).Ok?
  }

  /** A decoded field holds `value`: the wire's entry, read, when the object
      carries the field; the default when it does not. */
  ghost predicate FilledFrom<T>(w: WireObject, name: string, read: WireValue -> Result<T>, value: T, default: T) {
    if name in w then read(w[name]) == Ok(value) else value == default
  }

  /** A field filled from an object is filled from the same object with
      some fields removed: with its default if it was removed, with the same
      value otherwise. */
  lemma FilledFromWithout<T>(w: WireObject, ks: set<string>, name: string, read: WireValue -> Result<T>, value: T, default: T)
    requires FilledFrom(w, name, read, value, default)
    ensures Readable(w - ks, name, read)
    ensures FilledFrom(w - ks, name, read, if name in ks then default else value, default)
  {
  }

  /** Removing fields from the object resets those fields, and only those,
      to their defaults. */
  lemma FieldWithout<T>(w: WireObject, ks: set<string>, name: string, default: T, read: WireValue -> Result<T>)
    ensures Field(w - ks, name, default, read) == if name in ks then Ok(default) else Field(w, name, default, read)
  {
  }

  /** The object a decoder reconstructs in effect: every declared field
      (the keys of `defaults`) takes the wire's entry when present, its
      default otherwise; undeclared wire fields are ignored. */
  function Overlay(defaults: WireObject, w: WireObject): (r: WireObject)
    ensures r.Keys == defaults.Keys
    ensures forall k :: k in r ==> r[k] == (if k in w then w[k] else defaults[k])
  {
    map k | k in defaults :: if k in w then w[k] else defaults[k]
  }

  // Lists ---------------------------------------------------------------------

  function ListToWire<T>(xs: seq<T>, write: T -> WireValue): (v: WireValue)
    ensures v.WList? && |v.items| == |xs|
    ensures forall i :: 0 <= i < |xs| ==> v.items[i] == write(xs[i])
  {
    WList(seq(|xs|, i requires 0 <= i < |xs| => write(xs[i])))
  }

  /** Decodes every element in order; fails when any element fails. */
  function ItemsFromWire<T>(items: seq<WireValue>, read: WireValue -> Result<T>): (r: Result<seq<T>>)
    ensures r.Ok? <==> forall i :: 0 <= i < |items| ==> read(items[i]).Ok?
    ensures r.Ok? ==> |r.value| == |items|
    ensures r.Ok? ==> forall i :: 0 <= i < |items| ==> read(items[i]) == Ok(r.value[i])
    decreases |items|
  {
    if |items| == 0 then Ok([])
    else
      var head :- read(items[0]);
      var tail :- ItemsFromWire(items[1..], read);
      Ok([head] + tail)
  }

  function ListFromWire<T>(v: WireValue, read: WireValue -> Result<T>): (r: Result<seq<T>>)
    ensures r.Ok? ==> v.WList? && |r.value| == |v.items|
    ensures r.Ok? ==> forall i :: 0 <= i < |v.items| ==> read(v.items[i]) == Ok(r.value[i])
  {
    if v.WList? then ItemsFromWire(v.items, read) else Malformed([])
  }

  /** Lists round-trip whenever their elements do. */
  lemma ListRoundTrip<T>(xs: seq<T>, write: T -> WireValue, read: WireValue -> Result<T>)
    requires forall x :: read(write(x)) == Ok(x)
    ensures ListFromWire(ListToWire(xs, write), read) == Ok(xs)
  {
    var v := ListToWire(xs, write);
    var r := ItemsFromWire(v.items, read);
    assert forall i :: 0 <= i < |v.items| ==> read(v.items[i]) == Ok(xs[i]);
    assert r.Ok?;
    assert r.value == xs;
  }

  // String-keyed maps ---------------------------------------------------------

  function MapToWire<T>(m: map<string, T>, write: T -> WireValue): (v: WireValue)
    ensures v.WObject? && v.fields.Keys == m.Keys
    ensures forall k :: k in m ==> v.fields[k] == write(m[k])
  {
    WObject(map k | k in m :: write(m[k]))
  }

  function MapFromWire<T>(v: WireValue, read: WireValue -> Result<T>): (r: Result<map<string, T>>)
    ensures r.Ok? <==> v.WObject? && forall k :: k in v.fields ==> read(v.fields[k]).Ok?
    ensures r.Ok? ==> r.value.Keys == v.fields.Keys
    ensures r.Ok? ==> forall k :: k in v.fields ==> read(v.fields[k]) == Ok(r.value[k])
  {
    if v.WObject? && forall k | k in v.fields.Keys :: read(v.fields[k]).Ok? then
      Ok(map k | k in v.fields.Keys :: read(v.fields[k]).value)
    else
      Malformed([])
  }

  /** Maps round-trip whenever their values do. */
  lemma MapRoundTrip<T>(m: map<string, T>, write: T -> WireValue, read: WireValue -> Result<T>)
    requires forall x :: read(write(x)) == Ok(x)
    ensures MapFromWire(MapToWire(m, write), read) == Ok(m)
  {
    var r := MapFromWire(MapToWire(m, write), read);
    assert r.Ok?;
    assert r.value == m;
  }
}
