/** Value trees to and from nlohmann::json (core/include/value.hpp, core/src/value.cpp), and
    through CBOR on top of it. */
module ValueCodec {
  import opened Values
  import opened Packets
  import opened NdArrayCodec

  datatype Json =
    | JNull
    | JBool(b: bool)
    | JUnsigned(u: uint64)
    | JInteger(i: int64)
    | JFloat(d: real)
    | JString(s: string)
    | JBinary(bytes: seq<byte>, subtype: Option<nat>)
    | JArray(elems: seq<Json>)
    | JObject(fields: map<string, Json>)

  const ND_TAG := 1801

  function ToJson(v: Value): Json {
    match v
    case Null => JNull
    case Bool(b) => JBool(b)
    case UInt(u) => JUnsigned(u)
    case Int(i) => JInteger(i)
    case Float(f) => JFloat(f)
    case Double(d) => JFloat(d)
    case Str(s) => JString(s)
    case Bytes(bytes) => JBinary(bytes, None)
    case Array(elems) => JArray(seq(|elems|, i requires 0 <= i < |elems| => ToJson(elems[i])))
    case Map(fields) => JObject(map k | k in fields :: ToJson(fields[k]))
    case NdArray(shape, dtype, data) => JBinary(NdBytes(shape, dtype, data), Some(ND_TAG))
  }

  /** None where from_nlohmann_json throws, or where the ndarray reader runs off its input. */
  function FromJson(j: Json): Option<Value> {
    match j
    case JNull => Some(Null)
    case JBool(b) => Some(Bool(b))
    case JUnsigned(u) => Some(UInt(u))
    case JInteger(i) => Some(Int(i))
    case JFloat(d) => Some(Double(d))
    case JString(s) => Some(Str(s))
    case JBinary(bytes, subtype) =>
      if subtype.None? then Some(Bytes(bytes))
      else if subtype.value == ND_TAG && Readable(bytes) then Some(Parsed(bytes))
      else None
    case JArray(elems) =>
      if forall i | 0 <= i < |elems| :: FromJson(elems[i]).Some? then
        Some(Array(seq(|elems|, i requires 0 <= i < |elems| => FromJson(elems[i]).value)))
      else None
    case JObject(fields) =>
      if forall k | k in fields :: FromJson(fields[k]).Some? then
        Some(Map(map k | k in fields :: FromJson(fields[k]).value))
      else None
  }

  /** to_nlohmann_json, with the loops of array_t and map_t. */
  method ToNlohmannJson(v: Value) returns (j: Json)
    ensures j == ToJson(v)
    ensures v.NdArray? ==> j == JBinary(NdBytes(v.shape, v.dtype, v.data), Some(1801))
    decreases v, 0
  {
    match v {
      case Null => j := JNull;
      case Bool(b) => j := JBool(b);
      case UInt(u) => j := JUnsigned(u);
      case Int(i) => j := JInteger(i);
      case Float(f) => j := JFloat(f);
      case Double(d) => j := JFloat(d);
      case Str(s) => j := JString(s);
      case Bytes(bytes) => j := JBinary(bytes, None);
      case Array(elems) =>
        var rv := [];
        for i := 0 to |elems|
          invariant |rv| == i && forall k | 0 <= k < i :: rv[k] == ToJson(elems[k])
        {
          var e := ToNlohmannJson(elems[i]);
          rv := rv + [e];
        }
        j := JArray(rv);
        assert j.elems == ToJson(v).elems;
      case Map(fields) =>
        var rv: map<string, Json>, left := map[], fields.Keys;
        while left != {}
          invariant left <= fields.Keys && rv.Keys == fields.Keys - left
          invariant forall k | k in rv :: rv[k] == ToJson(fields[k])
        {
          var key :| key in left;
          var e := ToNlohmannJson(fields[key]);
          rv, left := rv[key := e], left - {key};
        }
        j := JObject(rv);
        assert j.fields == ToJson(v).fields;
      case NdArray(shape, dtype, data) =>
        var rv := WriteNdArray(shape, dtype, data);
        j := JBinary(rv[..], Some(ND_TAG));
    }
  }

  /** from_nlohmann_json, likewise. */
  method FromNlohmannJson(j: Json) returns (v: Option<Value>)
    ensures v == FromJson(j)
    decreases j, 0
  {
    match j {
      case JNull => v := Some(Null);
      case JBool(b) => v := Some(Bool(b));
      case JUnsigned(u) => v := Some(UInt(u));
      case JInteger(i) => v := Some(Int(i));
      case JFloat(d) => v := Some(Double(d));
      case JString(s) => v := Some(Str(s));
      case JBinary(bytes, subtype) =>
        if subtype.None? {
          v := Some(Bytes(bytes));
        } else if subtype.value == ND_TAG && Readable(bytes) {
          var a := ReadNdArray(bytes);
          v := Some(a);
        } else {
          v := None;
        }
      case JArray(elems) =>
        var rv: seq<Value> := [];
        for i := 0 to |elems|
          invariant |rv| == i && forall k | 0 <= k < i :: FromJson(elems[k]) == Some(rv[k])
        {
          var e := FromNlohmannJson(elems[i]);
          if e.None? {
            return None;
          }
          rv := rv + [e.value];
        }
        v := Some(Array(rv));
        assert rv == FromJson(j).value.elems;
      case JObject(fields) =>
        var rv: map<string, Value>, left := map[], fields.Keys;
        while left != {}
          invariant left <= fields.Keys && rv.Keys == fields.Keys - left
          invariant forall k | k in rv :: FromJson(fields[k]) == Some(rv[k])
        {
          var key :| key in left;
          var e := FromNlohmannJson(fields[key]);
          if e.None? {
            return None;
          }
          rv, left := rv[key := e.value], left - {key};
        }
        v := Some(Map(rv));
        assert rv == FromJson(j).value.fields;
    }
  }

  // -------------------------------------------------------------- round trip

  /** What a tree comes back as from JSON: single-precision floats are doubles. */
  function WithDoubles(v: Value): Value {
    match v
    case Float(f) => Double(f)
    case Array(elems) => Array(seq(|elems|, i requires 0 <= i < |elems| => WithDoubles(elems[i])))
    case Map(fields) => Map(map k | k in fields :: WithDoubles(fields[k]))
    case _ => v
  }

  /** All ndarrays in the tree fit their binary form. */
  ghost predicate Fits(v: Value) {
    match v
    case Array(elems) => forall i | 0 <= i < |elems| :: Fits(elems[i])
    case Map(fields) => forall k | k in fields :: Fits(fields[k])
    case NdArray(shape, _, data) => NdFits(shape, data)
    case _ => true
  }

  ghost predicate NoFloat(v: Value) {
    match v
    case Array(elems) => forall i | 0 <= i < |elems| :: NoFloat(elems[i])
    case Map(fields) => forall k | k in fields :: NoFloat(fields[k])
    case Float(_) => false
    case _ => true
  }

  /** A tree of any depth comes back, up to single-precision floats returning as doubles. */
  lemma {:induction false} TreeRoundTrip(v: Value)
    requires Fits(v)
    ensures FromJson(ToJson(v)) == Some(WithDoubles(v))
  {
    match v {
      case Array(elems) =>
        forall i | 0 <= i < |elems| ensures FromJson(ToJson(elems[i])) == Some(WithDoubles(elems[i])) {
          TreeRoundTrip(elems[i]);
        }
        assert FromJson(ToJson(v)).value.elems == WithDoubles(v).elems;
      case Map(fields) =>
        forall k | k in fields ensures FromJson(ToJson(fields[k])) == Some(WithDoubles(fields[k])) {
          TreeRoundTrip(fields[k]);
        }
        assert FromJson(ToJson(v)).value.fields == WithDoubles(v).fields;
      case NdArray(shape, dtype, data) => NdRoundTrip(shape, dtype, data);
      case _ =>
    }
  }

  /** It comes back unchanged exactly when its ndarrays fit and it holds no such float. */
  lemma {:induction false} TreeRoundTripIff(v: Value)
    ensures FromJson(ToJson(v)) == Some(v) <==> Fits(v) && NoFloat(v)
  {
    match v {
      case Array(elems) =>
        forall i | 0 <= i < |elems|
          ensures FromJson(ToJson(elems[i])) == Some(elems[i]) <==> Fits(elems[i]) && NoFloat(elems[i])
        {
          TreeRoundTripIff(elems[i]);
        }
        ArrayComesBack(elems);
      case Map(fields) =>
        forall k | k in fields
          ensures FromJson(ToJson(fields[k])) == Some(fields[k]) <==> Fits(fields[k]) && NoFloat(fields[k])
        {
          TreeRoundTripIff(fields[k]);
        }
        MapComesBack(fields);
      case NdArray(shape, dtype, data) => NdRoundTrip(shape, dtype, data);
      case _ =>
    }
  }

  lemma ArrayComesBack(elems: seq<Value>)
    ensures FromJson(ToJson(Array(elems))) == Some(Array(elems))
       <==> forall i | 0 <= i < |elems| :: FromJson(ToJson(elems[i])) == Some(elems[i])
  {
    var js := ToJson(Array(elems)).elems;
    if forall i | 0 <= i < |elems| :: FromJson(ToJson(elems[i])) == Some(elems[i]) {
      assert FromJson(JArray(js)).value.elems == elems;
    }
    if FromJson(JArray(js)) == Some(Array(elems)) {
      forall i | 0 <= i < |elems| ensures FromJson(ToJson(elems[i])) == Some(elems[i]) {
        assert FromJson(js[i]).Some? && FromJson(js[i]).value == elems[i];
      }
    }
  }

  lemma MapComesBack(fields: map<string, Value>)
    ensures FromJson(ToJson(Map(fields))) == Some(Map(fields))
       <==> forall k | k in fields :: FromJson(ToJson(fields[k])) == Some(fields[k])
  {
    var js := ToJson(Map(fields)).fields;
    if forall k | k in fields :: FromJson(ToJson(fields[k])) == Some(fields[k]) {
      assert FromJson(JObject(js)).value.fields == fields;
    }
    if FromJson(JObject(js)) == Some(Map(fields)) {
      forall k | k in fields ensures FromJson(ToJson(fields[k])) == Some(fields[k]) {
        assert FromJson(js[k]).Some? && FromJson(js[k]).value == fields[k];
      }
    }
  }

  // -------------------------------------------------------------------- CBOR

  /** RFC 8949, section 3.1: an integer that is not negative has one encoding, whether it was
      signed or not. */
  function Unsigned(j: Json): Json {
    match j
    case JInteger(i) => if i >= 0 then JUnsigned(i) else j
    case JArray(elems) => JArray(seq(|elems|, i requires 0 <= i < |elems| => Unsigned(elems[i])))
    case JObject(fields) => JObject(map k | k in fields :: Unsigned(fields[k]))
    case _ => j
  }

  /** The CBOR library. `double` tells the reals that are doubles. */
  datatype Cbor = Cbor(enc: Json -> seq<byte>, dec: seq<byte> -> Option<Json>, double: real -> bool)

  /** Trees that value trees are serialised to: floats are doubles, and a binary has the ndarray
      subtype or none. */
  ghost predicate Storable(c: Cbor, j: Json) {
    match j
    case JFloat(d) => c.double(d)
    case JBinary(_, subtype) => subtype.Some? ==> subtype.value == ND_TAG
    case JArray(elems) => forall i | 0 <= i < |elems| :: Storable(c, elems[i])
    case JObject(fields) => forall k | k in fields :: Storable(c, fields[k])
    case _ => true
  }

  /** Decoding inverts encoding, and nothing encodes to nothing. */
  ghost predicate Lawful(c: Cbor) {
    forall j | Storable(c, j) :: c.dec(c.enc(j)) == Some(Unsigned(j)) && c.enc(j) != []
  }

  function Encode(c: Cbor, v: Value): seq<byte> {
    c.enc(ToJson(v))
  }

  function Decode(c: Cbor, b: seq<byte>): Option<Value> {
    match c.dec(b)
    case None => None
    case Some(j) => FromJson(j)
  }

  ghost predicate Encodable(c: Cbor, v: Value) {
    Fits(v) && Storable(c, ToJson(v))
  }

  /** What a tree comes back as from CBOR. */
  function Canon(v: Value): Value {
    match v
    case Float(f) => Double(f)
    case Int(i) => if i >= 0 then UInt(i) else v
    case Array(elems) => Array(seq(|elems|, i requires 0 <= i < |elems| => Canon(elems[i])))
    case Map(fields) => Map(map k | k in fields :: Canon(fields[k]))
    case _ => v
  }

  lemma {:induction false} CanonThroughJson(v: Value)
    requires Fits(v)
    ensures FromJson(Unsigned(ToJson(v))) == Some(Canon(v))
  {
    match v {
      case Array(elems) =>
        forall i | 0 <= i < |elems| ensures FromJson(Unsigned(ToJson(elems[i]))) == Some(Canon(elems[i])) {
          CanonThroughJson(elems[i]);
        }
        assert FromJson(Unsigned(ToJson(v))).value.elems == Canon(v).elems;
      case Map(fields) =>
        forall k | k in fields ensures FromJson(Unsigned(ToJson(fields[k]))) == Some(Canon(fields[k])) {
          CanonThroughJson(fields[k]);
        }
        assert FromJson(Unsigned(ToJson(v))).value.fields == Canon(v).fields;
      case NdArray(shape, dtype, data) => NdRoundTrip(shape, dtype, data);
      case _ =>
    }
  }

  lemma CborRoundTrip(c: Cbor, v: Value)
    requires Lawful(c) && Encodable(c, v)
    ensures Decode(c, Encode(c, v)) == Some(Canon(v))
    ensures Encode(c, v) != []
  {
    CanonThroughJson(v);
  }

  /** Free of single-precision floats and of signed integers that are not negative. */
  ghost predicate Canonical(v: Value) {
    match v
    case Float(_) => false
    case Int(i) => i < 0
    case Array(elems) => forall i | 0 <= i < |elems| :: Canonical(elems[i])
    case Map(fields) => forall k | k in fields :: Canonical(fields[k])
    case _ => true
  }

  lemma {:induction false} CanonIsIdentityIff(v: Value)
    ensures Canon(v) == v <==> Canonical(v)
    ensures Canonical(Canon(v))
  {
    match v {
      case Array(elems) =>
        forall i | 0 <= i < |elems|
          ensures (Canon(elems[i]) == elems[i] <==> Canonical(elems[i])) && Canonical(Canon(elems[i]))
        {
          CanonIsIdentityIff(elems[i]);
        }
        assert Canon(v) == v ==> forall i | 0 <= i < |elems| :: Canon(v).elems[i] == elems[i];
      case Map(fields) =>
        forall k | k in fields
          ensures (Canon(fields[k]) == fields[k] <==> Canonical(fields[k])) && Canonical(Canon(fields[k]))
        {
          CanonIsIdentityIff(fields[k]);
        }
        assert Canon(v) == v ==> forall k | k in fields :: Canon(v).fields[k] == fields[k];
      case _ =>
    }
  }

  /** Through CBOR a tree comes back unchanged exactly when it is canonical. */
  lemma CborRoundTripIff(c: Cbor, v: Value)
    requires Lawful(c) && Encodable(c, v)
    ensures Decode(c, Encode(c, v)) == Some(v) <==> Canonical(v)
  {
    CborRoundTrip(c, v);
    CanonIsIdentityIff(v);
  }
}
