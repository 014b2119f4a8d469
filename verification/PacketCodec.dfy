/** The wire form of packets. */
module PacketCodec {
  import opened Values
  import opened Packets
  import opened ByteBuffers
  import opened ValueCodec

  // dump_packet and load_packet of core/src/packet.cpp.

  const CONNECT: byte := 0
  const DISCONNECT: byte := 1
  const SUBSCRIBE: byte := 2
  const UNSUBSCRIBE: byte := 3
  const EXECUTE: byte := 4
  const RESPOND: byte := 16
  const RESPOND_EXECUTE: byte := 17

  /** packet_t. `headers` and `body` may be null. */
  datatype Frame = Frame(
    ptype: byte,
    itype: Option<byte>,
    headers: Option<seq<Value>>,
    body: Option<map<string, Value>>)

  predicate HasInstruction(ptype: byte) {
    ptype == SUBSCRIBE || ptype == UNSUBSCRIBE || ptype == EXECUTE
  }

  // ----------------------------------------------------------------- dumping

  function Preamble(f: Frame): seq<byte> {
    [f.ptype] + if f.itype.Some? then [f.itype.value] else []
  }

  function HeaderBytes(c: Cbor, f: Frame): seq<byte> {
    if f.headers.Some? then Encode(c, Array(f.headers.value)) else []
  }

  function BodyBytes(c: Cbor, f: Frame): seq<byte> {
    if f.body.Some? then Encode(c, Map(f.body.value)) else []
  }

  function Zeros(n: nat): (r: seq<byte>)
    ensures |r| == n
  {
    seq(n, i => 0)
  }

  /** Length and bytes of a part that is there. */
  function Part(present: bool, b: seq<byte>, width: nat): seq<byte> {
    if present then LittleEndian(|b|, width) + b else []
  }

  /** The length fields are always allocated, but written only for a part that is there; what
      is missing is left over as zeros at the end. */
  function Dumped(c: Cbor, f: Frame): seq<byte> {
    Preamble(f) + Part(f.headers.Some?, HeaderBytes(c, f), 2) + Part(f.body.Some?, BodyBytes(c, f), 4)
    + Zeros((if f.headers.None? then 2 else 0) + if f.body.None? then 4 else 0)
  }

  /** `filled` is where the last write ended. */
  method DumpPacket(c: Cbor, f: Frame) returns (rv: array<byte>, filled: nat)
    ensures fresh(rv) && rv[..] == Dumped(c, f)
    ensures filled == rv.Length <==> f.headers.Some? && f.body.Some?
  {
    var headerBytes, bodyBytes := HeaderBytes(c, f), BodyBytes(c, f);
    var preamble := 1 + if f.itype.Some? then 1 else 0;
    rv := new byte[preamble + 2 + |headerBytes| + 4 + |bodyBytes|](i => 0);
    var it := Put(rv, 0, Preamble(f));
    it := PutPart(rv, it, f.headers.Some?, headerBytes, 2);
    it := PutPart(rv, it, f.body.Some?, bodyBytes, 4);
    filled := it;
    Filling(c, f, rv[..], it);
  }

  lemma Filling(c: Cbor, f: Frame, s: seq<byte>, at: nat)
    requires at <= |s| && (forall k | at <= k < |s| :: s[k] == 0)
    requires |s| == |Preamble(f)| + 2 + |HeaderBytes(c, f)| + 4 + |BodyBytes(c, f)|
    requires s[..at] == Preamble(f) + Part(f.headers.Some?, HeaderBytes(c, f), 2)
                        + Part(f.body.Some?, BodyBytes(c, f), 4)
    ensures s == Dumped(c, f) && (at == |s| <==> f.headers.Some? && f.body.Some?)
  {
    RestIsZero(s, at);
  }

  /** Where everything is in a packet with headers and body: its type, its instruction if it has
      one, two bytes for the length of the headers, the headers, four bytes for the length of the
      body, the body. */
  lemma DumpLayout(c: Cbor, f: Frame)
    requires f.headers.Some? && f.body.Some?
    ensures var b, h, d := Dumped(c, f), c.enc(ToJson(Array(f.headers.value))), c.enc(ToJson(Map(f.body.value)));
      var at := if f.itype.Some? then 2 else 1;
      && |b| == at + 2 + |h| + 4 + |d| && b[0] == f.ptype && (f.itype.Some? ==> b[1] == f.itype.value)
      && HoldsNumber(b, at, 2, |h|) && b[at + 2..at + 2 + |h|] == h
      && HoldsNumber(b, at + 2 + |h|, 4, |d|) && b[at + 6 + |h|..] == d
  {
    var h, d := HeaderBytes(c, f), BodyBytes(c, f);
    PartsLie(Preamble(f), h, d);
    assert Dumped(c, f) == Preamble(f) + Part(true, h, 2) + Part(true, d, 4);
  }

  lemma PartsLie(front: seq<byte>, h: seq<byte>, d: seq<byte>)
    ensures var b, at := front + Part(true, h, 2) + Part(true, d, 4), |front|;
      && |b| == at + 2 + |h| + 4 + |d| && b[..at] == front
      && HoldsNumber(b, at, 2, |h|) && b[at + 2..at + 2 + |h|] == h
      && HoldsNumber(b, at + 2 + |h|, 4, |d|) && b[at + 6 + |h|..] == d
  {
    var m, n := LittleEndian(|h|, 2), LittleEndian(|d|, 4);
    FiveParts(front, m, h, n, d);
    StoreIsLittleEndian(front, |h|, 2, h + n + d);
    StoreIsLittleEndian(front + m + h, |d|, 4, d);
    PieceAt(front + m, h, n + d);
  }

  lemma FiveParts<T>(a: seq<T>, m: seq<T>, h: seq<T>, n: seq<T>, d: seq<T>)
    ensures var s := a + (m + h) + (n + d);
      && s == a + m + (h + n + d) == (a + m + h) + n + d == (a + m) + h + (n + d)
      && s[..|a|] == a && s[|a| + |m| + |h| + |n|..] == d
  {
  }

  lemma RestIsZero(s: seq<byte>, at: nat)
    requires at <= |s| && forall k | at <= k < |s| :: s[k] == 0
    ensures s == s[..at] + Zeros(|s| - at)
  {
  }

  method PutPart(rv: array<byte>, at: nat, present: bool, b: seq<byte>, width: nat) returns (next: nat)
    requires at + width + |b| <= rv.Length
    modifies rv
    ensures next == at + |Part(present, b, width)|
    ensures rv[..next] == old(rv[..at]) + Part(present, b, width)
    ensures forall k | next <= k < rv.Length :: rv[k] == old(rv[k])
  {
    next := at;
    if present {
      next := Put(rv, next, LittleEndian(|b|, width));
      next := Put(rv, next, b);
      assert old(rv[..at]) + LittleEndian(|b|, width) + b == old(rv[..at]) + (LittleEndian(|b|, width) + b);
    }
  }

  // ----------------------------------------------------------------- loading

  function Take(b: seq<byte>, at: nat, n: nat): Option<seq<byte>> {
    if at + n <= |b| then Some(b[at..at + n]) else None
  }

  /** A length of `width` bytes and as many bytes behind it. */
  function PartAt(b: seq<byte>, at: nat, width: nat): Option<seq<byte>> {
    var len := Take(b, at, width);
    if len.None? then None else Take(b, at + width, Number(len.value))
  }

  function DecodeHeaders(c: Cbor, b: seq<byte>): Option<seq<Value>> {
    match Decode(c, b)
    case Some(Array(elems)) => Some(elems)
    case _ => None
  }

  function DecodeBody(c: Cbor, b: seq<byte>): Option<map<string, Value>> {
    match Decode(c, b)
    case Some(Map(fields)) => Some(fields)
    case _ => None
  }

  function PreambleSize(b: seq<byte>): nat {
    if |b| > 0 && HasInstruction(b[0]) then 2 else 1
  }

  /** None where decoding throws or where the packet ends too early. */
  function Loaded(c: Cbor, b: seq<byte>, skipBody: bool): Option<Frame> {
    var at := PreambleSize(b);
    if |b| < at then None
    else
      var itype := if at == 2 then Some(b[1]) else None;
      var headerBytes := PartAt(b, at, 2);
      if headerBytes.None? then None
      else
        var headers := DecodeHeaders(c, headerBytes.value);
        if headers.None? then None
        else if skipBody then Some(Frame(b[0], itype, headers, None))
        else
          var bodyBytes := PartAt(b, at + 2 + |headerBytes.value|, 4);
          if bodyBytes.None? then None
          else if bodyBytes.value == [] then Some(Frame(b[0], itype, headers, None))
          else
            var body := DecodeBody(c, bodyBytes.value);
            if body.None? then None else Some(Frame(b[0], itype, headers, body))
  }

  /** Header-only loading agrees with full loading on everything but the body. */
  lemma HeaderOnlyAgrees(c: Cbor, b: seq<byte>)
    requires Loaded(c, b, false).Some?
    ensures Loaded(c, b, true) == Some(Loaded(c, b, false).value.(body := None))
  {
  }

  // -------------------------------------------------------------- round trip

  ghost predicate Sendable(c: Cbor, f: Frame) {
    && (f.headers.Some? ==>
          Encodable(c, Array(f.headers.value)) && |HeaderBytes(c, f)| < 0x1_0000)
    && (f.body.Some? ==>
          Encodable(c, Map(f.body.value)) && |BodyBytes(c, f)| < 0x1_0000_0000)
  }

  function CanonFrame(f: Frame): Frame {
    f.(headers := if f.headers.Some? then Some(Canon(Array(f.headers.value)).elems) else None,
       body := if f.body.Some? then Some(Canon(Map(f.body.value)).fields) else None)
  }

  lemma PartComesBack(before: seq<byte>, b: seq<byte>, width: nat, after: seq<byte>)
    requires |b| < Range(width)
    ensures PartAt(before + Part(true, b, width) + after, |before|, width) == Some(b)
  {
    var len := LittleEndian(|b|, width);
    Stored(|b|, width);
    assert before + Part(true, b, width) + after == before + len + b + after;
    LengthAt(before, len, b, after);
    BytesAt(before, len, b, after);
  }

  lemma LengthAt(before: seq<byte>, len: seq<byte>, b: seq<byte>, after: seq<byte>)
    ensures Take(before + len + b + after, |before|, |len|) == Some(len)
  {
    assert before + len + b + after == before + len + (b + after);
    PieceAt(before, len, b + after);
  }

  lemma BytesAt(before: seq<byte>, len: seq<byte>, b: seq<byte>, after: seq<byte>)
    ensures Take(before + len + b + after, |before| + |len|, |b|) == Some(b)
  {
    PieceAt(before + len, b, after);
  }

  lemma NoPart(before: seq<byte>, width: nat)
    requires width == 4
    ensures PartAt(before + Zeros(4), |before|, 4) == Some([])
  {
    var all := before + Zeros(4);
    assert all[|before|..|before| + 4] == [0, 0, 0, 0];
    assert Number([0, 0, 0, 0]) == 0;
  }

  lemma HeadersComeBack(c: Cbor, f: Frame)
    requires Lawful(c) && Sendable(c, f) && f.headers.Some? && (f.itype.Some? <==> HasInstruction(f.ptype))
    ensures var b := Dumped(c, f); var at := |Preamble(f)|;
      && PreambleSize(b) == at <= |b| && b[..at] == Preamble(f)
      && PartAt(b, at, 2) == Some(HeaderBytes(c, f))
      && DecodeHeaders(c, HeaderBytes(c, f)) == CanonFrame(f).headers
  {
    var body := Part(f.body.Some?, BodyBytes(c, f), 4) + Zeros(if f.body.None? then 4 else 0);
    Ranges();
    PartComesBack(Preamble(f), HeaderBytes(c, f), 2, body);
    assert Dumped(c, f) == Preamble(f) + Part(true, HeaderBytes(c, f), 2) + body;
    CborRoundTrip(c, Array(f.headers.value));
  }

  lemma BodyComesBack(c: Cbor, f: Frame)
    requires Lawful(c) && Sendable(c, f) && f.headers.Some?
    ensures var b := Dumped(c, f); var at := |Preamble(f)| + 2 + |HeaderBytes(c, f)|;
      && PartAt(b, at, 4) == Some(BodyBytes(c, f))
      && (f.body.Some? <==> BodyBytes(c, f) != [])
      && (f.body.Some? ==> DecodeBody(c, BodyBytes(c, f)) == CanonFrame(f).body)
  {
    var before := Preamble(f) + Part(true, HeaderBytes(c, f), 2);
    if f.body.Some? {
      Ranges();
      PartComesBack(before, BodyBytes(c, f), 4, []);
      assert Dumped(c, f) == before + Part(true, BodyBytes(c, f), 4) + [];
      CborRoundTrip(c, Map(f.body.value));
    } else {
      NoPart(before, 4);
      assert Dumped(c, f) == before + Zeros(4);
    }
  }

  lemma LoadsBack(c: Cbor, f: Frame)
    requires Lawful(c) && Sendable(c, f) && f.headers.Some? && (f.itype.Some? <==> HasInstruction(f.ptype))
    ensures Loaded(c, Dumped(c, f), false) == Some(CanonFrame(f))
  {
    HeadersComeBack(c, f);
    BodyComesBack(c, f);
    var b := Dumped(c, f);
    assert b[0] == b[..|Preamble(f)|][0];
    assert |Preamble(f)| == 2 ==> b[1] == b[..2][1];
  }

  /** A packet within the size limits comes back, values canonical, exactly when its headers
      are not null and it has an instruction just where its type wants one. */
  lemma PacketRoundTrip(c: Cbor, f: Frame)
    requires Lawful(c) && Sendable(c, f)
    ensures Loaded(c, Dumped(c, f), false) == Some(CanonFrame(f))
       <==> f.headers.Some? && (f.itype.Some? <==> HasInstruction(f.ptype))
  {
    if f.headers.Some? && (f.itype.Some? <==> HasInstruction(f.ptype)) {
      LoadsBack(c, f);
    }
  }
}
