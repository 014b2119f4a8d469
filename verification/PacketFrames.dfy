/** Protocol packets on the wire, and back. */
module PacketFrames {
  import opened Values
  import opened Packets
  import opened ValueCodec
  import opened PacketCodec

  // What the dump_packet templates of core/include/packet.hpp put into headers and body, and
  // what the broker, the VM and the runtimes read out of them.

  const VERSION := "1"

  function InstrCode(i: Instr): byte {
    match i
    case CallFunction(_) => 0
    case DefineComponent(_) => 1
    case DeleteComponent(_) => 2
    case CallMethod(_, _) => 3
  }

  function InstrHeaders(tx: Tx, i: Instr): seq<Value> {
    match i
    case CallFunction(op) => [Str(tx), Str(op)]
    case DefineComponent(comptype) => [Str(tx), Str(comptype)]
    case DeleteComponent(comp) => [Str(tx), Str(comp)]
    case CallMethod(comp, op) => [Str(tx), Str(comp), Str(op)]
  }

  /** Announcing a method carries the null input of a call without argument. */
  function AnnouncedBody(i: Instr): map<string, Value> {
    if i.CallMethod? then map["in" := Null] else map[]
  }

  function ExecuteBody(i: Instr, name: string, input: Value): map<string, Value> {
    match i
    case CallFunction(_) => map["in" := input]
    case DefineComponent(_) => map["name" := Str(name), "in" := input]
    case DeleteComponent(_) => map[]
    case CallMethod(_, _) => map["in" := input]
  }

  function Refused(reason: string): map<string, Value> {
    map["status" := Bool(false), "reason" := Str(reason)]
  }

  predicate Countable(p: Packet) {
    p.Reply? ==> p.index < 0x1_0000_0000_0000_0000
  }

  /** `reason` is what the broker says when it refuses an announcement. */
  function FrameOf(p: Packet, reason: string): Frame
    requires Countable(p)
  {
    match p
    case Connect(tx) => Frame(CONNECT, None, Some([Str(tx), Str(VERSION)]), Some(map[]))
    case Disconnect(tx) => Frame(DISCONNECT, None, Some([Str(tx)]), Some(map[]))
    case Subscribe(tx, i) => Frame(SUBSCRIBE, Some(InstrCode(i)), Some(InstrHeaders(tx, i)), Some(AnnouncedBody(i)))
    case Unsubscribe(tx, i) => Frame(UNSUBSCRIBE, Some(InstrCode(i)), Some(InstrHeaders(tx, i)), Some(AnnouncedBody(i)))
    case Execute(tx, i, name, input) =>
      Frame(EXECUTE, Some(InstrCode(i)), Some(InstrHeaders(tx, i)), Some(ExecuteBody(i, name, input)))
    case Respond(tx, ok) =>
      Frame(RESPOND, None, Some([Str(tx)]), Some(if ok then map["status" := Bool(true)] else Refused(reason)))
    case Reply(tx, index, finish, out) =>
      match out
      case Out(v) =>
        Frame(RESPOND_EXECUTE, None, Some([Str(tx), UInt(index), Bool(finish)]),
              Some(map["status" := Bool(true), "out" := v]))
      case Fail(why) =>
        Frame(RESPOND_EXECUTE, None, Some([Str(tx), UInt(index), Bool(true)]), Some(Refused(why)))
  }

  // ---------------------------------------------------------------- reading

  function TextAt(headers: seq<Value>, k: nat): Option<string> {
    if k < |headers| && headers[k].Str? then Some(headers[k].s) else None
  }

  function FieldAt(body: Option<map<string, Value>>, key: string): Option<Value> {
    if body.Some? && key in body.value then Some(body.value[key]) else None
  }

  function TextField(body: Option<map<string, Value>>, key: string): Option<string> {
    match FieldAt(body, key)
    case Some(Str(s)) => Some(s)
    case _ => None
  }

  function InstrOf(itype: Option<byte>, headers: seq<Value>): Option<Instr> {
    var a, b := TextAt(headers, 1), TextAt(headers, 2);
    if itype.None? || a.None? then None
    else if itype.value == 0 && |headers| == 2 then Some(CallFunction(a.value))
    else if itype.value == 1 && |headers| == 2 then Some(DefineComponent(a.value))
    else if itype.value == 2 && |headers| == 2 then Some(DeleteComponent(a.value))
    else if itype.value == 3 && |headers| == 3 && b.Some? then Some(CallMethod(a.value, b.value))
    else None
  }

  function OutcomeOf(body: Option<map<string, Value>>): Option<Outcome> {
    var out, reason := FieldAt(body, "out"), TextField(body, "reason");
    match FieldAt(body, "status")
    case Some(Bool(status)) =>
      if status && out.Some? then Some(Out(out.value))
      else if !status && reason.Some? then Some(Fail(reason.value))
      else None
    case _ => None
  }

  function ExecuteOf(tx: Tx, i: Instr, body: Option<map<string, Value>>): Option<Packet> {
    var input, name := FieldAt(body, "in"), TextField(body, "name");
    if i.DeleteComponent? then Some(Execute(tx, i, "", Null))
    else if input.None? then None
    else if !i.DefineComponent? then Some(Execute(tx, i, "", input.value))
    else if name.Some? then Some(Execute(tx, i, name.value, input.value))
    else None
  }

  function PacketOf(f: Frame): Option<Packet> {
    if f.headers.None? || TextAt(f.headers.value, 0).None? then None
    else
      var headers, tx := f.headers.value, TextAt(f.headers.value, 0).value;
      var instr := InstrOf(f.itype, headers);
      if f.ptype == CONNECT then Some(Connect(tx))
      else if f.ptype == DISCONNECT then Some(Disconnect(tx))
      else if HasInstruction(f.ptype) then
        if instr.None? then None
        else if f.ptype == SUBSCRIBE then Some(Subscribe(tx, instr.value))
        else if f.ptype == UNSUBSCRIBE then Some(Unsubscribe(tx, instr.value))
        else ExecuteOf(tx, instr.value, f.body)
      else if f.ptype == RESPOND then
        match FieldAt(f.body, "status")
        case Some(Bool(ok)) => Some(Respond(tx, ok))
        case _ => None
      else if f.ptype == RESPOND_EXECUTE && |headers| == 3 && headers[1].UInt? && headers[2].Bool? then
        match OutcomeOf(f.body)
        case Some(out) => Some(Reply(tx, headers[1].u, headers[2].b, out))
        case None => None
      else None
  }

  // -------------------------------------------------------------- round trip

  /** What a packet is after the wire: a name travels with a define only, a delete has no
      input, an error always finishes, and values are canonical. */
  function OnWire(p: Packet): Packet {
    match p
    case Execute(tx, i, name, input) =>
      Execute(tx, i, if i.DefineComponent? then name else "", if i.DeleteComponent? then Null else Canon(input))
    case Reply(tx, index, finish, out) =>
      (match out
       case Out(v) => Reply(tx, index, finish, Out(Canon(v)))
       case Fail(why) => Reply(tx, index, true, out))
    case _ => p
  }

  lemma CanonHeaders(f: Frame)
    requires f.headers.Some?
    requires forall k | 0 <= k < |f.headers.value| :: var v := f.headers.value[k]; v.Str? || v.UInt? || v.Bool?
    ensures CanonFrame(f).headers == f.headers
  {
    assert Canon(Array(f.headers.value)).elems == f.headers.value;
  }

  function CanonBody(body: map<string, Value>): (r: Option<map<string, Value>>)
    ensures r.Some? && r.value.Keys == body.Keys && forall k | k in body :: r.value[k] == Canon(body[k])
  {
    Some(Canon(Map(body)).fields)
  }

  lemma ExecuteSurvives(tx: Tx, i: Instr, name: string, input: Value)
    ensures ExecuteOf(tx, i, CanonBody(ExecuteBody(i, name, input))) == Some(OnWire(Execute(tx, i, name, input)))
  {
    assert Canon(Str(name)) == Str(name);
  }

  lemma OutcomeSurvives(v: Value)
    ensures OutcomeOf(CanonBody(map["status" := Bool(true), "out" := v])) == Some(Out(Canon(v)))
  {
    var body := CanonBody(map["status" := Bool(true), "out" := v]);
    assert Canon(Bool(true)) == Bool(true);
    assert FieldAt(body, "status") == Some(Bool(true)) && FieldAt(body, "out") == Some(Canon(v));
  }

  lemma ErrorSurvives(why: string)
    ensures OutcomeOf(CanonBody(Refused(why))) == Some(Fail(why))
  {
    var body := CanonBody(Refused(why));
    assert "reason"[0] != "status"[0];
    assert Canon(Bool(false)) == Bool(false) && Canon(Str(why)) == Str(why);
    assert FieldAt(body, "status") == Some(Bool(false)) && FieldAt(body, "reason") == Some(Str(why));
  }

  lemma StatusSurvives(reason: string)
    ensures FieldAt(CanonBody(map["status" := Bool(true)]), "status") == Some(Bool(true))
    ensures FieldAt(CanonBody(Refused(reason)), "status") == Some(Bool(false))
  {
    assert Canon(Bool(true)) == Bool(true) && Canon(Bool(false)) == Bool(false);
  }

  lemma FieldsSurvive(p: Packet, reason: string)
    requires Countable(p)
    ensures var f := FrameOf(p, reason);
      && CanonFrame(f).headers == f.headers
      && PacketOf(CanonFrame(f)) == Some(OnWire(p))
  {
    CanonHeaders(FrameOf(p, reason));
    if p.Respond? || p.Reply? {
      AnswerSurvives(p, reason);
    } else {
      RequestSurvives(p, reason);
    }
  }

  lemma RequestSurvives(p: Packet, reason: string)
    requires !p.Respond? && !p.Reply? && CanonFrame(FrameOf(p, reason)).headers == FrameOf(p, reason).headers
    ensures PacketOf(CanonFrame(FrameOf(p, reason))) == Some(OnWire(p))
  {
    if p.Execute? {
      ExecuteSurvives(p.tx, p.instr, p.name, p.input);
    }
  }

  lemma AnswerSurvives(p: Packet, reason: string)
    requires Countable(p) && (p.Respond? || p.Reply?)
    requires CanonFrame(FrameOf(p, reason)).headers == FrameOf(p, reason).headers
    ensures PacketOf(CanonFrame(FrameOf(p, reason))) == Some(OnWire(p))
  {
    if p.Respond? {
      StatusSurvives(reason);
    } else {
      ReplySurvives(p, reason);
    }
  }

  lemma ReplySurvives(p: Packet, reason: string)
    requires Countable(p) && p.Reply? && CanonFrame(FrameOf(p, reason)).headers == FrameOf(p, reason).headers
    ensures PacketOf(CanonFrame(FrameOf(p, reason))) == Some(OnWire(p))
  {
    match p.out {
      case Out(v) => OutcomeSurvives(v);
      case Fail(why) => ErrorSurvives(why);
    }
  }

  lemma ShapeOfFrame(p: Packet, reason: string)
    requires Countable(p)
    ensures var f := FrameOf(p, reason);
      f.headers.Some? && f.body.Some? && (f.itype.Some? <==> HasInstruction(f.ptype))
  {
  }

  /** The first byte on the wire tells the type of the packet, and the second one the type of the
      instruction where there is one. */
  lemma FirstBytes(c: Cbor, p: Packet, reason: string)
    requires Countable(p)
    ensures var b := Dumped(c, FrameOf(p, reason));
      && |b| >= 2
      && b[0] == (match p case Connect(_) => 0 case Disconnect(_) => 1 case Subscribe(_, _) => 2
                  case Unsubscribe(_, _) => 3 case Execute(_, _, _, _) => 4 case Respond(_, _) => 16
                  case Reply(_, _, _, _) => 17)
      && (p.Subscribe? || p.Unsubscribe? || p.Execute? ==>
            b[1] == match p.instr case CallFunction(_) => 0 case DefineComponent(_) => 1
                    case DeleteComponent(_) => 2 case CallMethod(_, _) => 3)
  {
    ShapeOfFrame(p, reason);
    DumpLayout(c, FrameOf(p, reason));
  }

  predicate Carries(body: map<string, Value>, key: string, v: Value) {
    key in body && body[key] == v
  }

  /** The names under which the bodies carry what they carry. */
  lemma BodyTells(p: Packet, reason: string)
    requires Countable(p)
    ensures FrameOf(p, reason).body.Some?
    ensures var body := FrameOf(p, reason).body.value;
      match p
      case Respond(_, ok) => Carries(body, "status", Bool(ok)) && (!ok ==> Carries(body, "reason", Str(reason)))
      case Reply(_, _, _, Out(v)) => Carries(body, "status", Bool(true)) && Carries(body, "out", v)
      case Reply(_, _, _, Fail(why)) => Carries(body, "status", Bool(false)) && Carries(body, "reason", Str(why))
      case Execute(_, DefineComponent(_), name, input) => Carries(body, "name", Str(name)) && Carries(body, "in", input)
      case Execute(_, CallFunction(_), _, input) => Carries(body, "in", input)
      case Execute(_, CallMethod(_, _), _, input) => Carries(body, "in", input)
      case _ => forall key | key in body :: Carries(body, "in", Null)
  {
    assert "reason"[0] != "status"[0] && "out"[0] != "status"[0] && "in"[0] != "name"[0];
  }

  /** A protocol packet that is framed, dumped, loaded and read is the packet sent. */
  lemma WireRoundTrip(c: Cbor, p: Packet, reason: string)
    requires Lawful(c) && Countable(p) && Sendable(c, FrameOf(p, reason))
    ensures var f := Loaded(c, Dumped(c, FrameOf(p, reason)), false);
      f.Some? && PacketOf(f.value) == Some(OnWire(p))
  {
    ShapeOfFrame(p, reason);
    LoadsBack(c, FrameOf(p, reason));
    FieldsSurvive(p, reason);
  }

  /** What the broker routes by, and what numbers and closes the replies, can be read from the
      headers alone. */
  lemma HeadersTell(c: Cbor, p: Packet, reason: string)
    requires Lawful(c) && Countable(p) && Sendable(c, FrameOf(p, reason))
    ensures var f := Loaded(c, Dumped(c, FrameOf(p, reason)), true);
      && f.Some? && f.value.headers.Some? && TextAt(f.value.headers.value, 0) == Some(p.tx)
      && (p.Subscribe? || p.Unsubscribe? || p.Execute? ==>
            InstrOf(f.value.itype, f.value.headers.value) == Some(p.instr))
      && (p.Reply? ==> var h := f.value.headers.value;
            |h| == 3 && h[1] == UInt(p.index) && h[2] == Bool(OnWire(p).finish))
  {
    ShapeOfFrame(p, reason);
    LoadsBack(c, FrameOf(p, reason));
    HeaderOnlyAgrees(c, Dumped(c, FrameOf(p, reason)));
    CanonHeaders(FrameOf(p, reason));
    HeadersHold(p, reason);
  }

  lemma HeadersHold(p: Packet, reason: string)
    requires Countable(p)
    ensures var f := FrameOf(p, reason);
      && f.headers.Some? && TextAt(f.headers.value, 0) == Some(p.tx)
      && (p.Subscribe? || p.Unsubscribe? || p.Execute? ==> InstrOf(f.itype, f.headers.value) == Some(p.instr))
      && (p.Reply? ==> var h := f.headers.value; |h| == 3 && h[1] == UInt(p.index) && h[2] == Bool(OnWire(p).finish))
  {
  }
}
