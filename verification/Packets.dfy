/** Packets and channels (core/include/packet.hpp, core/src/packet.cpp). */
module Packets {
  import opened Values

  type Tx = string
  type Channel = string
  type Node = nat

  datatype Option<T> = None | Some(value: T)

  /** The instruction type of a packet with the names its headers carry. */
  datatype Instr =
    | CallFunction(op: string)
    | DefineComponent(comptype: string)
    | DeleteComponent(comp: string)
    | CallMethod(comp: string, op: string)

  /** The body of a respond_execute packet: {"status": true, "out": v} or
      {"status": false, "reason": r}. */
  datatype Outcome = Out(v: Value) | Fail(reason: string)

  /** What the dump_packet templates can build. `name` is used by define_component only. */
  datatype Packet =
    | Connect(tx: Tx)
    | Disconnect(tx: Tx)
    | Subscribe(tx: Tx, instr: Instr)
    | Unsubscribe(tx: Tx, instr: Instr)
    | Execute(tx: Tx, instr: Instr, name: string, input: Value)
    | Respond(tx: Tx, ok: bool)
    | Reply(tx: Tx, index: nat, finish: bool, out: Outcome)

  /** respond_execute with status false always carries finish = true. */
  function FailReply(tx: Tx, index: nat, reason: string): Packet {
    Reply(tx, index, true, Fail(reason))
  }

  function ChannelOf(i: Instr): Channel {
    match i
    case CallFunction(op) => "0/" + op
    case DefineComponent(comptype) => "1/" + comptype
    case DeleteComponent(comp) => "2/" + comp
    case CallMethod(comp, op) => "3/" + comp + "/" + op
  }

  predicate NoSlash(name: string) {
    '/' !in name
  }

  lemma ChannelParts(i: Instr)
    ensures |ChannelOf(i)| >= 2
    ensures ChannelOf(i)[0] == match i
      case CallFunction(_) => '0'
      case DefineComponent(_) => '1'
      case DeleteComponent(_) => '2'
      case CallMethod(_, _) => '3'
    ensures ChannelOf(i)[2..] == match i
      case CallFunction(op) => op
      case DefineComponent(comptype) => comptype
      case DeleteComponent(comp) => comp
      case CallMethod(comp, op) => comp + "/" + op
  {
  }

  /** Two instructions that share a channel are calls of methods of two components. */
  lemma ShareOnlyMethods(i: Instr, j: Instr)
    requires i != j && ChannelOf(i) == ChannelOf(j)
    ensures i.CallMethod? && j.CallMethod? && i.comp != j.comp
    ensures i.comp + "/" + i.op == j.comp + "/" + j.op
  {
    ChannelParts(i);
    ChannelParts(j);
    if i.CallMethod? && j.CallMethod? && i.comp == j.comp {
      OneComponent(i.comp, i.op, j.op);
    }
  }

  /** The methods of one component have channels of their own. */
  lemma OneComponent(comp: string, x: string, y: string)
    requires ChannelOf(CallMethod(comp, x)) == ChannelOf(CallMethod(comp, y))
    ensures x == y
  {
    var ch := ChannelOf(CallMethod(comp, x));
    assert ch[|comp| + 3..] == x;
    assert ch[|comp| + 3..] == y;
  }

  /** The longer of the two component names has a slash, and so has the other's method name. */
  lemma SlashesOf(a: string, x: string, b: string, y: string)
    requires a + "/" + x == b + "/" + y && a != b && |a| <= |b|
    ensures !NoSlash(b) && !NoSlash(x)
  {
    var s := a + "/" + x;
    assert a == s[..|a|] == b[..|a|];
    assert b[..|b|] == b;
    assert s[|a|] == '/' && s[|a|] == b[|a|];
    assert s[|b|] == '/' && s[|b|] == x[|b| - |a| - 1];
  }

  /** get_channel tells instructions apart when no component name, or no method name, has a
      slash. */
  lemma ChannelInjective(i: Instr, j: Instr)
    requires ChannelOf(i) == ChannelOf(j)
    requires i.CallMethod? && j.CallMethod? ==>
      (NoSlash(i.comp) && NoSlash(j.comp)) || (NoSlash(i.op) && NoSlash(j.op))
    ensures i == j
  {
    if i != j {
      ShareOnlyMethods(i, j);
      if |i.comp| <= |j.comp| {
        SlashesOf(i.comp, i.op, j.comp, j.op);
      } else {
        SlashesOf(j.comp, j.op, i.comp, i.op);
      }
    }
  }

  lemma AtSlash(s: string) returns (k: nat)
    requires !NoSlash(s)
    ensures k < |s| && s == s[..k] + "/" + s[k + 1..]
  {
    k :| 0 <= k < |s| && s[k] == '/';
  }

  /** Whether another instruction has the channel of i. */
  ghost predicate Shared(i: Instr) {
    exists j :: j != i && ChannelOf(j) == ChannelOf(i)
  }

  /** A channel is shared exactly when it is a method's and the component name or the method
      name has a slash. */
  lemma SharedIff(i: Instr)
    ensures Shared(i) <==> i.CallMethod? && (!NoSlash(i.comp) || !NoSlash(i.op))
  {
    if Shared(i) {
      var j :| j != i && ChannelOf(j) == ChannelOf(i);
      ShareOnlyMethods(i, j);
      if |i.comp| <= |j.comp| {
        SlashesOf(i.comp, i.op, j.comp, j.op);
      } else {
        SlashesOf(j.comp, j.op, i.comp, i.op);
      }
    }
    if i.CallMethod? && !NoSlash(i.comp) {
      var k := AtSlash(i.comp);
      SameChannel(i.comp[..k], i.comp[k + 1..], i.op, i);
    } else if i.CallMethod? && !NoSlash(i.op) {
      var k := AtSlash(i.op);
      SameChannel(i.comp, i.op[..k], i.op[k + 1..], i);
    }
  }

  /** The three parts of a channel with two slashes may be read in two ways. */
  lemma SameChannel(a: string, b: string, c: string, i: Instr)
    requires i == CallMethod(a + "/" + b, c) || i == CallMethod(a, b + "/" + c)
    ensures Shared(i)
  {
    var j, k := CallMethod(a + "/" + b, c), CallMethod(a, b + "/" + c);
    assert ChannelOf(j) == "3/" + a + "/" + b + "/" + c == ChannelOf(k);
    assert j.comp != k.comp;
  }
}
