/** Replaying a queue of subscribe and unsubscribe packets on a set of channels. */
module ChannelReplay {
  import opened Packets
  import opened VmModel
  import opened SystemModel

  /** The broker's table after a packet of the VM, the table being the VM's alone. */
  ghost function ChannelsAfter(t: set<Channel>, p: Packet): set<Channel> {
    match p
    case Subscribe(_, instr) => t + {ChannelOf(instr)}
    case Unsubscribe(_, instr) => t - {ChannelOf(instr)}
    case Disconnect(_) => {}
    case _ => t
  }

  ghost function Replay(t: set<Channel>, q: seq<Packet>): set<Channel>
    decreases |q|
  {
    if q == [] then t else Replay(ChannelsAfter(t, q[0]), q[1..])
  }

  /** The broker answers p with status true. */
  ghost predicate Accepted(t: set<Channel>, p: Packet) {
    && (p.Subscribe? ==> ChannelOf(p.instr) !in t)
    && (p.Unsubscribe? ==> ChannelOf(p.instr) in t)
  }

  ghost predicate AllAccepted(t: set<Channel>, q: seq<Packet>)
    decreases |q|
  {
    q == [] || (Accepted(t, q[0]) && AllAccepted(ChannelsAfter(t, q[0]), q[1..]))
  }

  lemma {:induction false} ReplayAppend(t: set<Channel>, a: seq<Packet>, b: seq<Packet>)
    ensures Replay(t, a + b) == Replay(Replay(t, a), b)
    ensures AllAccepted(t, a + b) <==> AllAccepted(t, a) && AllAccepted(Replay(t, a), b)
    decreases |a|
  {
    if a == [] {
      assert a + b == b;
    } else {
      assert (a + b)[1..] == a[1..] + b;
      ReplayAppend(ChannelsAfter(t, a[0]), a[1..], b);
    }
  }

  ghost function ChannelSet(instrs: seq<Instr>): set<Channel> {
    set i | i in instrs :: ChannelOf(i)
  }

  ghost predicate DistinctChannels(instrs: seq<Instr>) {
    forall i, j | 0 <= i < j < |instrs| :: ChannelOf(instrs[i]) != ChannelOf(instrs[j])
  }

  lemma FirstChannel(instrs: seq<Instr>)
    requires instrs != []
    ensures ChannelSet(instrs) == {ChannelOf(instrs[0])} + ChannelSet(instrs[1..])
    ensures DistinctChannels(instrs) <==>
      ChannelOf(instrs[0]) !in ChannelSet(instrs[1..]) && DistinctChannels(instrs[1..])
  {
    assert instrs == [instrs[0]] + instrs[1..];
    assert forall k | 0 < k < |instrs| :: instrs[k] == instrs[1..][k - 1] && instrs[k] in instrs[1..];
  }

  lemma {:induction false} ReplaySubscriptions(t: set<Channel>, ids: seq<Tx>, instrs: seq<Instr>)
    requires |ids| == |instrs|
    ensures Replay(t, Subscriptions(ids, instrs)) == t + ChannelSet(instrs)
    ensures AllAccepted(t, Subscriptions(ids, instrs)) <==> DistinctChannels(instrs) && ChannelSet(instrs) !! t
    decreases |ids|
  {
    if ids != [] {
      FirstChannel(instrs);
      assert Subscriptions(ids, instrs)[1..] == Subscriptions(ids[1..], instrs[1..]);
      ReplaySubscriptions(t + {ChannelOf(instrs[0])}, ids[1..], instrs[1..]);
    }
  }

  lemma {:induction false} ReplayUnsubscriptions(t: set<Channel>, ids: seq<Tx>, instrs: seq<Instr>)
    requires |ids| == |instrs|
    ensures Replay(t, Unsubscriptions(ids, instrs)) == t - ChannelSet(instrs)
    ensures DistinctChannels(instrs) && ChannelSet(instrs) <= t ==> AllAccepted(t, Unsubscriptions(ids, instrs))
    decreases |ids|
  {
    if ids != [] {
      FirstChannel(instrs);
      assert Unsubscriptions(ids, instrs)[1..] == Unsubscriptions(ids[1..], instrs[1..]);
      ReplayUnsubscriptions(t - {ChannelOf(instrs[0])}, ids[1..], instrs[1..]);
    }
  }

  lemma {:induction false} ReplayReply(t: set<Channel>, q: seq<Packet>, r: Packet)
    requires r.Reply?
    ensures Replay(t, q + [r]) == Replay(t, q)
    ensures AllAccepted(t, q + [r]) <==> AllAccepted(t, q)
  {
    ReplayAppend(t, q, [r]);
    assert [r][1..] == [];
  }

  // ----------------------------------------------------- the VM's own channels

  /** The channels of one component: its delete channel and its methods. */
  ghost function ChannelsOf(comp: string, ops: seq<string>): set<Channel> {
    ChannelSet(ComponentInstrs(comp, ops))
  }

  /** Everything the VM serves: operators, factories, components with their methods. */
  ghost function VmChannels(v: VmState): set<Channel> {
    ChannelSet(ModuleInstrs(v.operators, v.factories)) + ComponentChannels(v.components)
  }

  ghost function ComponentChannels(components: map<string, seq<string>>): set<Channel> {
    set c, ch | c in components && ch in ChannelsOf(c, components[c]) :: ch
  }

  lemma OwnInstrs(name: string, ops: seq<string>)
    ensures forall i :: i in ComponentInstrs(name, ops) <==>
      i == DeleteComponent(name) || (i.CallMethod? && i.comp == name && i.op in ops)
  {
    var methods := Methods(name, ops);
    forall op | op in ops ensures CallMethod(name, op) in methods {
      var k :| 0 <= k < |ops| && ops[k] == op;
      assert methods[k] == CallMethod(name, op);
    }
  }

  lemma ModuleInstrsAre(operators: seq<string>, factories: seq<string>)
    ensures forall i :: i in ModuleInstrs(operators, factories) <==>
      (i.CallFunction? && i.op in operators) || (i.DefineComponent? && i.comptype in factories)
  {
    var ops, defs := Functions(operators), Definitions(factories);
    forall op | op in operators ensures CallFunction(op) in ops {
      var k :| 0 <= k < |operators| && operators[k] == op;
      assert ops[k] == CallFunction(op);
    }
    forall c | c in factories ensures DefineComponent(c) in defs {
      var k :| 0 <= k < |factories| && factories[k] == c;
      assert defs[k] == DefineComponent(c);
    }
  }

  /** The channels of operators, factories, components and their methods, and no others. */
  ghost predicate Serves(v: VmState, ch: Channel) {
    || (exists op | op in v.operators :: ch == "0/" + op)
    || (exists c | c in v.factories :: ch == "1/" + c)
    || (exists c | c in v.components :: ch == "2/" + c)
    || (exists c, op | c in v.components && op in v.components[c] :: ch == "3/" + c + "/" + op)
  }

  lemma ServesIff(v: VmState, ch: Channel)
    ensures ch in VmChannels(v) <==> Serves(v, ch)
  {
    ModuleInstrsAre(v.operators, v.factories);
    if ch in ChannelSet(ModuleInstrs(v.operators, v.factories)) {
      var i :| i in ModuleInstrs(v.operators, v.factories) && ch == ChannelOf(i);
      assert if i.CallFunction? then ch == "0/" + i.op else ch == "1/" + i.comptype;
    }
    if ch in ComponentChannels(v.components) {
      var c :| c in v.components && ch in ChannelsOf(c, v.components[c]);
      var i :| i in ComponentInstrs(c, v.components[c]) && ch == ChannelOf(i);
      OwnInstrs(c, v.components[c]);
      assert if i.DeleteComponent? then ch == "2/" + c else ch == "3/" + c + "/" + i.op;
    }
    if Serves(v, ch) {
      var i := ServingInstr(v, ch);
    }
  }

  lemma ServingInstr(v: VmState, ch: Channel) returns (i: Instr)
    requires Serves(v, ch)
    ensures ch == ChannelOf(i) && ch in VmChannels(v)
  {
    ModuleInstrsAre(v.operators, v.factories);
    if op :| op in v.operators && ch == "0/" + op {
      i := CallFunction(op);
      assert ChannelOf(i) in ChannelSet(ModuleInstrs(v.operators, v.factories));
    } else if c :| c in v.factories && ch == "1/" + c {
      i := DefineComponent(c);
      assert ChannelOf(i) in ChannelSet(ModuleInstrs(v.operators, v.factories));
    } else if c :| c in v.components && ch == "2/" + c {
      i := DeleteComponent(c);
      OwnInstrs(c, v.components[c]);
      assert ChannelOf(i) in ChannelsOf(c, v.components[c]);
    } else {
      var c, op :| c in v.components && op in v.components[c] && ch == "3/" + c + "/" + op;
      i := CallMethod(c, op);
      OwnInstrs(c, v.components[c]);
      assert ChannelOf(i) in ChannelsOf(c, v.components[c]);
    }
  }

  /** Names are keys of maps, and no two components share a channel. */
  ghost predicate NamesOk(v: VmState) {
    && NoDup(v.operators) && NoDup(v.factories)
    && (forall c | c in v.components :: NoDup(v.components[c]))
    && Apart(v.components, v.components.Keys)
  }

  ghost predicate Apart(components: map<string, seq<string>>, names: set<string>)
    requires names <= components.Keys
  {
    forall c, d | c in names && d in names && c != d :: ChannelsOf(c, components[c]) !! ChannelsOf(d, components[d])
  }

  lemma ComponentChannel(comp: string, ops: seq<string>, ch: Channel)
    requires ch in ChannelsOf(comp, ops)
    ensures |ch| >= 2 && (ch[0] == '2' || ch[0] == '3')
  {
    var i :| i in ComponentInstrs(comp, ops) && ch == ChannelOf(i);
    ChannelParts(i);
  }

  lemma ModuleChannel(operators: seq<string>, factories: seq<string>, ch: Channel)
    requires ch in ChannelSet(ModuleInstrs(operators, factories))
    ensures |ch| >= 2 && (ch[0] == '0' || ch[0] == '1')
  {
    var i :| i in ModuleInstrs(operators, factories) && ch == ChannelOf(i);
    ChannelParts(i);
  }

  /** Instructions that concern at most one component have channels of their own. */
  lemma DistinctIfOneComponent(instrs: seq<Instr>, comp: string)
    requires NoDup(instrs) && forall i | i in instrs :: i.CallMethod? ==> i.comp == comp
    ensures DistinctChannels(instrs)
  {
    forall i, j | 0 <= i < j < |instrs| ensures ChannelOf(instrs[i]) != ChannelOf(instrs[j]) {
      assert instrs[i] in instrs && instrs[j] in instrs;
      if ChannelOf(instrs[i]) == ChannelOf(instrs[j]) {
        ShareOnlyMethods(instrs[i], instrs[j]);
      }
    }
  }

  lemma ModuleDistinct(operators: seq<string>, factories: seq<string>)
    requires NoDup(operators) && NoDup(factories)
    ensures DistinctChannels(ModuleInstrs(operators, factories))
  {
    DistinctIfOneComponent(ModuleInstrs(operators, factories), "");
  }

  lemma ComponentDistinct(comp: string, ops: seq<string>)
    requires NoDup(ops)
    ensures DistinctChannels(ComponentInstrs(comp, ops)) && DistinctChannels(DeletionInstrs(comp, ops))
    ensures ChannelSet(DeletionInstrs(comp, ops)) == ChannelsOf(comp, ops)
  {
    DistinctIfOneComponent(ComponentInstrs(comp, ops), comp);
    DistinctIfOneComponent(DeletionInstrs(comp, ops), comp);
  }

  /** The channels of a component are not among the module's. */
  lemma ComponentIsApart(v: VmState, comp: string, ops: seq<string>)
    requires ChannelsOf(comp, ops) !! ComponentChannels(v.components)
    ensures ChannelsOf(comp, ops) !! VmChannels(v)
  {
    forall ch | ch in ChannelsOf(comp, ops) ensures ch !in VmChannels(v) {
      ComponentChannel(comp, ops, ch);
      if ch in ChannelSet(ModuleInstrs(v.operators, v.factories)) {
        ModuleChannel(v.operators, v.factories, ch);
      }
    }
  }

  lemma AddComponent(v: VmState, comp: string, ops: seq<string>, v': VmState)
    requires comp !in v.components
    requires v'.components == v.components[comp := ops] && v'.operators == v.operators && v'.factories == v.factories
    ensures VmChannels(v') == VmChannels(v) + ChannelsOf(comp, ops)
  {
    forall ch ensures ch in ComponentChannels(v'.components) <==>
                      ch in ComponentChannels(v.components) || ch in ChannelsOf(comp, ops)
    {
      if ch in ComponentChannels(v.components) {
        var c :| c in v.components && ch in ChannelsOf(c, v.components[c]);
        assert c in v'.components && v'.components[c] == v.components[c];
      }
      if ch in ChannelsOf(comp, ops) {
        assert comp in v'.components && v'.components[comp] == ops;
      }
    }
  }

  lemma RemoveComponent(v: VmState, comp: string, v': VmState)
    requires NamesOk(v) && comp in v.components
    requires v'.components == v.components - {comp} && v'.operators == v.operators && v'.factories == v.factories
    ensures VmChannels(v') == VmChannels(v) - ChannelsOf(comp, v.components[comp])
    ensures ChannelsOf(comp, v.components[comp]) <= VmChannels(v)
  {
    var ops := v.components[comp];
    assert v.components == v'.components[comp := ops];
    AddComponent(v', comp, ops, v);
    forall ch | ch in ComponentChannels(v'.components) ensures ch !in ChannelsOf(comp, ops) {
      var c :| c in v'.components && ch in ChannelsOf(c, v'.components[c]);
      assert c in v.components.Keys && comp in v.components.Keys && c != comp;
    }
    ComponentIsApart(v', comp, ops);
  }

  /** What on_stop unsubscribes is exactly what the VM serves, each channel once. */
  lemma StopCovers(v: VmState, names: seq<string>)
    requires NamesOk(v) && NoDup(names) && SetOf(names) == v.components.Keys
    ensures ChannelSet(StopInstrs(v, names)) == VmChannels(v)
    ensures DistinctChannels(StopInstrs(v, names))
  {
    var a, b := ModuleInstrs(v.operators, v.factories), AllComponentInstrs(v.components, names);
    AllComponents(v.components, names);
    ModuleDistinct(v.operators, v.factories);
    forall i, j | i in a && j in b ensures ChannelOf(i) != ChannelOf(j) {
      ChannelParts(i);
      ChannelParts(j);
    }
    forall ch ensures ch in ChannelSet(b) <==> ch in ComponentChannels(v.components) {
      assert (exists c | c in names :: ch in ChannelsOf(c, v.components[c])) <==>
             (exists c | c in v.components :: ch in ChannelsOf(c, v.components[c]));
    }
    ConcatDistinct(a, b);
  }

  lemma ConcatDistinct(a: seq<Instr>, b: seq<Instr>)
    requires DistinctChannels(a) && DistinctChannels(b)
    requires forall i, j | i in a && j in b :: ChannelOf(i) != ChannelOf(j)
    ensures DistinctChannels(a + b)
    ensures ChannelSet(a + b) == ChannelSet(a) + ChannelSet(b)
  {
    assert forall i | i in a + b :: i in a || i in b;
    assert forall i | i in a || i in b :: i in a + b;
  }

  lemma {:induction false} AllComponents(components: map<string, seq<string>>, names: seq<string>)
    requires NoDup(names) && SetOf(names) <= components.Keys && Apart(components, SetOf(names))
    requires forall c | c in names :: NoDup(components[c])
    ensures DistinctChannels(AllComponentInstrs(components, names))
    ensures forall i | i in AllComponentInstrs(components, names) :: i.DeleteComponent? || i.CallMethod?
    ensures forall ch :: ch in ChannelSet(AllComponentInstrs(components, names)) <==>
                         exists c | c in names :: ch in ChannelsOf(c, components[c])
    decreases |names|
  {
    if names != [] {
      var c, rest := names[0], names[1..];
      assert SetOf(rest) <= SetOf(names);
      AllComponents(components, rest);
      ComponentDistinct(c, components[c]);
      var a, b := ComponentInstrs(c, components[c]), AllComponentInstrs(components, rest);
      forall i, j | i in a && j in b ensures ChannelOf(i) != ChannelOf(j) {
        assert ChannelOf(j) in ChannelSet(b);
        var d :| d in rest && ChannelOf(j) in ChannelsOf(d, components[d]);
        assert c in SetOf(names) && d in SetOf(names) && c != d;
        assert ChannelOf(i) in ChannelsOf(c, components[c]);
      }
      ConcatDistinct(a, b);
      assert forall d :: d in names <==> d == c || d in rest;
    }
  }
}
