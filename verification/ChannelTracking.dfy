/** The broker's subscription table, the VM's queued announcements and the VM's own
    components agree in every state a safe run can reach. */
module ChannelTracking {
  import opened Values
  import opened Packets
  import opened VmModel
  import opened SystemModel
  import opened CallTracking
  import opened ChannelReplay

  ghost function Served(v: VmState): set<Channel> {
    if v.mode.Serving? then VmChannels(v) else {}
  }

  /** Replaying the VM's queue on the broker's table gives what the VM serves; on the way no
      announcement is rejected, and none has been. */
  ghost predicate ChannelsInv(s: Sys) {
    && NamesOk(s.vm)
    && Replay(s.broker.subs.Keys, VmOut(s)) == Served(s.vm)
    && AllAccepted(s.broker.subs.Keys, VmOut(s))
    && forall p | p in Q(s.down, VM) && p.Respond? :: p.ok
  }

  // ---------------------------------------------------------------- safe runs

  /** The define handler looks the name up among the factories only. A define it accepts is
      safe if no component bears the name and no component has a channel of the new one. */
  ghost predicate SafeDefine(v: VmState, name: string, made: Made) {
    made.Made? ==> name !in v.components && ChannelsOf(name, made.methods) !! ComponentChannels(v.components)
  }

  ghost predicate SafeTake(v: VmState, p: Packet, made: Made) {
    (p.Execute? && p.instr.DefineComponent? && DefineRefusal(v, p.instr.comptype, p.name, made).None?) ==>
      SafeDefine(v, p.name, made)
  }

  ghost predicate SafeAction(s: Sys, a: Action) {
    a.VmTake? && Q(s.down, VM) != [] ==> SafeTake(s.vm, Q(s.down, VM)[0], a.made)
  }

  /** No two modules share a name. */
  ghost predicate SafeInitial(s: Sys) {
    Initial(s) && exists ids: seq<Tx>, instrs :: ImportSent(s, ids, instrs) && NoDup(instrs)
  }

  /** Either no component name has a slash, or no method name has one. */
  ghost predicate SlashFree(components: map<string, seq<string>>) {
    (forall c | c in components :: NoSlash(c)) || (forall c, op | c in components && op in components[c] :: NoSlash(op))
  }

  /** Then a define is safe whenever its name is new. */
  lemma SlashFreeIsSafe(v: VmState, name: string, made: Made)
    requires made.Made? && name !in v.components && SlashFree(v.components[name := made.methods])
    ensures SafeDefine(v, name, made)
  {
    var all := v.components[name := made.methods];
    forall ch | ch in ChannelsOf(name, made.methods) ensures ch !in ComponentChannels(v.components) {
      if ch in ComponentChannels(v.components) {
        var c :| c in v.components && ch in ChannelsOf(c, v.components[c]);
        assert all[c] == v.components[c] && all[name] == made.methods;
        NoCommonChannel(all, c, name, ch);
      }
    }
  }

  lemma NoCommonChannel(components: map<string, seq<string>>, c: string, d: string, ch: Channel)
    requires SlashFree(components) && c in components && d in components && c != d
    requires ch in ChannelsOf(c, components[c])
    ensures ch !in ChannelsOf(d, components[d])
  {
    if ch in ChannelsOf(d, components[d]) {
      var i :| i in ComponentInstrs(c, components[c]) && ChannelOf(i) == ch;
      var j :| j in ComponentInstrs(d, components[d]) && ChannelOf(j) == ch;
      assert i.comp == c && j.comp == d;
      assert (i.CallMethod? ==> i.op in components[c]) && (j.CallMethod? ==> j.op in components[d]);
      ChannelInjective(i, j);
    }
  }

  // ------------------------------------------------------------------- steps

  lemma InitChannels(s: Sys)
    requires SafeInitial(s)
    ensures ChannelsInv(s)
  {
    var ids: seq<Tx>, instrs :| ImportSent(s, ids, instrs) && NoDup(instrs);
    DistinctIfOneComponent(instrs, "");
    ReplaySubscriptions({}, ids, instrs);
    assert VmOut(s) == Subscriptions(ids, instrs);
    assert s.broker.subs.Keys == {};
    assert ComponentChannels(s.vm.components) == {};
    assert ChannelSet(instrs) == ChannelSet(ModuleInstrs(s.vm.operators, s.vm.factories));
  }

  lemma RecvTable(s: Sys, n: Node, s': Sys)
    requires CallsInv(s) && ChannelsInv(s) && Received(s, n, s')
    ensures s'.broker.subs.Keys ==
      if n == VM then ChannelsAfter(s.broker.subs.Keys, Q(s.up, n)[0]) else s.broker.subs.Keys
  {
    var p := Q(s.up, n)[0];
    if n != VM {
      assert p.Connect? || p.Disconnect? || p.Execute?;
    } else {
      assert p in VmOut(s);
    }
  }

  lemma RecvChannels(s: Sys, n: Node, s': Sys)
    requires CallsInv(s) && ChannelsInv(s) && Received(s, n, s')
    ensures ChannelsInv(s')
  {
    var p := Q(s.up, n)[0];
    RecvTable(s, n, s');
    RecvVmOut(s, n, s');
    if n == VM {
      assert VmOut(s)[0] == p && VmOut(s)[1..] == VmOut(s');
    }
    RecvAnswers(s, n, s');
  }

  /** Every branch of the broker answers the VM's announcements, and with status true. */
  lemma RecvAnswers(s: Sys, n: Node, s': Sys)
    requires CallsInv(s) && ChannelsInv(s) && Received(s, n, s')
    ensures forall q | q in Q(s'.down, VM) && q.Respond? :: q.ok
  {
    var p := Q(s.up, n)[0];
    if n == VM {
      assert VmOut(s)[0] == p;
      assert Accepted(s.broker.subs.Keys, p);
    } else {
      assert p.Connect? || p.Disconnect? || p.Execute?;
    }
  }

  /** A handler announces exactly the channels it adds or takes away. */
  lemma HandleChannels(v: VmState, p: Packet, init: Init, made: Made, ids: seq<Tx>)
    requires NamesOk(v) && Idle(v) && TakeFits(v, p, init, made, ids) && SafeTake(v, p, made)
    ensures var v' := Handle(v, p, init, made, ids);
      && NamesOk(v') && v'.mode == v.mode
      && Replay(VmChannels(v), v'.pending) == VmChannels(v')
      && AllAccepted(VmChannels(v), v'.pending)
  {
    var v' := Handle(v, p, init, made, ids);
    if p.Execute? && p.instr.DefineComponent? && DefineRefusal(v, p.instr.comptype, p.name, made).None? {
      DefineChannels(v, p.tx, p.instr.comptype, p.name, made, ids);
    } else if p.Execute? && p.instr.DeleteComponent? && p.instr.comp in v.components {
      DeleteChannels(v, p.tx, p.instr.comp, ids);
    } else {
      assert v'.pending == [] || v'.pending[1..] == [];
    }
  }

  lemma DefineChannels(v: VmState, tx: Tx, comptype: string, name: string, made: Made, ids: seq<Tx>)
    requires NamesOk(v) && DefineRefusal(v, comptype, name, made).None? && SafeDefine(v, name, made)
    requires |ids| == |made.methods| + 1 && NoDup(made.methods)
    ensures var v' := Defines(v, tx, comptype, name, made, ids);
      && NamesOk(v')
      && Replay(VmChannels(v), v'.pending) == VmChannels(v')
      && AllAccepted(VmChannels(v), v'.pending)
  {
    var v' := Defines(v, tx, comptype, name, made, ids);
    var instrs := ComponentInstrs(name, made.methods);
    ComponentIsApart(v, name, made.methods);
    ComponentDistinct(name, made.methods);
    ReplaySubscriptions(VmChannels(v), ids, instrs);
    ReplayReply(VmChannels(v), Subscriptions(ids, instrs), Reply(tx, 0, true, EMPTY_MAP));
    AddComponent(v, name, made.methods, v');
    DefinedApart(v, name, made.methods, v'.components);
  }

  lemma DefinedApart(v: VmState, name: string, ops: seq<string>, after: map<string, seq<string>>)
    requires NamesOk(v) && name !in v.components && after == v.components[name := ops]
    requires ChannelsOf(name, ops) !! ComponentChannels(v.components)
    ensures Apart(after, after.Keys)
  {
    forall c, ch | c in v.components && ch in ChannelsOf(c, v.components[c]) ensures ch !in ChannelsOf(name, ops) {
      assert ch in ComponentChannels(v.components);
    }
    forall c, d | c in after && d in after && c != d ensures ChannelsOf(c, after[c]) !! ChannelsOf(d, after[d]) {
      assert c != name && d != name ==> c in v.components.Keys && d in v.components.Keys;
    }
  }

  lemma DeleteChannels(v: VmState, tx: Tx, comp: string, ids: seq<Tx>)
    requires NamesOk(v) && comp in v.components && |ids| == |v.components[comp]| + 1
    ensures var v' := Deletes(v, tx, comp, ids);
      && NamesOk(v')
      && Replay(VmChannels(v), v'.pending) == VmChannels(v')
      && AllAccepted(VmChannels(v), v'.pending)
  {
    var v' := Deletes(v, tx, comp, ids);
    var instrs := DeletionInstrs(comp, v.components[comp]);
    ComponentDistinct(comp, v.components[comp]);
    RemoveComponent(v, comp, v');
    assert v'.components.Keys <= v.components.Keys;
    ReplayUnsubscriptions(VmChannels(v), ids, instrs);
    ReplayReply(VmChannels(v), Unsubscriptions(ids, instrs), Reply(tx, 0, true, EMPTY_MAP));
  }

  /** The VM appends to its queue what changes Served accordingly. */
  lemma VmAppends(s: Sys, s': Sys)
    requires ChannelsInv(s) && s.vm.pending == [] && s'.up == s.up && s'.broker == s.broker
    requires NamesOk(s'.vm)
    requires Replay(Served(s.vm), s'.vm.pending) == Served(s'.vm) && AllAccepted(Served(s.vm), s'.vm.pending)
    requires forall p | p in Q(s'.down, VM) && p.Respond? :: p.ok
    ensures ChannelsInv(s')
  {
    assert VmOut(s) == Q(s.up, VM);
    ReplayAppend(s.broker.subs.Keys, Q(s.up, VM), s'.vm.pending);
  }

  lemma TakeChannels(s: Sys, init: Init, made: Made, ids: seq<Tx>)
    requires ChannelsInv(s) && Enabled(s, VmTake(init, made, ids)) && SafeAction(s, VmTake(init, made, ids))
    ensures ChannelsInv(Apply(s, VmTake(init, made, ids)))
  {
    HandleChannels(s.vm, Q(s.down, VM)[0], init, made, ids);
    VmAppends(s, Apply(s, VmTake(init, made, ids)));
  }

  lemma StepChannels(s: Sys, r: StepResult)
    requires CallsInv(s) && ChannelsInv(s) && Enabled(s, VmStep(r))
    ensures ChannelsInv(Apply(s, VmStep(r)))
  {
    var reply := ReplyOf(s.vm.running.value.tx, s.vm.running.value.next, r);
    ReplayReply(Served(s.vm), [], reply);
    assert [] + [reply] == [reply];
    var s' := Apply(s, VmStep(r));
    assert VmChannels(s'.vm) == VmChannels(s.vm);
    VmAppends(s, s');
  }

  lemma StopChannels(s: Sys, names: seq<string>, ids: seq<Tx>)
    requires ChannelsInv(s) && Enabled(s, VmStop(names, ids))
    ensures ChannelsInv(Apply(s, VmStop(names, ids)))
  {
    StopReplays(s.vm, names, ids);
    VmAppends(s, Apply(s, VmStop(names, ids)));
  }

  lemma StopReplays(v: VmState, names: seq<string>, ids: seq<Tx>)
    requires NamesOk(v) && NoDup(names) && SetOf(names) == v.components.Keys && |ids| == |StopInstrs(v, names)|
    ensures var v' := Stops(v, names, ids);
      && NamesOk(v')
      && Replay(VmChannels(v), v'.pending) == {} && AllAccepted(VmChannels(v), v'.pending)
  {
    StopCovers(v, names);
    ReplayUnsubscriptions(VmChannels(v), ids, StopInstrs(v, names));
  }

  lemma LeaveChannels(s: Sys, tx: Tx)
    requires ChannelsInv(s) && Enabled(s, VmLeave(tx))
    ensures ChannelsInv(Apply(s, VmLeave(tx)))
  {
    assert [Disconnect(tx)][1..] == [];
    VmAppends(s, Apply(s, VmLeave(tx)));
  }

  lemma SameChannels(s: Sys, s': Sys)
    requires ChannelsInv(s) && VmOut(s') == VmOut(s) && s'.broker.subs == s.broker.subs
    requires s'.vm.mode == s.vm.mode && s'.vm.operators == s.vm.operators && s'.vm.factories == s.vm.factories
    requires s'.vm.components == s.vm.components
    requires forall p | p in Q(s'.down, VM) :: p in Q(s.down, VM)
    ensures ChannelsInv(s')
  {
    assert VmChannels(s'.vm) == VmChannels(s.vm);
  }

  ghost predicate ClientAction(a: Action) {
    a.Accept? || a.ClientConnect? || a.ClientDisconnect? || a.ClientCall? || a.ClientTake? || a.ClientNext?
  }

  /** Clients do not touch the VM, its mailboxes or the broker's table. */
  ghost predicate VmUntouched(s: Sys, s': Sys) {
    && s'.vm == s.vm && VmOut(s') == VmOut(s) && Q(s'.down, VM) == Q(s.down, VM)
    && s'.broker.subs == s.broker.subs && s.used <= s'.used
  }

  lemma ClientLeavesVm(s: Sys, a: Action)
    requires Enabled(s, a) && ClientAction(a)
    ensures VmUntouched(s, Apply(s, a))
  {
    match a {
      case ClientCall(n, tx, instr, name, input) => CallLeavesVm(s, n, tx, instr, name, input);
      case ClientTake(n) => TakeLeavesVm(s, n);
      case _ =>
    }
  }

  lemma CallLeavesVm(s: Sys, n: Node, tx: Tx, instr: Instr, name: string, input: Value)
    requires n != VM
    ensures VmUntouched(s, CallStep(s, n, tx, instr, name, input))
  {
  }

  lemma TakeLeavesVm(s: Sys, n: Node)
    requires n != VM && Q(s.down, n) != []
    ensures VmUntouched(s, TakeStep(s, n))
  {
  }

  lemma ClientChannels(s: Sys, a: Action)
    requires ChannelsInv(s) && Enabled(s, a) && ClientAction(a)
    ensures ChannelsInv(Apply(s, a))
  {
    ClientLeavesVm(s, a);
    SameChannels(s, Apply(s, a));
  }

  lemma FlushDrainChannels(s: Sys, a: Action)
    requires ChannelsInv(s) && Enabled(s, a) && (a.VmFlush? || a.VmDrain?)
    ensures ChannelsInv(Apply(s, a))
  {
    var s' := Apply(s, a);
    if a.VmFlush? {
      FlushVmOut(s, s');
      assert Q(s'.down, VM) == Q(s.down, VM);
    } else {
      DrainFields(s);
      assert VmOut(s') == VmOut(s);
    }
    SameChannels(s, s');
  }

  lemma ChannelsStep(s: Sys, a: Action)
    requires CallsInv(s) && ChannelsInv(s) && Enabled(s, a) && SafeAction(s, a)
    ensures ChannelsInv(Apply(s, a))
  {
    match a {
      case BrokerRecv(n) => RecvChannels(s, n, Apply(s, a));
      case VmTake(init, made, ids) => TakeChannels(s, init, made, ids);
      case VmStep(r) => StepChannels(s, r);
      case VmStop(names, ids) => StopChannels(s, names, ids);
      case VmLeave(tx) => LeaveChannels(s, tx);
      case VmFlush => FlushDrainChannels(s, a);
      case VmDrain => FlushDrainChannels(s, a);
      case _ => ClientChannels(s, a);
    }
  }

  // ------------------------------------------------------- which defines are safe

  /** The broker takes all announcements of a define exactly when it is safe. */
  lemma DefineIff(v: VmState, tx: Tx, comptype: string, name: string, made: Made, ids: seq<Tx>)
    requires NamesOk(v) && made.Made? && NoDup(made.methods)
    requires DefineRefusal(v, comptype, name, made).None? && |ids| == |made.methods| + 1
    ensures AllAccepted(VmChannels(v), Defines(v, tx, comptype, name, made, ids).pending) <==> SafeDefine(v, name, made)
  {
    var instrs, ops := ComponentInstrs(name, made.methods), made.methods;
    ComponentDistinct(name, ops);
    ReplaySubscriptions(VmChannels(v), ids, instrs);
    ReplayReply(VmChannels(v), Subscriptions(ids, instrs), Reply(tx, 0, true, EMPTY_MAP));
    if name in v.components {
      var ch := ChannelOf(DeleteComponent(name));
      assert ch in ChannelsOf(name, v.components[name]) && ch in ComponentChannels(v.components);
      assert ch in ChannelsOf(name, ops);
    } else if ChannelsOf(name, ops) !! ComponentChannels(v.components) {
      ComponentIsApart(v, name, ops);
    }
  }

  /** The table after a define under a name that is taken is what the VM serves exactly when
      the new component has every method of the old one; otherwise the old methods' channels
      stay subscribed although the VM no longer serves them. */
  lemma RedefineIff(v: VmState, tx: Tx, comptype: string, name: string, made: Made, ids: seq<Tx>)
    requires NamesOk(v) && name in v.components && made.Made? && NoDup(made.methods)
    requires DefineRefusal(v, comptype, name, made).None? && |ids| == |made.methods| + 1
    ensures var v' := Defines(v, tx, comptype, name, made, ids);
      Replay(VmChannels(v), v'.pending) == VmChannels(v') <==>
      forall op | op in v.components[name] :: op in made.methods
  {
    var v' := Defines(v, tx, comptype, name, made, ids);
    var instrs, oldOps := ComponentInstrs(name, made.methods), v.components[name];
    ReplaySubscriptions(VmChannels(v), ids, instrs);
    ReplayReply(VmChannels(v), Subscriptions(ids, instrs), Reply(tx, 0, true, EMPTY_MAP));
    RedefinedChannels(v, name, made.methods, v');
    MethodChannels(name, oldOps, made.methods);
  }

  lemma RedefinedChannels(v: VmState, name: string, ops: seq<string>, v': VmState)
    requires NamesOk(v) && name in v.components && v'.components == v.components[name := ops]
    requires v'.operators == v.operators && v'.factories == v.factories
    ensures var gone, come := ChannelsOf(name, v.components[name]), ChannelsOf(name, ops);
      && VmChannels(v') == VmChannels(v) - gone + come && gone <= VmChannels(v)
  {
    var others := v.(components := v.components - {name});
    assert v'.components == others.components[name := ops];
    RemoveComponent(v, name, others);
    AddComponent(others, name, ops, v');
  }

  /** In any case the broker refuses to subscribe its delete channel again. */
  lemma RedefineIsRefused(v: VmState, tx: Tx, comptype: string, name: string, made: Made, ids: seq<Tx>)
    requires NamesOk(v) && name in v.components && made.Made? && NoDup(made.methods)
    requires DefineRefusal(v, comptype, name, made).None? && |ids| == |made.methods| + 1
    ensures var pending := Defines(v, tx, comptype, name, made, ids).pending;
      !Accepted(VmChannels(v), pending[0]) && !AllAccepted(VmChannels(v), pending)
  {
    DefineIff(v, tx, comptype, name, made, ids);
    var ch := ChannelOf(DeleteComponent(name));
    assert ch in ChannelsOf(name, v.components[name]);
    assert ch in ComponentChannels(v.components);
  }

  /** After a define under a new name the table is what the VM serves, shared channels or not. */
  lemma NewNameAgrees(v: VmState, tx: Tx, comptype: string, name: string, made: Made, ids: seq<Tx>)
    requires name !in v.components && made.Made?
    requires DefineRefusal(v, comptype, name, made).None? && |ids| == |made.methods| + 1
    ensures var v' := Defines(v, tx, comptype, name, made, ids); Replay(VmChannels(v), v'.pending) == VmChannels(v')
  {
    var instrs := ComponentInstrs(name, made.methods);
    ReplaySubscriptions(VmChannels(v), ids, instrs);
    ReplayReply(VmChannels(v), Subscriptions(ids, instrs), Reply(tx, 0, true, EMPTY_MAP));
    AddComponent(v, name, made.methods, Defines(v, tx, comptype, name, made, ids));
  }

  /** After a delete it is exactly if the component shared no channel with another one;
      otherwise the other one's channel is gone although the VM still serves it. */
  lemma DeleteIff(v: VmState, tx: Tx, comp: string, ids: seq<Tx>)
    requires comp in v.components && |ids| == |v.components[comp]| + 1
    ensures var v' := Deletes(v, tx, comp, ids);
      Replay(VmChannels(v), v'.pending) == VmChannels(v')
      <==> ChannelsOf(comp, v.components[comp]) !! ComponentChannels(v.components - {comp})
  {
    var v', ops := Deletes(v, tx, comp, ids), v.components[comp];
    var instrs := DeletionInstrs(comp, ops);
    DeletionChannels(comp, ops);
    ReplayUnsubscriptions(VmChannels(v), ids, instrs);
    ReplayReply(VmChannels(v), Unsubscriptions(ids, instrs), Reply(tx, 0, true, EMPTY_MAP));
    assert v.components == v'.components[comp := ops];
    AddComponent(v', comp, ops, v);
    if ChannelsOf(comp, ops) !! ComponentChannels(v'.components) {
      ComponentIsApart(v', comp, ops);
    }
  }

  lemma DeletionChannels(comp: string, ops: seq<string>)
    ensures ChannelSet(DeletionInstrs(comp, ops)) == ChannelsOf(comp, ops)
  {
    assert forall i :: i in DeletionInstrs(comp, ops) <==> i in ComponentInstrs(comp, ops);
  }

  lemma MethodChannels(name: string, oldOps: seq<string>, ops: seq<string>)
    ensures ChannelsOf(name, oldOps) <= ChannelsOf(name, ops) <==> forall op | op in oldOps :: op in ops
  {
    if ChannelsOf(name, oldOps) <= ChannelsOf(name, ops) {
      forall op | op in oldOps ensures op in ops {
        var k :| 0 <= k < |oldOps| && oldOps[k] == op;
        var i := CallMethod(name, op);
        assert Methods(name, oldOps)[k] == i;
        assert i in ComponentInstrs(name, oldOps);
        assert ChannelOf(i) in ChannelsOf(name, ops);
        var j :| j in ComponentInstrs(name, ops) && ChannelOf(j) == ChannelOf(i);
        if i != j {
          ShareOnlyMethods(i, j);
        }
      }
    }
    if forall op | op in oldOps :: op in ops {
      forall i | i in ComponentInstrs(name, oldOps) ensures i in ComponentInstrs(name, ops) {
        if i.CallMethod? {
          assert i.op in oldOps;
          var k :| 0 <= k < |ops| && ops[k] == i.op;
          assert Methods(name, ops)[k] == i;
        }
      }
    }
  }
}
