/** What a client may rely on after a define or a delete of a component. */
module ComponentTheorems {
  import opened Values
  import opened Packets
  import opened VmModel
  import opened SystemModel
  import opened CallTracking
  import opened ChannelReplay
  import opened ChannelTracking
  import opened ComponentTracking
  import opened ProtocolTheorems
  import opened VerdictTheorems

  /** From s on, no handler announces ch and the VM does not stop. */
  ghost predicate Quiet(s: Sys, acts: seq<Action>, ch: Channel)
    decreases |acts|
  {
    acts == [] || (Enabled(s, acts[0]) && QuietAction(s, acts[0], ch) && Quiet(Apply(s, acts[0]), acts[1..], ch))
  }

  /** From s on, the VM takes no define or delete of name that changes its components, and it
      does not stop. */
  ghost predicate Untouched(s: Sys, acts: seq<Action>, name: string)
    decreases |acts|
  {
    acts == [] ||
    (Enabled(s, acts[0]) && LeavesAlone(s, acts[0], name) && Untouched(Apply(s, acts[0]), acts[1..], name))
  }

  lemma {:induction false} BarrierRun(s: Sys, acts: seq<Action>, t: Sys, ch: Channel, tx: Tx, served: bool)
    requires SafeInv(s) && Barrier(s, ch, tx, served) && SafeLeads(s, acts, t) && Quiet(s, acts, ch)
    ensures SafeInv(t) && Barrier(t, ch, tx, served)
    decreases |acts|
  {
    if acts != [] {
      SafeStep(s, acts[0]);
      BarrierStep(s, acts[0], ch, tx, served);
      BarrierRun(Apply(s, acts[0]), acts[1..], t, ch, tx, served);
    }
  }

  /** A reply is a barrier: whoever holds the reply to a define or a delete, accepted or not,
      finds the table as the VM left it when it answered, on every channel that no handler has
      announced since. */
  lemma ReplyIsBarrier(s: Sys, init: Init, made: Made, ids: seq<Tx>, acts: seq<Action>, t: Sys, n: Node, ch: Channel)
    requires SafelyReachable(s) && Enabled(s, VmTake(init, made, ids)) && SafeAction(s, VmTake(init, made, ids))
    requires var p := Q(s.down, VM)[0];
      p.Execute? && (p.instr.DefineComponent? || p.instr.DeleteComponent?) && Holds(t, n, p.tx)
    requires var s1 := Apply(s, VmTake(init, made, ids)); SafeLeads(s1, acts, t) && Quiet(s1, acts, ch)
    ensures ch in t.broker.subs <==> ch in VmChannels(Apply(s, VmTake(init, made, ids)).vm)
  {
    var p, s1 := Q(s.down, VM)[0], Apply(s, VmTake(init, made, ids));
    SafelyHolding(s);
    SafeStep(s, VmTake(init, made, ids));
    TakenBarrier(s, init, made, ids, ch);
    BarrierRun(s1, acts, t, ch, p.tx, ch in VmChannels(s1.vm));
    TableIsSettled(t, n, ch, p.tx, ch in VmChannels(s1.vm));
  }

  lemma TakenBarrier(s: Sys, init: Init, made: Made, ids: seq<Tx>, ch: Channel)
    requires CallsInv(s) && Enabled(s, VmTake(init, made, ids))
    requires var p := Q(s.down, VM)[0]; p.Execute? && (p.instr.DefineComponent? || p.instr.DeleteComponent?)
    ensures var s1 := Apply(s, VmTake(init, made, ids)); Barrier(s1, ch, Q(s.down, VM)[0].tx, ch in VmChannels(s1.vm))
  {
    var p, s1 := Q(s.down, VM)[0], Apply(s, VmTake(init, made, ids));
    var before, r := HandleSends(s.vm, p, init, made, ids);
    HandleStays(s, init, made, ids, s1);
    assert VmOut(s1) == (Q(s.up, VM) + before) + [r];
    SettledByLast(Q(s.up, VM) + before, r, ch);
  }

  /** While a component is left alone, its channels are quiet. */
  lemma {:induction false} OwnChannelsAreQuiet(s: Sys, acts: seq<Action>, t: Sys, name: string, methods: seq<string>,
                                               ch: Channel)
    requires SafeInv(s) && SafeLeads(s, acts, t) && Untouched(s, acts, name)
    requires MethodsOf(s.vm, name) == Some(methods) && ch in ChannelsOf(name, methods)
    ensures Quiet(s, acts, ch)
    decreases |acts|
  {
    if acts != [] {
      SafeStep(s, acts[0]);
      OwnChannelIsQuiet(s, acts[0], name, ch);
      LeftAlone(s, acts[0], name);
      OwnChannelsAreQuiet(Apply(s, acts[0]), acts[1..], t, name, methods, ch);
    }
  }

  lemma {:induction false} UnsharedChannelsAreQuiet(s: Sys, acts: seq<Action>, name: string, i: Instr)
    requires Untouched(s, acts, name) && !Shared(i) && (i.DeleteComponent? || i.CallMethod?) && i.comp == name
    ensures Quiet(s, acts, ChannelOf(i))
    decreases |acts|
  {
    if acts != [] {
      UnsharedIsQuiet(s, acts[0], name, i);
      UnsharedChannelsAreQuiet(Apply(s, acts[0]), acts[1..], name, i);
    }
  }

  /** A client holds a reply to tx that says success: true, with an empty map. */
  ghost predicate HoldsSuccess(s: Sys, n: Node, tx: Tx) {
    exists p | p in Replies(Q(s.recvd, n), tx) :: p.Reply? && p.out == Out(Map(map[]))
  }

  lemma {:induction false} SafeIsRun(s: Sys, acts: seq<Action>, t: Sys)
    requires SafeLeads(s, acts, t)
    ensures Leads(s, acts, t)
    decreases |acts|
  {
    if acts != [] {
      SafeIsRun(Apply(s, acts[0]), acts[1..], t);
    }
  }

  /** Success is told exactly by a define of a factory, under a name that is no factory's, whose
      component was made, and by a delete of a component that exists. */
  lemma SuccessTells(s: Sys, init: Init, made: Made, ids: seq<Tx>, acts: seq<Action>, t: Sys, n: Node)
    requires SysInv(s) && Enabled(s, VmTake(init, made, ids)) && Leads(Apply(s, VmTake(init, made, ids)), acts, t)
    requires var p := Q(s.down, VM)[0];
      p.Execute? && (p.instr.DefineComponent? || p.instr.DeleteComponent?) && Holds(t, n, p.tx)
    ensures var p := Q(s.down, VM)[0];
      HoldsSuccess(t, n, p.tx) <==>
        if p.instr.DefineComponent? then p.instr.comptype in s.vm.factories && p.name !in s.vm.factories && made.Made?
        else p.instr.comp in s.vm.components
  {
    var tx := Q(s.down, VM)[0].tx;
    var held :| held in Replies(Q(t.recvd, n), tx) && held.Reply? && held.finish;
    HeldIsVerdict(s, init, made, ids, acts, t, n, held);
    if HoldsSuccess(t, n, tx) {
      var p :| p in Replies(Q(t.recvd, n), tx) && p.Reply? && p.out == Out(Map(map[]));
      HeldIsVerdict(s, init, made, ids, acts, t, n, p);
    }
  }

  /** A client holds the success reply to a define. From then on, until the VM processes another
      define or delete of the same name or a stop, it finds the delete channel and all method
      channels of the component owned by the VM. */
  lemma DefinedStaysReachable(s: Sys, init: Init, made: Made, ids: seq<Tx>, acts: seq<Action>, t: Sys, n: Node)
    requires SafelyReachable(s) && Enabled(s, VmTake(init, made, ids)) && SafeAction(s, VmTake(init, made, ids))
    requires var p, s1 := Q(s.down, VM)[0], Apply(s, VmTake(init, made, ids));
      && p.Execute? && p.instr.DefineComponent? && HoldsSuccess(t, n, p.tx)
      && SafeLeads(s1, acts, t) && Untouched(s1, acts, p.name)
    ensures made.Made?
    ensures var name := Q(s.down, VM)[0].name;
      && "2/" + name in t.broker.subs && t.broker.subs["2/" + name] == VM
      && forall op | op in made.methods ::
          "3/" + name + "/" + op in t.broker.subs && t.broker.subs["3/" + name + "/" + op] == VM
  {
    SafelyHolding(s);
    DefineSucceeded(s, init, made, ids, acts, t, n);
    OwnedChannels(s, init, made, ids, acts, t, n, Q(s.down, VM)[0].name);
  }

  lemma OwnedChannels(s: Sys, init: Init, made: Made, ids: seq<Tx>, acts: seq<Action>, t: Sys, n: Node, name: string)
    requires Defined(s, init, made, ids, acts, t, n) && name == Q(s.down, VM)[0].name
    ensures "2/" + name in t.broker.subs && t.broker.subs["2/" + name] == VM
    ensures forall op | op in made.methods ::
      "3/" + name + "/" + op in t.broker.subs && t.broker.subs["3/" + name + "/" + op] == VM
  {
    OwnInstrs(name, made.methods);
    OwnedChannel(s, init, made, ids, acts, t, n, DeleteComponent(name));
    forall op | op in made.methods
      ensures "3/" + name + "/" + op in t.broker.subs && t.broker.subs["3/" + name + "/" + op] == VM
    {
      OwnedChannel(s, init, made, ids, acts, t, n, CallMethod(name, op));
    }
  }

  lemma DefineSucceeded(s: Sys, init: Init, made: Made, ids: seq<Tx>, acts: seq<Action>, t: Sys, n: Node)
    requires SysInv(s) && Enabled(s, VmTake(init, made, ids)) && SafeLeads(Apply(s, VmTake(init, made, ids)), acts, t)
    requires var p := Q(s.down, VM)[0]; p.Execute? && p.instr.DefineComponent? && HoldsSuccess(t, n, p.tx)
    ensures var p := Q(s.down, VM)[0];
      DefineRefusal(s.vm, p.instr.comptype, p.name, made).None? && made.Made? && Holds(t, n, p.tx)
  {
    var tx := Q(s.down, VM)[0].tx;
    var p :| p in Replies(Q(t.recvd, n), tx) && p.Reply? && p.out == Out(Map(map[]));
    SafeIsRun(Apply(s, VmTake(init, made, ids)), acts, t);
    HeldIsVerdict(s, init, made, ids, acts, t, n, p);
  }

  /** The VM accepted a define, has left the component alone since, and n holds the reply. */
  ghost predicate Defined(s: Sys, init: Init, made: Made, ids: seq<Tx>, acts: seq<Action>, t: Sys, n: Node) {
    && SafelyReachable(s) && Enabled(s, VmTake(init, made, ids)) && SafeAction(s, VmTake(init, made, ids))
    && var p, s1 := Q(s.down, VM)[0], Apply(s, VmTake(init, made, ids));
    && p.Execute? && p.instr.DefineComponent? && DefineRefusal(s.vm, p.instr.comptype, p.name, made).None?
    && SafeLeads(s1, acts, t) && Untouched(s1, acts, p.name) && Holds(t, n, p.tx)
  }

  lemma OwnedChannel(s: Sys, init: Init, made: Made, ids: seq<Tx>, acts: seq<Action>, t: Sys, n: Node, i: Instr)
    requires Defined(s, init, made, ids, acts, t, n) && i in ComponentInstrs(Q(s.down, VM)[0].name, made.methods)
    ensures ChannelOf(i) in t.broker.subs && t.broker.subs[ChannelOf(i)] == VM
  {
    var p, s1, ch := Q(s.down, VM)[0], Apply(s, VmTake(init, made, ids)), ChannelOf(i);
    SafelyHolding(s);
    SafeStep(s, VmTake(init, made, ids));
    assert p.name in s1.vm.components && s1.vm.components[p.name] == made.methods;
    OwnChannelsAreQuiet(s1, acts, t, p.name, made.methods, ch);
    ReplyIsBarrier(s, init, made, ids, acts, t, n, ch);
    SafeRun(s1, acts, t);
  }

  /** A client holds the success reply to a delete. From then on, until the VM processes a define
      that announces the channel again or a stop, it finds no channel of the component. */
  lemma DeletedStaysGone(s: Sys, init: Init, made: Made, ids: seq<Tx>, acts: seq<Action>, t: Sys, n: Node, i: Instr)
    requires SafelyReachable(s) && Enabled(s, VmTake(init, made, ids))
    requires var p, s1 := Q(s.down, VM)[0], Apply(s, VmTake(init, made, ids));
      && p.Execute? && p.instr.DeleteComponent? && HoldsSuccess(t, n, p.tx)
      && SafeLeads(s1, acts, t) && Quiet(s1, acts, ChannelOf(i))
      && (i.DeleteComponent? || i.CallMethod?) && i.comp == p.instr.comp
    ensures i.comp in s.vm.components
    ensures i.DeleteComponent? || i.op in s.vm.components[i.comp] ==> ChannelOf(i) !in t.broker.subs
  {
    SafelyHolding(s);
    DeleteSucceeded(s, init, made, ids, acts, t, n);
    ReplyIsBarrier(s, init, made, ids, acts, t, n, ChannelOf(i));
    NoneLeft(s.vm, i, Apply(s, VmTake(init, made, ids)).vm);
  }

  lemma NoneLeft(v: VmState, i: Instr, v': VmState)
    requires NamesOk(v) && (i.DeleteComponent? || i.CallMethod?) && i.comp in v.components
    requires v'.operators == v.operators && v'.factories == v.factories && v'.components == v.components - {i.comp}
    ensures i.DeleteComponent? || i.op in v.components[i.comp] ==> ChannelOf(i) !in VmChannels(v')
  {
    RemoveComponent(v, i.comp, v');
    OwnInstrs(i.comp, v.components[i.comp]);
  }

  lemma DeleteSucceeded(s: Sys, init: Init, made: Made, ids: seq<Tx>, acts: seq<Action>, t: Sys, n: Node)
    requires SysInv(s) && Enabled(s, VmTake(init, made, ids)) && SafeLeads(Apply(s, VmTake(init, made, ids)), acts, t)
    requires var p := Q(s.down, VM)[0]; p.Execute? && p.instr.DeleteComponent? && HoldsSuccess(t, n, p.tx)
    ensures var p := Q(s.down, VM)[0]; p.instr.comp in s.vm.components && Holds(t, n, p.tx)
  {
    var tx := Q(s.down, VM)[0].tx;
    var p :| p in Replies(Q(t.recvd, n), tx) && p.Reply? && p.out == Out(Map(map[]));
    SafeIsRun(Apply(s, VmTake(init, made, ids)), acts, t);
    HeldIsVerdict(s, init, made, ids, acts, t, n, p);
  }

  /** Names without slash need no such care: no channel that could be the component's, of
      whatever method, is found until a define of the same name is processed. */
  lemma DeletedNameStaysGone(s: Sys, init: Init, made: Made, ids: seq<Tx>, acts: seq<Action>, t: Sys, n: Node, i: Instr)
    requires SafelyReachable(s) && Enabled(s, VmTake(init, made, ids))
    requires var p, s1 := Q(s.down, VM)[0], Apply(s, VmTake(init, made, ids));
      && p.Execute? && p.instr.DeleteComponent? && (i.DeleteComponent? || i.CallMethod?) && i.comp == p.instr.comp
      && (i.CallMethod? ==> NoSlash(i.comp) && NoSlash(i.op))
      && SafeLeads(s1, acts, t) && Untouched(s1, acts, p.instr.comp) && Holds(t, n, p.tx)
    ensures ChannelOf(i) !in t.broker.subs
  {
    var p, s1 := Q(s.down, VM)[0], Apply(s, VmTake(init, made, ids));
    SharedIff(i);
    UnsharedChannelsAreQuiet(s1, acts, p.instr.comp, i);
    ReplyIsBarrier(s, init, made, ids, acts, t, n, ChannelOf(i));
    assert p.instr.comp !in s1.vm.components;
    UnservedChannel(s1.vm, i);
  }

  lemma UnservedChannel(v: VmState, i: Instr)
    requires !Shared(i) && (i.DeleteComponent? || i.CallMethod?) && i.comp !in v.components
    ensures ChannelOf(i) !in VmChannels(v)
  {
    forall j | ChannelOf(j) == ChannelOf(i) ensures j == i {
    }
  }
}
