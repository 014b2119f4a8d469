/** What a client may rely on once it holds the reply to a define or a delete. */
module ComponentTracking {
  import opened Packets
  import opened VmModel
  import opened SystemModel
  import opened CallTracking
  import opened ChannelReplay
  import opened ChannelTracking

  ghost predicate Announces(p: Packet, ch: Channel) {
    (p.Subscribe? || p.Unsubscribe?) && ChannelOf(p.instr) == ch
  }

  ghost predicate Answers(q: seq<Packet>, from: nat, tx: Tx) {
    exists k | from <= k < |q| :: q[k].Reply? && q[k].tx == tx
  }

  /** Every announcement of ch in the queue is followed by a reply to tx. */
  ghost predicate Settled(q: seq<Packet>, ch: Channel, tx: Tx) {
    forall j | 0 <= j < |q| && Announces(q[j], ch) :: Answers(q, j, tx)
  }

  lemma SettledPop(q: seq<Packet>, ch: Channel, tx: Tx)
    requires q != [] && Settled(q, ch, tx)
    ensures Settled(q[1..], ch, tx)
  {
    var r := q[1..];
    forall j | 0 <= j < |r| && Announces(r[j], ch) ensures Answers(r, j, tx) {
      assert Announces(q[j + 1], ch);
      var k :| j + 1 <= k < |q| && q[k].Reply? && q[k].tx == tx;
      assert r[k - 1] == q[k];
    }
  }

  lemma SettledAppend(q: seq<Packet>, more: seq<Packet>, ch: Channel, tx: Tx)
    requires Settled(q, ch, tx) && forall p | p in more :: !Announces(p, ch)
    ensures Settled(q + more, ch, tx)
  {
    var r := q + more;
    forall j | |q| <= j < |r| ensures !Announces(r[j], ch) {
      assert r[j] in more;
    }
    forall j | 0 <= j < |q| && Announces(r[j], ch) ensures Answers(r, j, tx) {
      var k :| j <= k < |q| && q[k].Reply? && q[k].tx == tx;
      assert r[k] == q[k];
    }
  }

  lemma SettledByLast(q: seq<Packet>, r: Packet, ch: Channel)
    requires r.Reply?
    ensures Settled(q + [r], ch, r.tx)
  {
    assert (q + [r])[|q|] == r;
  }

  // ----------------------------------------------- runs that leave ch alone

  /** The VM does not stop, and no handler announces ch. */
  ghost predicate QuietAction(s: Sys, a: Action, ch: Channel) {
    && !a.VmStop?
    && (a.VmTake? && Enabled(s, a) ==>
          forall p | p in Handle(s.vm, Q(s.down, VM)[0], a.init, a.made, a.ids).pending :: !Announces(p, ch))
  }

  /** What is announced on ch has a reply to tx behind it, and whether the VM serves ch. */
  ghost predicate Barrier(s: Sys, ch: Channel, tx: Tx, served: bool) {
    && s.vm.mode.Serving? && Settled(VmOut(s), ch, tx)
    && (ch in VmChannels(s.vm) <==> served)
  }

  lemma BarrierStep(s: Sys, a: Action, ch: Channel, tx: Tx, served: bool)
    requires CallsInv(s) && ChannelsInv(s) && Barrier(s, ch, tx, served)
    requires Enabled(s, a) && SafeAction(s, a) && QuietAction(s, a, ch)
    ensures Barrier(Apply(s, a), ch, tx, served)
  {
    match a {
      case BrokerRecv(n) => RecvBarrier(s, n, Apply(s, a), ch, tx, served);
      case VmTake(init, made, ids) => TakeBarrier(s, init, made, ids, ch, tx, served);
      case VmStep(r) =>
        assert VmChannels(Apply(s, a).vm) == VmChannels(s.vm);
        QueueBarrier(s, Apply(s, a), ch, tx, served);
      case VmFlush =>
        FlushVmOut(s, Apply(s, a));
        SameBarrier(s, Apply(s, a), ch, tx, served);
      case VmStop(names, ids) =>
      case VmDrain =>
      case VmLeave(t) =>
      case _ =>
        ClientLeavesVm(s, a);
        SameBarrier(s, Apply(s, a), ch, tx, served);
    }
  }

  lemma SameBarrier(s: Sys, s': Sys, ch: Channel, tx: Tx, served: bool)
    requires Barrier(s, ch, tx, served) && VmOut(s') == VmOut(s) && s'.vm.mode == s.vm.mode
    requires s'.vm.operators == s.vm.operators && s'.vm.factories == s.vm.factories
    requires s'.vm.components == s.vm.components
    ensures Barrier(s', ch, tx, served)
  {
    assert VmChannels(s'.vm) == VmChannels(s.vm);
  }

  lemma RecvBarrier(s: Sys, n: Node, s': Sys, ch: Channel, tx: Tx, served: bool)
    requires Barrier(s, ch, tx, served) && Q(s.up, n) != [] && s'.up == Pop(s.up, n) && s'.vm == s.vm
    ensures Barrier(s', ch, tx, served)
  {
    RecvVmOut(s, n, s');
    if n == VM {
      assert VmOut(s)[1..] == VmOut(s');
      SettledPop(VmOut(s), ch, tx);
    }
  }

  lemma QueueBarrier(s: Sys, s': Sys, ch: Channel, tx: Tx, served: bool)
    requires Barrier(s, ch, tx, served) && s.vm.pending == [] && s'.up == s.up && s'.vm.mode == s.vm.mode
    requires ch in VmChannels(s'.vm) <==> ch in VmChannels(s.vm)
    requires forall p | p in s'.vm.pending :: !Announces(p, ch)
    ensures Barrier(s', ch, tx, served)
  {
    assert VmOut(s) == Q(s.up, VM);
    SettledAppend(Q(s.up, VM), s'.vm.pending, ch, tx);
  }

  /** A handler that does not announce ch does not change whether the VM serves it. */
  lemma TakeBarrier(s: Sys, init: Init, made: Made, ids: seq<Tx>, ch: Channel, tx: Tx, served: bool)
    requires CallsInv(s) && ChannelsInv(s) && Barrier(s, ch, tx, served)
    requires var a := VmTake(init, made, ids); Enabled(s, a) && SafeAction(s, a) && QuietAction(s, a, ch)
    ensures Barrier(Apply(s, VmTake(init, made, ids)), ch, tx, served)
  {
    var p, s' := Q(s.down, VM)[0], Apply(s, VmTake(init, made, ids));
    HandleChannels(s.vm, p, init, made, ids);
    HandleStays(s, init, made, ids, s');
    UntouchedReplay(VmChannels(s.vm), s'.vm.pending, ch);
    QueueBarrier(s, s', ch, tx, served);
  }

  lemma HandleStays(s: Sys, init: Init, made: Made, ids: seq<Tx>, s': Sys)
    requires CallsInv(s) && Enabled(s, VmTake(init, made, ids)) && s' == Apply(s, VmTake(init, made, ids))
    ensures forall p | p in s'.vm.pending :: !p.Disconnect?
    ensures s'.vm == Handle(s.vm, Q(s.down, VM)[0], init, made, ids) && s'.up == s.up
  {
    var p := Q(s.down, VM)[0];
    if p.Execute? {
      var before, r := HandleSends(s.vm, p, init, made, ids);
    }
  }

  /** A channel no packet of the queue announces is in the replayed table iff it is there now. */
  lemma {:induction false} UntouchedReplay(t: set<Channel>, q: seq<Packet>, ch: Channel)
    requires forall p | p in q :: !Announces(p, ch) && !p.Disconnect?
    ensures ch in Replay(t, q) <==> ch in t
    decreases |q|
  {
    if q != [] {
      assert q[0] in q;
      UntouchedReplay(ChannelsAfter(t, q[0]), q[1..], ch);
    }
  }

  // ------------------------------------------------------------ holding a reply

  /** A client holds the finishing reply to tx: it has taken it out of its mailbox. */
  ghost predicate Holds(s: Sys, n: Node, tx: Tx) {
    exists p | p in Replies(Q(s.recvd, n), tx) :: p.Reply? && p.finish
  }

  /** No reply to tx is left on the way then. */
  lemma HeldIsLast(s: Sys, n: Node, tx: Tx)
    requires CallOk(s, tx) && Holds(s, n, tx)
    ensures tx in s.calls && s.calls[tx].origin == n && Replies(VmOut(s), tx) == []
  {
    var p :| p in Replies(Q(s.recvd, n), tx) && p.Reply? && p.finish;
    var held := Replies(Q(s.recvd, n), tx);
    var k :| 0 <= k < |held| && held[k] == p;
    var c := s.calls[tx];
    assert c.outs[k] == p;
    assert k == |c.outs| - 1;
  }

  /** Whoever holds the reply sees the broker agree with the VM on ch. */
  lemma TableIsSettled(s: Sys, n: Node, ch: Channel, tx: Tx, served: bool)
    requires CallsInv(s) && ChannelsInv(s) && Barrier(s, ch, tx, served) && Holds(s, n, tx)
    requires forall p | p in VmOut(s) :: !p.Disconnect?
    ensures ch in s.broker.subs <==> served
  {
    assert CallOk(s, tx);
    HeldIsLast(s, n, tx);
    forall p | p in VmOut(s) ensures !Announces(p, ch) {
      var j :| 0 <= j < |VmOut(s)| && VmOut(s)[j] == p;
      if Announces(p, ch) {
        var k :| j <= k < |VmOut(s)| && VmOut(s)[k].Reply? && VmOut(s)[k].tx == tx;
        HasReply(VmOut(s), tx, VmOut(s)[k]);
      }
    }
    UntouchedReplay(s.broker.subs.Keys, VmOut(s), ch);
  }

  // -------------------------------------------- runs that leave a component alone

  /** The VM does not stop, and takes neither a define of name that it accepts nor a delete of
      name. */
  ghost predicate LeavesAlone(s: Sys, a: Action, name: string) {
    && !a.VmStop?
    && (a.VmTake? && Q(s.down, VM) != [] && Q(s.down, VM)[0].Execute? ==>
          var p := Q(s.down, VM)[0];
          && !(p.instr.DefineComponent? && p.name == name &&
               DefineRefusal(s.vm, p.instr.comptype, p.name, a.made).None?)
          && !(p.instr.DeleteComponent? && p.instr.comp == name))
  }

  ghost function MethodsOf(v: VmState, c: string): Option<seq<string>> {
    if c in v.components then Some(v.components[c]) else None
  }

  lemma LeftAlone(s: Sys, a: Action, name: string)
    requires Enabled(s, a) && LeavesAlone(s, a, name)
    ensures MethodsOf(Apply(s, a).vm, name) == MethodsOf(s.vm, name)
  {
    if a.VmDrain? {
      DrainFields(s);
    }
  }

  /** Everything a handler announces is about the component of its packet. */
  lemma AnnouncesOwn(v: VmState, p: Packet, init: Init, made: Made, ids: seq<Tx>, q: Packet)
    requires Idle(v) && TakeFits(v, p, init, made, ids)
    requires q in Handle(v, p, init, made, ids).pending && (q.Subscribe? || q.Unsubscribe?)
    ensures p.Execute?
    ensures
      || (p.instr.DefineComponent? && DefineRefusal(v, p.instr.comptype, p.name, made).None? &&
          q.instr in ComponentInstrs(p.name, made.methods))
      || (p.instr.DeleteComponent? && p.instr.comp in v.components &&
          q.instr in DeletionInstrs(p.instr.comp, v.components[p.instr.comp]))
  {
  }

  /** While name is left alone, its own channels are: no safe define takes one of them. */
  lemma OwnChannelIsQuiet(s: Sys, a: Action, name: string, ch: Channel)
    requires ChannelsInv(s) && name in s.vm.components && ch in ChannelsOf(name, s.vm.components[name])
    requires Enabled(s, a) && SafeAction(s, a) && LeavesAlone(s, a, name)
    ensures QuietAction(s, a, ch)
  {
    if a.VmTake? {
      var p := Q(s.down, VM)[0];
      assert ch in ComponentChannels(s.vm.components);
      forall q | q in Handle(s.vm, p, a.init, a.made, a.ids).pending && (q.Subscribe? || q.Unsubscribe?)
        ensures ChannelOf(q.instr) != ch
      {
        AnnouncesOwn(s.vm, p, a.init, a.made, a.ids, q);
        if p.instr.DefineComponent? {
          assert ChannelOf(q.instr) in ChannelsOf(p.name, a.made.methods);
        } else {
          ComponentDistinct(p.instr.comp, s.vm.components[p.instr.comp]);
          assert ChannelOf(q.instr) in ChannelSet(DeletionInstrs(p.instr.comp, s.vm.components[p.instr.comp]));
          assert name in s.vm.components.Keys && p.instr.comp in s.vm.components.Keys;
        }
      }
    }
  }

  /** So are channels that no instruction about another component has. */
  lemma UnsharedIsQuiet(s: Sys, a: Action, name: string, i: Instr)
    requires !Shared(i) && (i.DeleteComponent? || i.CallMethod?) && i.comp == name
    requires Enabled(s, a) && LeavesAlone(s, a, name)
    ensures QuietAction(s, a, ChannelOf(i))
  {
    if a.VmTake? {
      var p := Q(s.down, VM)[0];
      forall q | q in Handle(s.vm, p, a.init, a.made, a.ids).pending && (q.Subscribe? || q.Unsubscribe?)
        ensures ChannelOf(q.instr) != ChannelOf(i)
      {
        AnnouncesOwn(s.vm, p, a.init, a.made, a.ids, q);
        assert q.instr != i;
      }
    }
  }
}
