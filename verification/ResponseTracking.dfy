/** The VM's expected_responses: exactly the announcements the broker has not answered, and
    the answers the VM has not taken. */
module ResponseTracking {
  import opened Packets
  import opened BrokerModel
  import opened VmModel
  import opened SystemModel
  import opened CallTracking
  import opened ChannelTracking

  /** The transactions of the subscribe and unsubscribe packets in a queue. */
  ghost function Announced(q: seq<Packet>): multiset<Tx> {
    if q == [] then multiset{}
    else (if q[0].Subscribe? || q[0].Unsubscribe? then multiset{q[0].tx} else multiset{}) + Announced(q[1..])
  }

  /** The transactions of the respond packets in a queue. */
  ghost function Answered(q: seq<Packet>): multiset<Tx> {
    if q == [] then multiset{}
    else (if q[0].Respond? then multiset{q[0].tx} else multiset{}) + Answered(q[1..])
  }

  /** The equation counts with multiplicity: every announcement is expected once, answered
      once and checked off once. It holds until the VM leaves. */
  ghost predicate ResponsesInv(s: Sys) {
    && s.vm.expected <= s.used
    && (forall p | p in VmOut(s) && p.Disconnect? :: s.vm.mode.Stopped?)
    && (!s.vm.mode.Stopped? ==> multiset(s.vm.expected) == Announced(VmOut(s)) + Answered(Q(s.down, VM)))
  }

  lemma {:induction false} AnnouncedAppend(a: seq<Packet>, b: seq<Packet>)
    ensures Announced(a + b) == Announced(a) + Announced(b)
  {
    if a == [] {
      assert a + b == b;
    } else {
      assert (a + b)[1..] == a[1..] + b;
      AnnouncedAppend(a[1..], b);
    }
  }

  lemma {:induction false} AnsweredAppend(a: seq<Packet>, b: seq<Packet>)
    ensures Answered(a + b) == Answered(a) + Answered(b)
  {
    if a == [] {
      assert a + b == b;
    } else {
      assert (a + b)[1..] == a[1..] + b;
      AnsweredAppend(a[1..], b);
    }
  }

  lemma {:induction false} SubscribedIds(ids: seq<Tx>, instrs: seq<Instr>)
    requires |ids| == |instrs|
    ensures Announced(Subscriptions(ids, instrs)) == multiset(ids)
    decreases |ids|
  {
    if ids != [] {
      var q := Subscriptions(ids, instrs);
      assert q[0].Subscribe? && q[0].tx == ids[0] && q[1..] == Subscriptions(ids[1..], instrs[1..]);
      SubscribedIds(ids[1..], instrs[1..]);
      assert ids == [ids[0]] + ids[1..];
    }
  }

  lemma {:induction false} UnsubscribedIds(ids: seq<Tx>, instrs: seq<Instr>)
    requires |ids| == |instrs|
    ensures Announced(Unsubscriptions(ids, instrs)) == multiset(ids)
    decreases |ids|
  {
    if ids != [] {
      var q := Unsubscriptions(ids, instrs);
      assert q[0].Unsubscribe? && q[0].tx == ids[0] && q[1..] == Unsubscriptions(ids[1..], instrs[1..]);
      UnsubscribedIds(ids[1..], instrs[1..]);
      assert ids == [ids[0]] + ids[1..];
    }
  }

  lemma AnnouncedThenReply(before: seq<Packet>, r: Packet)
    requires r.Reply?
    ensures Announced(before + [r]) == Announced(before)
  {
    AnnouncedAppend(before, [r]);
    assert [r][1..] == [];
  }

  /** Fresh ids extend the set of expected ones, each once. */
  lemma {:induction false} FreshIdsCount(expected: set<Tx>, ids: seq<Tx>)
    requires NoDup(ids) && forall id | id in ids :: id !in expected
    ensures multiset(expected + SetOf(ids)) == multiset(expected) + multiset(ids)
    decreases |ids|
  {
    if ids == [] {
      assert expected + SetOf(ids) == expected;
    } else {
      assert ids == [ids[0]] + ids[1..];
      FreshIdsCount(expected + {ids[0]}, ids[1..]);
      assert expected + {ids[0]} + SetOf(ids[1..]) == expected + SetOf(ids);
    }
  }

  lemma InitResponses(s: Sys)
    requires Initial(s)
    ensures ResponsesInv(s)
  {
    var ids: seq<Tx>, instrs :| ImportSent(s, ids, instrs);
    SubscribedIds(ids, instrs);
    FreshIdsCount({}, ids);
    assert {} + SetOf(ids) == SetOf(ids);
    assert VmOut(s) == Subscriptions(ids, instrs);
  }

  lemma RecvResponses(s: Sys, n: Node, s': Sys)
    requires CallsInv(s) && ResponsesInv(s) && Received(s, n, s') && s'.used == s.used
    ensures ResponsesInv(s')
  {
    var p := Q(s.up, n)[0];
    RecvVmOut(s, n, s');
    if n == VM {
      assert VmOut(s)[0] == p && VmOut(s)[1..] == VmOut(s');
      assert p in VmOut(s);
      if p.Reply? {
        ReadReply(s, n);
        assert CallOk(s, p.tx);
      }
    } else {
      assert p.Connect? || p.Disconnect? || p.Execute?;
    }
    RecvAnswered(s, n, s');
    forall q | q in VmOut(s') && q.Disconnect? ensures s'.vm.mode.Stopped? {
      assert q in VmOut(s);
    }
  }

  /** The broker answers each announcement of the VM exactly once, and nothing else. */
  lemma RecvAnswered(s: Sys, n: Node, s': Sys)
    requires Received(s, n, s')
    requires var p := Q(s.up, n)[0];
      && (p.Reply? ==> p.tx in s.broker.trans && s.broker.trans[p.tx] != VM)
      && (n == VM ==> p.Subscribe? || p.Unsubscribe? || p.Reply? || p.Disconnect?)
      && (n != VM ==> p.Connect? || p.Disconnect? || p.Execute?)
    ensures var p := Q(s.up, n)[0];
      Answered(Q(s'.down, VM)) == Answered(Q(s.down, VM)) +
        if n == VM && !p.Reply? then multiset{p.tx} else multiset{}
  {
    var p := Q(s.up, n)[0];
    RouteAnswers(s.broker, n, p);
    PushedAnswer(s.down, Route(s.broker, n, p).1, s'.down, n, p);
  }

  /** What the broker answers to whom. */
  ghost predicate AnswersOnce(o: Option<Send>, n: Node, p: Packet) {
    if n == VM && !p.Reply? then o.Some? && o.value.to == VM && o.value.pkt.Respond? && o.value.pkt.tx == p.tx
    else o.Some? ==> o.value.to != VM || !o.value.pkt.Respond?
  }

  lemma RouteAnswers(b: BrokerState, n: Node, p: Packet)
    requires p.Reply? ==> p.tx in b.trans && b.trans[p.tx] != VM
    requires n == VM ==> p.Subscribe? || p.Unsubscribe? || p.Reply? || p.Disconnect?
    requires n != VM ==> p.Connect? || p.Disconnect? || p.Execute?
    ensures AnswersOnce(Route(b, n, p).1, n, p)
  {
  }

  lemma PushedAnswer(m: Queues, o: Option<Send>, m': Queues, n: Node, p: Packet)
    requires AnswersOnce(o, n, p) && m' == if o.Some? then Push(m, o.value.to, o.value.pkt) else m
    ensures Answered(Q(m', VM)) == Answered(Q(m, VM)) + if n == VM && !p.Reply? then multiset{p.tx} else multiset{}
  {
    if o.Some? {
      PushAnswered(m, o.value.to, o.value.pkt);
    }
  }

  lemma PushAnswered(m: Queues, n: Node, p: Packet)
    ensures Answered(Q(Push(m, n, p), VM)) == Answered(Q(m, VM)) +
      if n == VM && p.Respond? then multiset{p.tx} else multiset{}
  {
    if n == VM {
      AnsweredAppend(Q(m, VM), [p]);
      assert [p][1..] == [];
    }
  }

  lemma HandleAnnounces(v: VmState, p: Packet, init: Init, made: Made, ids: seq<Tx>)
    requires Idle(v) && TakeFits(v, p, init, made, ids) && p.Execute?
    ensures NewlyAnnounced(v, Handle(v, p, init, made, ids), ids)
  {
    if p.instr.DefineComponent? && DefineRefusal(v, p.instr.comptype, p.name, made).None? {
      DefineAnnounces(v, p.tx, p.instr.comptype, p.name, made, ids);
    } else if p.instr.DeleteComponent? && p.instr.comp in v.components {
      DeleteAnnounces(v, p.tx, p.instr.comp, ids);
    } else {
      HandlesQuietly(v, p, init, made, ids);
    }
  }

  ghost predicate NewlyAnnounced(v: VmState, v': VmState, ids: seq<Tx>) {
    && Announced(v'.pending) == multiset(ids) && v'.expected == v.expected + SetOf(ids) && v'.mode == v.mode
    && forall q | q in v'.pending :: !q.Disconnect?
  }

  lemma DefineAnnounces(v: VmState, tx: Tx, comptype: string, name: string, made: Made, ids: seq<Tx>)
    requires DefineRefusal(v, comptype, name, made).None? && |ids| == |made.methods| + 1
    ensures NewlyAnnounced(v, Defines(v, tx, comptype, name, made, ids), ids)
  {
    var instrs := ComponentInstrs(name, made.methods);
    SubscribedIds(ids, instrs);
    AnnouncedThenReply(Subscriptions(ids, instrs), Reply(tx, 0, true, EMPTY_MAP));
  }

  lemma DeleteAnnounces(v: VmState, tx: Tx, comp: string, ids: seq<Tx>)
    requires comp in v.components && |ids| == |v.components[comp]| + 1
    ensures NewlyAnnounced(v, Deletes(v, tx, comp, ids), ids)
  {
    var instrs := DeletionInstrs(comp, v.components[comp]);
    UnsubscribedIds(ids, instrs);
    AnnouncedThenReply(Unsubscriptions(ids, instrs), Reply(tx, 0, true, EMPTY_MAP));
  }

  lemma HandlesQuietly(v: VmState, p: Packet, init: Init, made: Made, ids: seq<Tx>)
    requires Idle(v) && TakeFits(v, p, init, made, ids) && p.Execute?
    requires p.instr.DefineComponent? ==> DefineRefusal(v, p.instr.comptype, p.name, made).Some?
    requires p.instr.DeleteComponent? ==> p.instr.comp !in v.components
    ensures NewlyAnnounced(v, Handle(v, p, init, made, ids), ids)
  {
    QuietPending(v, p, init, made, ids);
    var v' := Handle(v, p, init, made, ids);
    if v'.pending != [] {
      AnnouncedThenReply([], v'.pending[0]);
      assert [] + [v'.pending[0]] == v'.pending;
    }
    assert v.expected + SetOf(ids) == v.expected;
  }

  lemma QuietPending(v: VmState, p: Packet, init: Init, made: Made, ids: seq<Tx>)
    requires Idle(v) && TakeFits(v, p, init, made, ids) && p.Execute?
    requires p.instr.DefineComponent? ==> DefineRefusal(v, p.instr.comptype, p.name, made).Some?
    requires p.instr.DeleteComponent? ==> p.instr.comp !in v.components
    ensures var v' := Handle(v, p, init, made, ids);
      && ids == [] && v'.expected == v.expected && v'.mode == v.mode
      && (v'.pending == [] || (|v'.pending| == 1 && v'.pending[0].Reply?))
  {
  }

  /** The VM queues announcements with fresh ids, having taken a packet that is no response. */
  lemma VmAnnounces(s: Sys, s': Sys, ids: seq<Tx>)
    requires ResponsesInv(s) && s.vm.pending == [] && s'.up == s.up && FreshIds(s, ids)
    requires Answered(Q(s'.down, VM)) == Answered(Q(s.down, VM))
    requires Announced(s'.vm.pending) == multiset(ids) && s'.vm.expected == s.vm.expected + SetOf(ids)
    requires s'.used == s.used + SetOf(ids) && (s.vm.mode.Stopped? ==> s'.vm.mode.Stopped?)
    requires forall q | q in s'.vm.pending :: !q.Disconnect?
    ensures ResponsesInv(s')
  {
    assert VmOut(s) == Q(s.up, VM);
    AnnouncedAppend(Q(s.up, VM), s'.vm.pending);
    FreshIdsCount(s.vm.expected, ids);
  }

  /** The VM takes a response and checks it off. */
  lemma VmChecksOff(s: Sys, s': Sys)
    requires ResponsesInv(s) && Q(s.down, VM) != [] && Q(s.down, VM)[0].Respond?
    requires VmOut(s') == VmOut(s) && s'.down == Pop(s.down, VM) && s'.used == s.used && s'.vm.mode == s.vm.mode
    requires s'.vm.expected == s.vm.expected - {Q(s.down, VM)[0].tx}
    ensures ResponsesInv(s')
  {
    var tx := Q(s.down, VM)[0].tx;
    if !s.vm.mode.Stopped? {
      assert multiset(s.vm.expected)[tx] == (Announced(VmOut(s)) + Answered(Q(s.down, VM)))[tx] > 0;
      assert multiset(s.vm.expected - {tx}) == multiset(s.vm.expected) - multiset{tx};
    }
  }

  lemma TakeResponses(s: Sys, init: Init, made: Made, ids: seq<Tx>)
    requires CallsInv(s) && ResponsesInv(s) && Enabled(s, VmTake(init, made, ids))
    ensures ResponsesInv(Apply(s, VmTake(init, made, ids)))
  {
    var p, s' := Q(s.down, VM)[0], Apply(s, VmTake(init, made, ids));
    assert p in Q(s.down, VM);
    if p.Execute? {
      HandleAnnounces(s.vm, p, init, made, ids);
      VmAnnounces(s, s', ids);
    } else {
      assert VmOut(s') == VmOut(s);
      assert SetOf(ids) == {};
      VmChecksOff(s, s');
    }
  }

  lemma StepResponses(s: Sys, r: StepResult)
    requires ResponsesInv(s) && Enabled(s, VmStep(r))
    ensures ResponsesInv(Apply(s, VmStep(r)))
  {
    var s' := Apply(s, VmStep(r));
    assert s'.vm.pending[1..] == [];
    assert SetOf([]) == {};
    VmAnnounces(s, s', []);
  }

  lemma StopResponses(s: Sys, names: seq<string>, ids: seq<Tx>)
    requires ResponsesInv(s) && Enabled(s, VmStop(names, ids))
    ensures ResponsesInv(Apply(s, VmStop(names, ids)))
  {
    UnsubscribedIds(ids, StopInstrs(s.vm, names));
    VmAnnounces(s, Apply(s, VmStop(names, ids)), ids);
  }

  lemma DrainResponses(s: Sys)
    requires CallsInv(s) && ResponsesInv(s) && Enabled(s, VmDrain)
    ensures ResponsesInv(Apply(s, VmDrain))
  {
    DrainFields(s);
    var s' := DrainStep(s);
    if Q(s.down, VM)[0].Respond? {
      assert VmOut(s') == VmOut(s);
      VmChecksOff(s, s');
    } else {
      assert VmOut(s') == VmOut(s);
      assert s'.vm == s.vm;
    }
  }

  lemma SameResponses(s: Sys, s': Sys)
    requires ResponsesInv(s) && VmOut(s') == VmOut(s) && Q(s'.down, VM) == Q(s.down, VM)
    requires s'.vm.expected == s.vm.expected && s'.vm.mode == s.vm.mode && s.used <= s'.used
    ensures ResponsesInv(s')
  {
  }

  lemma ResponsesStep(s: Sys, a: Action)
    requires CallsInv(s) && ResponsesInv(s) && Enabled(s, a)
    ensures ResponsesInv(Apply(s, a))
  {
    match a {
      case BrokerRecv(n) => RecvResponses(s, n, Apply(s, a));
      case VmTake(init, made, ids) => TakeResponses(s, init, made, ids);
      case VmStep(r) => StepResponses(s, r);
      case VmFlush =>
        FlushVmOut(s, Apply(s, a));
        SameResponses(s, Apply(s, a));
      case VmStop(names, ids) => StopResponses(s, names, ids);
      case VmDrain => DrainResponses(s);
      case VmLeave(tx) =>
      case _ =>
        ClientLeavesVm(s, a);
        SameResponses(s, Apply(s, a));
    }
  }

  /** Once both queues are empty nothing is expected any more. */
  lemma NothingExpected(s: Sys)
    requires ResponsesInv(s) && !s.vm.mode.Stopped? && VmOut(s) == [] && Q(s.down, VM) == []
    ensures s.vm.expected == {}
  {
    assert multiset(s.vm.expected) == multiset{};
    forall tx ensures tx !in s.vm.expected {
      assert multiset(s.vm.expected)[tx] == 0;
    }
  }
}
