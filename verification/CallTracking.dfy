/** Transactions: every execute packet and every reply is in exactly one place, the broker's
    transaction map holds exactly the calls in transit, and replies are numbered. Each action
    of the step system is shown to keep this for one transaction at a time. */
module CallTracking {
  import opened Values
  import opened Packets
  import opened BrokerModel
  import opened VmModel
  import opened SystemModel

  /** Who sends what. */
  ghost predicate Shape(s: Sys) {
    && (forall n: Node, p | n != VM && p in Q(s.up, n) :: p.Connect? || p.Disconnect? || p.Execute?)
    && (forall p | p in VmOut(s) :: p.Subscribe? || p.Unsubscribe? || p.Reply? || p.Disconnect?)
    && (forall p | p in Q(s.down, VM) :: p.Respond? || p.Execute?)
    && (forall ch | ch in s.broker.subs :: s.broker.subs[ch] == VM)
    && (s.vm.running.Some? ==> s.vm.mode.Serving?)
    && s.calls.Keys <= s.used
  }

  /** Replies are numbered from 0 without gap; `closed` means that the last one finishes, and
      no other does. */
  ghost predicate Numbered(tx: Tx, outs: seq<Packet>, closed: bool) {
    forall k: nat | k < |outs| ::
      && outs[k].Reply? && outs[k].tx == tx && outs[k].index == k
      && (outs[k].finish <==> closed && k == |outs| - 1)
      && (outs[k].out.Fail? ==> outs[k].finish)
  }

  ghost predicate OutsFit(tx: Tx, c: Call) {
    match c.phase
    case Active => Numbered(tx, c.outs, false)
    case Done => c.outs != [] && Numbered(tx, c.outs, true)
    case Refused => |c.outs| == 1 && Numbered(tx, c.outs, true)
    case _ => c.outs == []
  }

  /** Forwarded, and the finishing reply has not passed the broker. */
  ghost predicate InTransit(s: Sys, tx: Tx)
    requires tx in s.calls
  {
    var phase := s.calls[tx].phase;
    phase.Routed? || phase.Active? || phase.Dropped? || (phase.Done? && Replies(VmOut(s), tx) != [])
  }

  /** The execute packet of a call is with the client's mailbox while Asked, with the VM's
      while Routed, and nowhere else. */
  ghost predicate Located(s: Sys, tx: Tx) {
    && (forall n: Node :: ExecCount(Q(s.up, n), tx) ==
          if tx in s.calls && s.calls[tx].phase.Asked? && s.calls[tx].origin == n then 1 else 0)
    && ExecCount(Q(s.down, VM), tx) == (if tx in s.calls && s.calls[tx].phase.Routed? then 1 else 0)
  }

  /** The transaction map: exactly the calls in transit, each mapped to its sender. */
  ghost predicate Tracked(s: Sys, tx: Tx) {
    && (tx in s.broker.trans <==> tx in s.calls && InTransit(s, tx))
    && (tx in s.broker.trans ==> s.broker.trans[tx] == s.calls[tx].origin)
  }

  /** Replies are neither lost nor copied nor reordered: taken by the client, in its mailbox,
      not yet read by the broker. */
  ghost predicate Conserved(s: Sys, tx: Tx) {
    if tx in s.calls then
      var c := s.calls[tx];
      && c.origin != VM
      && c.outs == Replies(Q(s.recvd, c.origin), tx) + Replies(Q(s.down, c.origin), tx) + Replies(VmOut(s), tx)
      && (!c.phase.Active? && !c.phase.Done? ==> Replies(VmOut(s), tx) == [])
      && (forall n: Node | n != c.origin :: Replies(Q(s.down, n), tx) == [] && Replies(Q(s.recvd, n), tx) == [])
    else
      && Replies(VmOut(s), tx) == []
      && (forall n: Node :: Replies(Q(s.down, n), tx) == [] && Replies(Q(s.recvd, n), tx) == [])
  }

  /** At most one call is in the hands of the step loop. */
  ghost predicate Shaped(s: Sys, tx: Tx) {
    && (tx in s.calls ==> OutsFit(tx, s.calls[tx]))
    && ((tx in s.calls && s.calls[tx].phase.Active?) <==> s.vm.running.Some? && s.vm.running.value.tx == tx)
    && (s.vm.running.Some? && s.vm.running.value.tx == tx ==> s.vm.running.value.next == |s.calls[tx].outs|)
  }

  ghost predicate CallOk(s: Sys, tx: Tx) {
    Located(s, tx) && Tracked(s, tx) && Conserved(s, tx) && Shaped(s, tx)
  }

  ghost predicate CallsInv(s: Sys) {
    Shape(s) && forall tx: Tx :: CallOk(s, tx)
  }

  // ------------------------------------------------------------ initial state

  lemma InitCalls(s: Sys)
    requires Initial(s)
    ensures CallsInv(s)
  {
    var ids: seq<Tx>, instrs :| ImportSent(s, ids, instrs);
    forall tx: Tx ensures CallOk(s, tx) {
      NoReplies(VmOut(s), tx);
    }
  }

  // ------------------------------------------------------------ client actions

  /** A client puts a packet in its mailbox. */
  lemma ClientPush(s: Sys, n: Node, p: Packet, s': Sys, tx: Tx)
    requires CallsInv(s) && n != VM && !p.Reply?
    requires s' == s.(up := Push(s.up, n, p), used := s'.used, asked := s'.asked)
    requires p.Execute? ==> p.tx != tx
    ensures CallOk(s', tx)
  {
    assert CallOk(s, tx);
    forall k: Node ensures ExecCount(Q(s'.up, k), tx) == ExecCount(Q(s.up, k), tx) {
      PushCounts(s.up, n, p, k, tx);
    }
    assert VmOut(s') == VmOut(s);
  }

  lemma CallCounts(s: Sys, n: Node, instr: Instr, tx0: Tx, name: string, input: Value, tx: Tx)
    requires CallsInv(s) && Enabled(s, ClientCall(n, tx0, instr, name, input))
    ensures CallOk(CallStep(s, n, tx0, instr, name, input), tx)
  {
    var s', p := CallStep(s, n, tx0, instr, name, input), Execute(tx0, instr, name, input);
    assert CallOk(s, tx);
    assert tx0 !in s.calls;
    forall k: Node
      ensures ExecCount(Q(s'.up, k), tx) == ExecCount(Q(s.up, k), tx) + if k == n && tx == tx0 then 1 else 0
    {
      PushCounts(s.up, n, p, k, tx);
    }
    assert VmOut(s') == VmOut(s);
  }

  /** A client takes a packet from its mailbox. */
  ghost predicate Taken(s: Sys, n: Node, s': Sys) {
    && n != VM && Q(s.down, n) != []
    && s'.down == Pop(s.down, n)
    && s'.recvd == (if Q(s.down, n)[0].Reply? then Push(s.recvd, n, Q(s.down, n)[0]) else s.recvd)
    && s'.broker == s.broker && s'.vm == s.vm && s'.up == s.up && s'.calls == s.calls
  }

  lemma TakeCounts(s: Sys, n: Node, s': Sys, tx: Tx)
    requires CallOk(s, tx) && Taken(s, n, s')
    ensures CallOk(s', tx)
  {
    assert VmOut(s') == VmOut(s);
    assert Q(s'.down, VM) == Q(s.down, VM);
    forall k: Node ensures Moved(s, s', n, Q(s.down, n)[0], k, tx) {
      PopCounts(s.down, n, k, tx);
      PushCounts(s.recvd, n, Q(s.down, n)[0], k, tx);
    }
    TakeConserved(s, s', n, tx);
    assert Located(s', tx);
    assert Tracked(s', tx);
    assert Shaped(s', tx);
  }

  /** p went from the mailbox of n to what n has received. */
  ghost predicate Moved(s: Sys, s': Sys, n: Node, p: Packet, k: Node, tx: Tx) {
    var moved := if k == n && p.Reply? && p.tx == tx then [p] else [];
    && Replies(Q(s.down, k), tx) == moved + Replies(Q(s'.down, k), tx)
    && Replies(Q(s'.recvd, k), tx) == Replies(Q(s.recvd, k), tx) + moved
  }

  lemma TakeConserved(s: Sys, s': Sys, n: Node, tx: Tx)
    requires Conserved(s, tx) && s'.calls == s.calls && VmOut(s') == VmOut(s)
    requires Q(s.down, n) != [] && forall k: Node :: Moved(s, s', n, Q(s.down, n)[0], k, tx)
    ensures Conserved(s', tx)
  {
    var p := Q(s.down, n)[0];
    forall k: Node ensures
      Replies(Q(s.recvd, k), tx) + Replies(Q(s.down, k), tx) == Replies(Q(s'.recvd, k), tx) + Replies(Q(s'.down, k), tx)
    {
      assert Moved(s, s', n, p, k, tx);
      var moved := if k == n && p.Reply? && p.tx == tx then [p] else [];
      Reassociate(Replies(Q(s.recvd, k), tx), moved, Replies(Q(s'.down, k), tx));
    }
    forall k: Node | Replies(Q(s.down, k), tx) == [] && Replies(Q(s.recvd, k), tx) == []
      ensures Replies(Q(s'.down, k), tx) == [] && Replies(Q(s'.recvd, k), tx) == []
    {
      assert Moved(s, s', n, p, k, tx);
    }
  }

  lemma Reassociate<T>(a: seq<T>, b: seq<T>, c: seq<T>)
    ensures a + (b + c) == (a + b) + c
  {
  }

  // ---------------------------------------------------------- the broker's step

  ghost predicate Received(s: Sys, n: Node, s': Sys) {
    Q(s.up, n) != [] &&
    var p := Q(s.up, n)[0];
    var (b, o) := Route(s.broker, n, p);
    && s'.broker == b && s'.up == Pop(s.up, n)
    && s'.down == (if o.Some? then Push(s.down, o.value.to, o.value.pkt) else s.down)
    && s'.calls == NoteRouted(s, p)
    && s'.vm == s.vm && s'.recvd == s.recvd
  }

  lemma RecvVmOut(s: Sys, n: Node, s': Sys)
    requires Q(s.up, n) != [] && s'.up == Pop(s.up, n) && s'.vm == s.vm
    ensures VmOut(s) == (if n == VM then [Q(s.up, n)[0]] else []) + VmOut(s')
  {
  }

  /** The packet read neither is nor causes an execute packet or a reply for tx. */
  lemma RecvElsewhere(s: Sys, n: Node, s': Sys, to: Node, pkt: Packet, tx: Tx)
    requires CallOk(s, tx) && Q(s.up, n) != [] && s'.up == Pop(s.up, n) && s'.down == Push(s.down, to, pkt)
    requires s'.vm == s.vm && s'.recvd == s.recvd
    requires (tx in s'.calls <==> tx in s.calls) && (tx in s.calls ==> s'.calls[tx] == s.calls[tx])
    requires (tx in s'.broker.trans <==> tx in s.broker.trans)
    requires tx in s.broker.trans ==> s'.broker.trans[tx] == s.broker.trans[tx]
    requires forall p | p in {Q(s.up, n)[0], pkt} && (p.Execute? || p.Reply?) :: p.tx != tx
    ensures CallOk(s', tx)
  {
    RecvVmOut(s, n, s');
    RepliesAppend(if n == VM then [Q(s.up, n)[0]] else [], VmOut(s'), tx);
    assert Replies(VmOut(s'), tx) == Replies(VmOut(s), tx);
    forall k: Node ensures
      && ExecCount(Q(s'.up, k), tx) == ExecCount(Q(s.up, k), tx)
      && ExecCount(Q(s'.down, k), tx) == ExecCount(Q(s.down, k), tx)
      && Replies(Q(s'.down, k), tx) == Replies(Q(s.down, k), tx)
    {
      PopCounts(s.up, n, k, tx);
      PushCounts(s.down, to, pkt, k, tx);
    }
  }

  /** An execute packet the broker reads is that of a call its reader asked for. */
  lemma ReadCall(s: Sys, n: Node)
    requires CallsInv(s) && Q(s.up, n) != [] && Q(s.up, n)[0].Execute?
    ensures n != VM
    ensures var tx := Q(s.up, n)[0].tx; tx in s.calls && s.calls[tx].phase.Asked? && s.calls[tx].origin == n
  {
    var p := Q(s.up, n)[0];
    HasExec(Q(s.up, n), p);
    assert CallOk(s, p.tx);
    assert p in VmOut(s) || n != VM;
  }

  lemma RecvForwards(s: Sys, n: Node, s': Sys)
    requires Shape(s) && Received(s, n, s') && n != VM && Q(s.up, n)[0].Execute?
    requires var tx := Q(s.up, n)[0].tx;
      CallOk(s, tx) && tx in s.calls && s.calls[tx].phase.Asked? && s.calls[tx].origin == n
    requires ChannelOf(Q(s.up, n)[0].instr) in s.broker.subs
    ensures CallOk(s', Q(s.up, n)[0].tx)
  {
    var p := Q(s.up, n)[0];
    var tx := p.tx;
    assert VmOut(s') == VmOut(s);
    forall k: Node ensures
      && ExecCount(Q(s.up, k), tx) == ExecCount(Q(s'.up, k), tx) + (if k == n then 1 else 0)
      && ExecCount(Q(s'.down, k), tx) == ExecCount(Q(s.down, k), tx) + (if k == VM then 1 else 0)
      && Replies(Q(s'.down, k), tx) == Replies(Q(s.down, k), tx)
    {
      PopCounts(s.up, n, k, tx);
      PushCounts(s.down, VM, p, k, tx);
    }
  }

  lemma RecvRefuses(s: Sys, n: Node, s': Sys)
    requires Shape(s) && Received(s, n, s') && n != VM && Q(s.up, n)[0].Execute?
    requires var tx := Q(s.up, n)[0].tx;
      CallOk(s, tx) && tx in s.calls && s.calls[tx].phase.Asked? && s.calls[tx].origin == n
    requires ChannelOf(Q(s.up, n)[0].instr) !in s.broker.subs
    ensures CallOk(s', Q(s.up, n)[0].tx)
  {
    var p := Q(s.up, n)[0];
    var fail := FailReply(p.tx, 0, "There is no channel can handle this request");
    assert VmOut(s') == VmOut(s);
    RefuseCounts(s, n, s', p, fail);
    RefusedConserved(s, n, s', p.tx, fail);
  }

  lemma RefusedConserved(s: Sys, n: Node, s': Sys, tx: Tx, fail: Packet)
    requires Conserved(s, tx) && Shaped(s, tx) && tx in s.calls && s.calls[tx].phase.Asked? && s.calls[tx].origin == n
    requires VmOut(s') == VmOut(s) && s'.recvd == s.recvd
    requires s'.calls == s.calls[tx := s.calls[tx].(phase := Refused, outs := s.calls[tx].outs + [fail])]
    requires forall k: Node :: Replies(Q(s'.down, k), tx) == Replies(Q(s.down, k), tx) + (if k == n then [fail] else [])
    ensures Conserved(s', tx)
  {
    assert [] + ([] + [fail]) + [] == [fail];
  }

  lemma RefuseCounts(s: Sys, n: Node, s': Sys, p: Packet, fail: Packet)
    requires Q(s.up, n) != [] && p == Q(s.up, n)[0] && p.Execute? && fail.Reply? && fail.tx == p.tx
    requires s'.up == Pop(s.up, n) && s'.down == Push(s.down, n, fail)
    ensures forall k: Node ::
      && ExecCount(Q(s.up, k), p.tx) == ExecCount(Q(s'.up, k), p.tx) + (if k == n then 1 else 0)
      && ExecCount(Q(s'.down, k), p.tx) == ExecCount(Q(s.down, k), p.tx)
      && Replies(Q(s'.down, k), p.tx) == Replies(Q(s.down, k), p.tx) + (if k == n then [fail] else [])
  {
    forall k: Node ensures
      && ExecCount(Q(s.up, k), p.tx) == ExecCount(Q(s'.up, k), p.tx) + (if k == n then 1 else 0)
      && ExecCount(Q(s'.down, k), p.tx) == ExecCount(Q(s.down, k), p.tx)
      && Replies(Q(s'.down, k), p.tx) == Replies(Q(s.down, k), p.tx) + (if k == n then [fail] else [])
    {
      PopCounts(s.up, n, k, p.tx);
      PushCounts(s.down, n, fail, k, p.tx);
    }
  }

  /** No reply of the VM ever finds its transaction missing: the broker has the caller. */
  lemma ReadReply(s: Sys, n: Node)
    requires CallsInv(s) && Q(s.up, n) != [] && Q(s.up, n)[0].Reply?
    ensures n == VM
    ensures var tx := Q(s.up, n)[0].tx;
      tx in s.calls && tx in s.broker.trans && s.broker.trans[tx] == s.calls[tx].origin
      && (s.calls[tx].phase.Active? || s.calls[tx].phase.Done?)
  {
    var p := Q(s.up, n)[0];
    assert n == VM by {
      assert n != VM ==> p.Connect? || p.Disconnect? || p.Execute?;
    }
    assert p in VmOut(s);
    HasReply(VmOut(s), p.tx, p);
    assert CallOk(s, p.tx);
  }

  lemma RecvRelays(s: Sys, s': Sys)
    requires Received(s, VM, s') && Q(s.up, VM)[0].Reply?
    requires var tx := Q(s.up, VM)[0].tx;
      CallOk(s, tx) && tx in s.calls && tx in s.broker.trans && s.broker.trans[tx] == s.calls[tx].origin
      && (s.calls[tx].phase.Active? || s.calls[tx].phase.Done?)
    ensures CallOk(s', Q(s.up, VM)[0].tx)
  {
    var p := Q(s.up, VM)[0];
    var tx, to := p.tx, s.calls[p.tx].origin;
    RelayCounts(s, s', to);
    RelayConserves(s, s', tx, p);
    var past := Replies(Q(s.recvd, to), tx) + Replies(Q(s.down, to), tx);
    RelayEnds(tx, s.calls[tx], past, p, Replies(VmOut(s'), tx));
    assert s'.broker.trans == if p.finish then s.broker.trans - {tx} else s.broker.trans;
    assert Tracked(s', tx);
  }

  lemma RelayConserves(s: Sys, s': Sys, tx: Tx, p: Packet)
    requires Conserved(s, tx) && tx in s.calls && s'.calls == s.calls && s'.recvd == s.recvd
    requires s.calls[tx].phase.Active? || s.calls[tx].phase.Done?
    requires Replies(VmOut(s), tx) == [p] + Replies(VmOut(s'), tx)
    requires forall k: Node ::
      Replies(Q(s'.down, k), tx) == Replies(Q(s.down, k), tx) + (if k == s.calls[tx].origin then [p] else [])
    ensures Conserved(s', tx)
    ensures var to := s.calls[tx].origin;
      s.calls[tx].outs == Replies(Q(s.recvd, to), tx) + Replies(Q(s.down, to), tx) + ([p] + Replies(VmOut(s'), tx))
  {
    var to := s.calls[tx].origin;
    HandOver(Replies(Q(s.recvd, to), tx), Replies(Q(s.down, to), tx), p, Replies(VmOut(s'), tx));
    assert Replies(Q(s'.down, to), tx) == Replies(Q(s.down, to), tx) + [p];
  }

  lemma HandOver<T>(a: seq<T>, b: seq<T>, x: T, c: seq<T>)
    ensures a + b + ([x] + c) == a + (b + [x]) + c
  {
  }

  lemma RelayCounts(s: Sys, s': Sys, to: Node)
    requires Q(s.up, VM) != [] && s'.up == Pop(s.up, VM) && s'.vm == s.vm
    requires Q(s.up, VM)[0].Reply? && s'.down == Push(s.down, to, Q(s.up, VM)[0])
    ensures var p := Q(s.up, VM)[0];
      && Replies(VmOut(s), p.tx) == [p] + Replies(VmOut(s'), p.tx)
      && forall k: Node ::
        && ExecCount(Q(s'.up, k), p.tx) == ExecCount(Q(s.up, k), p.tx)
        && ExecCount(Q(s'.down, k), p.tx) == ExecCount(Q(s.down, k), p.tx)
        && Replies(Q(s'.down, k), p.tx) == Replies(Q(s.down, k), p.tx) + (if k == to then [p] else [])
  {
    var p := Q(s.up, VM)[0];
    RecvVmOut(s, VM, s');
    RepliesAppend([p], VmOut(s'), p.tx);
    assert Replies([p], p.tx) == [p] + Replies([], p.tx);
    forall k: Node ensures
      && ExecCount(Q(s'.up, k), p.tx) == ExecCount(Q(s.up, k), p.tx)
      && ExecCount(Q(s'.down, k), p.tx) == ExecCount(Q(s.down, k), p.tx)
      && Replies(Q(s'.down, k), p.tx) == Replies(Q(s.down, k), p.tx) + (if k == to then [p] else [])
    {
      PopCounts(s.up, VM, k, p.tx);
      PushCounts(s.down, to, p, k, p.tx);
    }
  }

  /** A finishing reply is the last one sent. */
  lemma RelayEnds(tx: Tx, c: Call, past: seq<Packet>, p: Packet, rest: seq<Packet>)
    requires OutsFit(tx, c) && (c.phase.Active? || c.phase.Done?) && c.outs == past + ([p] + rest)
    ensures p.Reply? && (p.finish <==> c.phase.Done? && rest == [])
  {
    assert c.outs[|past|] == p;
  }

  lemma RecvKeeps(s: Sys, n: Node, s': Sys, tx: Tx)
    requires CallsInv(s) && Received(s, n, s')
    ensures CallOk(s', tx)
  {
    var p := Q(s.up, n)[0];
    assert CallOk(s, tx) && CallOk(s, p.tx);
    if p.Execute? {
      RecvExecute(s, n, s', tx);
    } else if p.Reply? {
      RecvReply(s, n, s', tx);
    } else {
      assert p.Respond? ==> p in VmOut(s) || n != VM;
      RecvElsewhere(s, n, s', n, Route(s.broker, n, p).1.value.pkt, tx);
    }
  }

  lemma RecvExecute(s: Sys, n: Node, s': Sys, tx: Tx)
    requires CallsInv(s) && Received(s, n, s') && Q(s.up, n)[0].Execute?
    ensures CallOk(s', tx)
  {
    var p := Q(s.up, n)[0];
    assert CallOk(s, tx) && CallOk(s, p.tx);
    ReadCall(s, n);
    if tx != p.tx {
      var o := Route(s.broker, n, p).1.value;
      RecvElsewhere(s, n, s', o.to, o.pkt, tx);
    } else if ChannelOf(p.instr) in s.broker.subs {
      RecvForwards(s, n, s');
    } else {
      RecvRefuses(s, n, s');
    }
  }

  lemma RecvReply(s: Sys, n: Node, s': Sys, tx: Tx)
    requires CallsInv(s) && Received(s, n, s') && Q(s.up, n)[0].Reply?
    ensures CallOk(s', tx)
  {
    var p := Q(s.up, n)[0];
    assert CallOk(s, tx) && CallOk(s, p.tx);
    ReadReply(s, n);
    if tx != p.tx {
      RecvElsewhere(s, n, s', s.broker.trans[p.tx], p, tx);
    } else {
      RecvRelays(s, s');
    }
  }

  // ------------------------------------------------------------- the VM's steps

  /** Nothing but the VM's own state and mailbox has changed. */
  ghost predicate VmOnly(s: Sys, s': Sys) {
    && s'.broker == s.broker && s'.up == s.up && s'.recvd == s.recvd
    && (s'.down == s.down || (Q(s.down, VM) != [] && s'.down == Pop(s.down, VM)))
    && s.vm.pending == []
  }

  /** A step of the VM that does not concern tx. */
  lemma VmElsewhere(s: Sys, s': Sys, tx: Tx)
    requires CallOk(s, tx) && VmOnly(s, s')
    requires s'.down != s.down && Q(s.down, VM)[0].Execute? ==> Q(s.down, VM)[0].tx != tx
    requires s'.down != s.down ==> !Q(s.down, VM)[0].Reply?
    requires (tx in s'.calls <==> tx in s.calls) && (tx in s.calls ==> s'.calls[tx] == s.calls[tx])
    requires Replies(s'.vm.pending, tx) == []
    requires s'.vm.running == s.vm.running
          || ((s.vm.running.Some? ==> s.vm.running.value.tx != tx) &&
              (s'.vm.running.Some? ==> s'.vm.running.value.tx != tx))
    ensures CallOk(s', tx)
  {
    assert VmOut(s) == Q(s.up, VM);
    RepliesAppend(Q(s.up, VM), s'.vm.pending, tx);
    assert Replies(VmOut(s'), tx) == Replies(VmOut(s), tx) + [];
    if s'.down != s.down {
      forall k: Node ensures
        && ExecCount(Q(s'.down, k), tx) == ExecCount(Q(s.down, k), tx)
        && Replies(Q(s'.down, k), tx) == Replies(Q(s.down, k), tx)
      {
        PopCounts(s.down, VM, k, tx);
      }
    }
  }

  lemma {:induction false} AnnouncementsAreNoReplies(ids: seq<Tx>, instrs: seq<Instr>, tx: Tx)
    requires |ids| == |instrs|
    ensures Replies(Subscriptions(ids, instrs), tx) == [] == Replies(Unsubscriptions(ids, instrs), tx)
  {
    NoReplies(Subscriptions(ids, instrs), tx);
    NoReplies(Unsubscriptions(ids, instrs), tx);
  }

  ghost predicate SendOnly(q: seq<Packet>) {
    forall p | p in q :: p.Subscribe? || p.Unsubscribe? || p.Reply?
  }

  /** What a handler sends: announcements, then one reply, number 0, that finishes the call. */
  lemma HandleSends(v: VmState, p: Packet, init: Init, made: Made, ids: seq<Tx>)
    returns (before: seq<Packet>, r: Packet)
    requires Idle(v) && p.Execute? && TakeFits(v, p, init, made, ids)
    ensures Sends(v, p.tx, init, Handle(v, p, init, made, ids), before, r)
  {
    match p.instr {
      case CallFunction(op) => before, r := RunSends(v, p.tx, init, CallsFunction(v, p.tx, op, init));
      case CallMethod(comp, op) => before, r := RunSends(v, p.tx, init, CallsMethod(v, p.tx, comp, op, init));
      case DefineComponent(comptype) => before, r := DefineSends(v, p.tx, comptype, p.name, made, ids, init);
      case DeleteComponent(comp) => before, r := DeleteSends(v, p.tx, comp, ids, init);
    }
  }

  ghost predicate Sends(v: VmState, tx: Tx, init: Init, v': VmState, before: seq<Packet>, r: Packet) {
    && v'.mode == v.mode
    && if v'.running.Some? then
        init.Ready? && v'.running.value == Run(tx, 0, init.state) && v'.pending == []
      else
        && v'.pending == before + [r]
        && (forall q | q in before :: q.Subscribe? || q.Unsubscribe?)
        && r.Reply? && r.tx == tx && r.index == 0 && r.finish
  }

  lemma RunSends(v: VmState, tx: Tx, init: Init, v': VmState) returns (before: seq<Packet>, r: Packet)
    requires Idle(v) && (v' == Start(v, tx, init) || exists reason :: v' == Refuse(v, tx, reason))
    ensures Sends(v, tx, init, v', before, r)
  {
    before, r := [], if v'.pending == [] then FailReply(tx, 0, "") else v'.pending[0];
  }

  lemma DefineSends(v: VmState, tx: Tx, comptype: string, name: string, made: Made, ids: seq<Tx>, init: Init)
    returns (before: seq<Packet>, r: Packet)
    requires Idle(v)
    requires DefineRefusal(v, comptype, name, made).None? ==> |ids| == |made.methods| + 1
    ensures Sends(v, tx, init, Defines(v, tx, comptype, name, made, ids), before, r)
  {
    var refusal := DefineRefusal(v, comptype, name, made);
    if refusal.Some? {
      before, r := [], FailReply(tx, 0, refusal.value);
    } else {
      before, r := Subscriptions(ids, ComponentInstrs(name, made.methods)), Reply(tx, 0, true, EMPTY_MAP);
    }
  }

  lemma DeleteSends(v: VmState, tx: Tx, comp: string, ids: seq<Tx>, init: Init)
    returns (before: seq<Packet>, r: Packet)
    requires Idle(v) && (comp in v.components ==> |ids| == |v.components[comp]| + 1)
    ensures Sends(v, tx, init, Deletes(v, tx, comp, ids), before, r)
  {
    if comp !in v.components {
      before, r := [], FailReply(tx, 0, "Component not exists: " + comp);
    } else {
      before, r := Unsubscriptions(ids, DeletionInstrs(comp, v.components[comp])), Reply(tx, 0, true, EMPTY_MAP);
    }
  }

  lemma OneReply(before: seq<Packet>, r: Packet, tx: Tx)
    requires (forall q | q in before :: q.Subscribe? || q.Unsubscribe?) && r.Reply?
    ensures Replies(before + [r], tx) == if r.tx == tx then [r] else []
  {
    RepliesAppend(before, [r], tx);
    NoReplies(before, tx);
    assert [r][1..] == [];
  }

  /** A handler either starts the step loop or answers the call it has taken at once. */
  lemma HandleEffect(v: VmState, p: Packet, init: Init, made: Made, ids: seq<Tx>, tx: Tx)
    requires Idle(v) && p.Execute? && TakeFits(v, p, init, made, ids)
    ensures var v' := Handle(v, p, init, made, ids);
      && SendOnly(v'.pending)
      && v'.mode == v.mode
      && if v'.running.Some? then
          init.Ready? && v'.running.value == Run(p.tx, 0, init.state) && v'.pending == []
        else
          && (tx != p.tx ==> Replies(v'.pending, tx) == [])
          && |Replies(v'.pending, p.tx)| == 1 && Numbered(p.tx, Replies(v'.pending, p.tx), true)
  {
    var before, r := HandleSends(v, p, init, made, ids);
    if Handle(v, p, init, made, ids).running.None? {
      OneReply(before, r, tx);
      OneReply(before, r, p.tx);
    }
  }

  ghost predicate Took(s: Sys, init: Init, made: Made, ids: seq<Tx>, s': Sys) {
    && s.vm.mode.Serving? && Idle(s.vm) && Q(s.down, VM) != [] && TakeFits(s.vm, Q(s.down, VM)[0], init, made, ids)
    && s'.vm == Handle(s.vm, Q(s.down, VM)[0], init, made, ids)
    && s'.calls == NoteTaken(s, Q(s.down, VM)[0], s'.vm, init)
    && s'.down == Pop(s.down, VM) && VmOnly(s, s')
  }

  /** The execute packet the VM takes is that of a call the broker forwarded. */
  lemma TakenCall(s: Sys)
    requires CallsInv(s) && Q(s.down, VM) != [] && Q(s.down, VM)[0].Execute?
    ensures var tx := Q(s.down, VM)[0].tx; tx in s.calls && s.calls[tx].phase.Routed?
  {
    var p := Q(s.down, VM)[0];
    HasExec(Q(s.down, VM), p);
    assert CallOk(s, p.tx);
  }

  lemma TakeStarts(s: Sys, init: Init, made: Made, ids: seq<Tx>, s': Sys)
    requires Took(s, init, made, ids, s') && Q(s.down, VM)[0].Execute?
    requires var tx := Q(s.down, VM)[0].tx; CallOk(s, tx) && tx in s.calls && s.calls[tx].phase.Routed?
    ensures CallOk(s', Q(s.down, VM)[0].tx)
  {
    var p := Q(s.down, VM)[0];
    var tx := p.tx;
    var c, c', before, sent := s.calls[tx], s'.calls[tx], Replies(VmOut(s), tx), Replies(s'.vm.pending, tx);
    HandleEffect(s.vm, p, init, made, ids, tx);
    assert VmOut(s) == Q(s.up, VM);
    RepliesAppend(Q(s.up, VM), s'.vm.pending, tx);
    forall k: Node ensures
      && ExecCount(Q(s.down, k), tx) == ExecCount(Q(s'.down, k), tx) + (if k == VM then 1 else 0)
      && Replies(Q(s'.down, k), tx) == Replies(Q(s.down, k), tx)
    {
      PopCounts(s.down, VM, k, tx);
    }
    if s'.vm.running.Some? {
      assert sent == [] && before + sent == before;
    } else {
      assert c.outs == [] && before == [] && before + sent == sent;
      assert c'.outs == [] + sent == sent;
      var a, b := Replies(Q(s.recvd, c.origin), tx), Replies(Q(s.down, c.origin), tx);
      assert a == [] && b == [] && a + b + sent == sent;
    }
  }

  lemma TookKeeps(s: Sys, init: Init, made: Made, ids: seq<Tx>, s': Sys, tx: Tx)
    requires CallsInv(s) && Took(s, init, made, ids, s')
    ensures CallOk(s', tx)
  {
    var p := Q(s.down, VM)[0];
    assert CallOk(s, tx) && CallOk(s, p.tx);
    assert p in Q(s.down, VM);
    if p.Execute? {
      TakenCall(s);
      if tx == p.tx {
        TakeStarts(s, init, made, ids, s');
      } else {
        HandleEffect(s.vm, p, init, made, ids, tx);
        VmElsewhere(s, s', tx);
      }
    } else {
      VmElsewhere(s, s', tx);
    }
  }

  /** One round of the step loop. */
  lemma StepKeeps(s: Sys, r: StepResult, s': Sys, tx: Tx)
    requires CallsInv(s) && s.vm.pending == [] && s.vm.running.Some? && VmOnly(s, s') && s'.down == s.down
    requires s'.vm == Emits(s.vm, r)
    requires var t := s.vm.running.value.tx;
      t in s.calls ==> s'.calls == s.calls[t := StepNoted(s.calls[t], s'.vm, t, r)]
    ensures CallOk(s', tx)
  {
    var run := s.vm.running.value;
    var reply := ReplyOf(run.tx, run.next, r);
    assert CallOk(s, tx) && CallOk(s, run.tx);
    assert [reply][1..] == [];
    assert Replies([reply], tx) == (if run.tx == tx then [reply] else []) + Replies([], tx);
    if tx != run.tx {
      VmElsewhere(s, s', tx);
    } else {
      StepSends(s, r, s');
    }
  }

  lemma StepSends(s: Sys, r: StepResult, s': Sys)
    requires s.vm.pending == [] && s.vm.running.Some? && VmOnly(s, s') && s'.down == s.down
    requires s'.vm == Emits(s.vm, r)
    requires var t := s.vm.running.value.tx;
      CallOk(s, t) && t in s.calls && s'.calls == s.calls[t := StepNoted(s.calls[t], s'.vm, t, r)]
    ensures CallOk(s', s.vm.running.value.tx)
  {
    var run := s.vm.running.value;
    var tx, reply := run.tx, ReplyOf(run.tx, run.next, r);
    var c := s.calls[tx];
    assert [reply][1..] == [];
    assert Replies([reply], tx) == [reply] + Replies([], tx) == [reply];
    assert VmOut(s) == Q(s.up, VM);
    RepliesAppend(Q(s.up, VM), [reply], tx);
    assert s'.calls[tx].outs == c.outs + [reply];
    var past := Replies(Q(s.recvd, c.origin), tx) + Replies(Q(s.down, c.origin), tx);
    Reassociate(past, Replies(VmOut(s), tx), [reply]);
    assert Conserved(s', tx);
    StepFits(tx, c, run.next, r, s'.calls[tx]);
    assert Tracked(s', tx) && Shaped(s', tx);
  }

  lemma StepFits(tx: Tx, c: Call, next: nat, r: StepResult, c': Call)
    requires c.phase.Active? && OutsFit(tx, c) && next == |c.outs|
    requires c'.outs == c.outs + [ReplyOf(tx, next, r)] && c'.phase == if Last(r) then Done else Active
    ensures OutsFit(tx, c')
  {
  }

  /** One packet goes from the running handler to the mailbox. */
  lemma FlushKeeps(s: Sys, s': Sys, tx: Tx)
    requires CallsInv(s) && s.vm.pending != []
    requires s' == s.(vm := s.vm.(pending := s.vm.pending[1..]), up := Push(s.up, VM, s.vm.pending[0]))
    ensures CallOk(s', tx)
  {
    assert CallOk(s, tx);
    FlushVmOut(s, s');
    assert s.vm.pending[0] in VmOut(s);
    forall k: Node ensures ExecCount(Q(s'.up, k), tx) == ExecCount(Q(s.up, k), tx) {
      PushCounts(s.up, VM, s.vm.pending[0], k, tx);
    }
  }

  lemma FlushVmOut(s: Sys, s': Sys)
    requires s.vm.pending != []
    requires s' == s.(vm := s.vm.(pending := s.vm.pending[1..]), up := Push(s.up, VM, s.vm.pending[0]))
    ensures VmOut(s') == VmOut(s)
  {
    assert s.vm.pending == [s.vm.pending[0]] + s.vm.pending[1..];
  }

  lemma DrainKeeps(s: Sys, s': Sys, tx: Tx)
    requires CallsInv(s) && s.vm.mode.Draining? && Idle(s.vm) && Q(s.down, VM) != [] && s' == DrainStep(s)
    ensures CallOk(s', tx)
  {
    var p := Q(s.down, VM)[0];
    assert CallOk(s, tx);
    assert p in Q(s.down, VM);
    if p.Execute? {
      TakenCall(s);
    }
    if p.Execute? && p.tx == tx {
      Drops(s, s', tx);
    } else {
      VmElsewhere(s, s', tx);
    }
  }

  lemma Drops(s: Sys, s': Sys, tx: Tx)
    requires CallOk(s, tx) && Q(s.down, VM) != [] && s'.down == Pop(s.down, VM) && Q(s.down, VM)[0].Execute?
    requires Q(s.down, VM)[0].tx == tx && tx in s.calls && s.calls[tx].phase.Routed?
    requires s'.calls == s.calls[tx := s.calls[tx].(phase := Dropped)]
    requires s'.broker == s.broker && s'.up == s.up && s'.recvd == s.recvd && s'.vm == s.vm
    ensures CallOk(s', tx)
  {
    assert VmOut(s') == VmOut(s);
    forall k: Node ensures
      && ExecCount(Q(s.down, k), tx) == ExecCount(Q(s'.down, k), tx) + (if k == VM then 1 else 0)
      && Replies(Q(s'.down, k), tx) == Replies(Q(s.down, k), tx)
    {
      PopCounts(s.down, VM, k, tx);
    }
  }

  // ----------------------------------------------------------- every action

  lemma RecvShape(s: Sys, n: Node, s': Sys)
    requires CallsInv(s) && Received(s, n, s') && s'.used == s.used
    ensures Shape(s')
  {
    var p := Q(s.up, n)[0];
    assert CallOk(s, p.tx);
    if p.Execute? {
      ReadCall(s, n);
    } else if p.Reply? {
      ReadReply(s, n);
    } else {
      assert p.Respond? ==> p in VmOut(s) || n != VM;
    }
    RecvDown(s, n, s');
    RecvUp(s, n, s');
    assert forall ch | ch in s'.broker.subs :: s'.broker.subs[ch] == VM;
  }

  lemma RecvUp(s: Sys, n: Node, s': Sys)
    requires Shape(s) && Q(s.up, n) != [] && s'.up == Pop(s.up, n) && s'.vm == s.vm
    ensures forall k: Node, q | k != VM && q in Q(s'.up, k) :: q.Connect? || q.Disconnect? || q.Execute?
    ensures forall q | q in VmOut(s') :: q.Subscribe? || q.Unsubscribe? || q.Reply? || q.Disconnect?
  {
    RecvVmOut(s, n, s');
    forall k: Node, q | q in Q(s'.up, k) ensures q in Q(s.up, k) {}
    forall q | q in VmOut(s') ensures q in VmOut(s) {}
  }

  /** Only responses and forwarded executes reach the VM. */
  lemma RecvDown(s: Sys, n: Node, s': Sys)
    requires Shape(s) && Received(s, n, s')
    requires var p := Q(s.up, n)[0];
      && (p.Reply? ==> p.tx in s.broker.trans && s.broker.trans[p.tx] != VM)
      && (p.Execute? ==> n != VM)
    ensures forall q | q in Q(s'.down, VM) :: q.Respond? || q.Execute?
  {
  }

  lemma TookShape(s: Sys, init: Init, made: Made, ids: seq<Tx>, s': Sys)
    requires CallsInv(s) && Took(s, init, made, ids, s') && s.used <= s'.used
    ensures Shape(s')
  {
    var p := Q(s.down, VM)[0];
    assert p in Q(s.down, VM);
    if p.Execute? {
      TakenCall(s);
      HandleEffect(s.vm, p, init, made, ids, p.tx);
    }
    assert VmOut(s) == Q(s.up, VM);
    forall q | q in VmOut(s') ensures q.Subscribe? || q.Unsubscribe? || q.Reply? || q.Disconnect? {
      assert q in VmOut(s) || q in s'.vm.pending;
    }
  }

  lemma PendingShape(s: Sys, s': Sys)
    requires Shape(s) && s.vm.pending == [] && s'.broker == s.broker && s'.up == s.up && s'.down == s.down
    requires forall p | p in s'.vm.pending :: p.Subscribe? || p.Unsubscribe? || p.Reply? || p.Disconnect?
    requires s'.vm.running.Some? ==> s'.vm.mode.Serving?
    requires s'.calls.Keys <= s'.used
    ensures Shape(s')
  {
    assert VmOut(s) == Q(s.up, VM);
  }

  lemma ClientShape(s: Sys, n: Node, p: Packet, s': Sys)
    requires Shape(s) && n != VM && (p.Connect? || p.Disconnect? || p.Execute?)
    requires s'.broker == s.broker && s'.up == Push(s.up, n, p) && s'.down == s.down && s'.vm == s.vm
    requires s'.calls.Keys <= s'.used
    ensures Shape(s')
  {
    assert VmOut(s') == VmOut(s);
    forall k: Node, q | k != VM && q in Q(s'.up, k) ensures q.Connect? || q.Disconnect? || q.Execute? {
      assert q in Q(s.up, k) || q == p;
    }
  }

  lemma TakenShape(s: Sys, n: Node, s': Sys)
    requires Shape(s) && Taken(s, n, s') && s'.used == s.used
    ensures Shape(s')
  {
    assert VmOut(s') == VmOut(s) && Q(s'.down, VM) == Q(s.down, VM);
    forall k: Node, p | k != VM && p in Q(s'.up, k) ensures p.Connect? || p.Disconnect? || p.Execute? {
      assert p in Q(s.up, k);
    }
  }

  lemma ShapeStep(s: Sys, a: Action)
    requires CallsInv(s) && Enabled(s, a)
    ensures Shape(Apply(s, a))
  {
    match a {
      case Accept(n) => SameQueuesShape(s, Apply(s, a));
      case ClientConnect(n, tx) => ClientShape(s, n, Connect(tx), Apply(s, a));
      case ClientDisconnect(n, tx) => ClientShape(s, n, Disconnect(tx), Apply(s, a));
      case ClientCall(n, tx, instr, name, input) => CallShape(s, n, tx, instr, name, input);
      case BrokerRecv(n) => RecvShape(s, n, Apply(s, a));
      case ClientTake(n) => TakenShape(s, n, Apply(s, a));
      case ClientNext(n, tx) => SameQueuesShape(s, Apply(s, a));
      case _ => VmShapeStep(s, a);
    }
  }

  lemma CallShape(s: Sys, n: Node, tx: Tx, instr: Instr, name: string, input: Value)
    requires Shape(s) && n != VM
    ensures Shape(CallStep(s, n, tx, instr, name, input))
  {
    ClientShape(s, n, Execute(tx, instr, name, input), CallStep(s, n, tx, instr, name, input));
  }

  lemma SameQueuesShape(s: Sys, s': Sys)
    requires Shape(s) && s'.broker.subs == s.broker.subs && s'.up == s.up && s'.down == s.down && s'.vm == s.vm
    requires s'.calls == s.calls && s'.used == s.used
    ensures Shape(s')
  {
    assert VmOut(s') == VmOut(s);
    forall k: Node, p | k != VM && p in Q(s'.up, k) ensures p.Connect? || p.Disconnect? || p.Execute? {
      assert p in Q(s.up, k);
    }
  }

  lemma VmShapeStep(s: Sys, a: Action)
    requires CallsInv(s) && Enabled(s, a)
    requires a.VmTake? || a.VmStep? || a.VmFlush? || a.VmStop? || a.VmDrain? || a.VmLeave?
    ensures Shape(Apply(s, a))
  {
    match a {
      case VmTake(init, made, ids) => TookShape(s, init, made, ids, Apply(s, a));
      case VmStep(r) => StepShape(s, r);
      case VmFlush => FlushShape(s, Apply(s, a));
      case VmStop(names, ids) => StopShape(s, names, ids);
      case VmDrain => DrainActionShape(s);
      case VmLeave(tx) => LeaveShape(s, tx);
    }
  }

  lemma DrainActionShape(s: Sys)
    requires Shape(s) && Enabled(s, VmDrain)
    ensures Shape(Apply(s, VmDrain))
  {
    DrainFields(s);
    DrainShape(s, DrainStep(s));
  }

  lemma DrainFields(s: Sys)
    requires Idle(s.vm) && Q(s.down, VM) != []
    ensures var s' := DrainStep(s);
      && s'.down == Pop(s.down, VM) && s'.broker == s.broker && s'.up == s.up && s'.used == s.used
      && s'.vm.pending == s.vm.pending && s'.vm.running == s.vm.running && s'.calls.Keys == s.calls.Keys
  {
  }

  lemma LeaveShape(s: Sys, tx: Tx)
    requires Shape(s) && Enabled(s, VmLeave(tx))
    ensures Shape(Apply(s, VmLeave(tx)))
  {
    PendingShape(s, Apply(s, VmLeave(tx)));
  }

  lemma StepShape(s: Sys, r: StepResult)
    requires CallsInv(s) && Enabled(s, VmStep(r))
    ensures Shape(Apply(s, VmStep(r)))
  {
    assert CallOk(s, s.vm.running.value.tx);
    PendingShape(s, Apply(s, VmStep(r)));
  }

  lemma StopShape(s: Sys, names: seq<string>, ids: seq<Tx>)
    requires Shape(s) && Enabled(s, VmStop(names, ids))
    ensures Shape(Apply(s, VmStop(names, ids)))
  {
    PendingShape(s, Apply(s, VmStop(names, ids)));
  }

  lemma FlushShape(s: Sys, s': Sys)
    requires Shape(s) && s.vm.pending != []
    requires s' == s.(vm := s.vm.(pending := s.vm.pending[1..]), up := Push(s.up, VM, s.vm.pending[0]))
    ensures Shape(s')
  {
    FlushVmOut(s, s');
    forall k: Node, p | k != VM && p in Q(s'.up, k) ensures p.Connect? || p.Disconnect? || p.Execute? {
      assert p in Q(s.up, k);
    }
  }

  lemma DrainShape(s: Sys, s': Sys)
    requires Shape(s) && Q(s.down, VM) != [] && s'.down == Pop(s.down, VM) && s'.broker == s.broker && s'.up == s.up
    requires s'.vm.pending == s.vm.pending && s'.vm.running.None? && s'.calls.Keys <= s'.used
    ensures Shape(s')
  {
    assert VmOut(s') == VmOut(s);
    forall p | p in Q(s'.down, VM) ensures p in Q(s.down, VM) {}
    forall k: Node, p | k != VM && p in Q(s'.up, k) ensures p.Connect? || p.Disconnect? || p.Execute? {
      assert p in Q(s.up, k);
    }
  }

  lemma CallOkStep(s: Sys, a: Action, tx: Tx)
    requires CallsInv(s) && Enabled(s, a)
    ensures CallOk(Apply(s, a), tx)
  {
    match a {
      case VmTake(init, made, ids) => TookKeeps(s, init, made, ids, Apply(s, a), tx);
      case VmStep(r) =>
        assert CallOk(s, s.vm.running.value.tx);
        StepKeeps(s, r, Apply(s, a), tx);
      case VmFlush => FlushKeeps(s, Apply(s, a), tx);
      case VmStop(names, ids) => StopKeeps(s, names, ids, tx);
      case VmDrain => DrainKeeps(s, Apply(s, a), tx);
      case VmLeave(t) => LeaveKeeps(s, t, tx);
      case _ => OthersKeep(s, a, tx);
    }
  }

  lemma StopKeeps(s: Sys, names: seq<string>, ids: seq<Tx>, tx: Tx)
    requires CallsInv(s) && Enabled(s, VmStop(names, ids))
    ensures CallOk(Apply(s, VmStop(names, ids)), tx)
  {
    assert CallOk(s, tx);
    AnnouncementsAreNoReplies(ids, StopInstrs(s.vm, names), tx);
    VmElsewhere(s, Apply(s, VmStop(names, ids)), tx);
  }

  lemma LeaveKeeps(s: Sys, t: Tx, tx: Tx)
    requires CallsInv(s) && Enabled(s, VmLeave(t))
    ensures CallOk(Apply(s, VmLeave(t)), tx)
  {
    assert CallOk(s, tx);
    assert [Disconnect(t)][1..] == [];
    VmElsewhere(s, Apply(s, VmLeave(t)), tx);
  }

  /** The clients' actions and the broker's. */
  lemma OthersKeep(s: Sys, a: Action, tx: Tx)
    requires CallsInv(s) && Enabled(s, a)
    requires !a.VmTake? && !a.VmStep? && !a.VmFlush? && !a.VmStop? && !a.VmDrain? && !a.VmLeave?
    ensures CallOk(Apply(s, a), tx)
  {
    var s' := Apply(s, a);
    assert CallOk(s, tx);
    match a {
      case Accept(n) => BystanderKeeps(s, a, tx);
      case ClientConnect(n, t) => ClientPush(s, n, Connect(t), s', tx);
      case ClientDisconnect(n, t) => ClientPush(s, n, Disconnect(t), s', tx);
      case ClientCall(n, t, instr, name, input) => CallCounts(s, n, instr, t, name, input, tx);
      case BrokerRecv(n) => RecvKeeps(s, n, s', tx);
      case ClientTake(n) => TakeCounts(s, n, s', tx);
      case ClientNext(n, t) => BystanderKeeps(s, a, tx);
    }
  }

  lemma BystanderKeeps(s: Sys, a: Action, tx: Tx)
    requires CallsInv(s) && Enabled(s, a) && (a.Accept? || a.ClientNext?)
    ensures CallOk(Apply(s, a), tx)
  {
    assert CallOk(s, tx);
    assert VmOut(Apply(s, a)) == VmOut(s);
  }

  /** Every action keeps the bookkeeping of every call. */
  lemma CallsStep(s: Sys, a: Action)
    requires CallsInv(s) && Enabled(s, a)
    ensures CallsInv(Apply(s, a))
  {
    ShapeStep(s, a);
    forall tx: Tx ensures CallOk(Apply(s, a), tx) {
      CallOkStep(s, a, tx);
    }
  }
}
