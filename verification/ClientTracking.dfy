/** The clients' runtimes inside the whole system: every runtime is in a state its reassembly
    theorems speak about, with exactly the replies its client has taken. */
module ClientTracking {
  import opened Values
  import opened Packets
  import opened VmModel
  import opened RuntimeModel
  import opened SystemModel
  import opened CallTracking

  ghost predicate OnlyReplies(q: seq<Packet>) {
    forall k | 0 <= k < |q| :: q[k].Reply?
  }

  /** The replies of a queue, by transaction and index. */
  ghost function GotOf(q: seq<Packet>): Got
    requires OnlyReplies(q)
  {
    if q == [] then map[] else Arrive(GotOf(q[..|q| - 1]), q[|q| - 1])
  }

  lemma GotGrows(q: seq<Packet>, p: Packet)
    requires OnlyReplies(q) && p.Reply?
    ensures GotOf(q + [p]) == Arrive(GotOf(q), p)
  {
    assert (q + [p])[..|q|] == q;
  }

  ghost predicate InOrder(rs: seq<Packet>) {
    forall k: nat | k < |rs| :: rs[k].Reply? && rs[k].index == k
  }

  /** What is known of tx are the replies rs, each under its index. */
  ghost predicate Knows(got: Got, tx: Tx, rs: seq<Packet>) {
    && (forall i: nat :: (tx, i) in got <==> i < |rs|)
    && (forall i: nat | i < |rs| :: got[(tx, i)] == rs[i])
  }

  lemma ArriveKnows(got: Got, p: Packet, tx: Tx, rs: seq<Packet>)
    requires Knows(got, tx, rs) && p.Reply? && (p.tx == tx ==> p.index == |rs|)
    ensures Knows(Arrive(got, p), tx, rs + if p.tx == tx then [p] else [])
  {
  }

  lemma {:induction false} GotIsReplies(q: seq<Packet>, tx: Tx)
    requires OnlyReplies(q) && InOrder(Replies(q, tx))
    ensures Knows(GotOf(q), tx, Replies(q, tx))
  {
    if q != [] {
      var n := |q| - 1;
      RepliesLast(q, tx);
      var before, all := Replies(q[..n], tx), Replies(q, tx);
      assert forall k: nat | k < |before| :: before[k] == all[k];
      GotIsReplies(q[..n], tx);
      assert q[n].tx == tx ==> all[|before|] == q[n];
      ArriveKnows(GotOf(q[..n]), q[n], tx, before);
    }
  }

  lemma RepliesLast(q: seq<Packet>, tx: Tx)
    requires q != [] && OnlyReplies(q)
    ensures var p := q[|q| - 1]; Replies(q, tx) == Replies(q[..|q| - 1], tx) + if p.tx == tx then [p] else []
  {
    var p := q[|q| - 1];
    assert q == q[..|q| - 1] + [p];
    RepliesAppend(q[..|q| - 1], [p], tx);
    assert Replies([p], tx) == (if p.tx == tx then [p] else []) + Replies([], tx);
  }

  /** n's runtime knows exactly n's calls, and has seen exactly the replies n took. */
  ghost predicate ClientOk(s: Sys, n: Node) {
    && OnlyReplies(Q(s.recvd, n)) && RtInv(Rt(s, n), GotOf(Q(s.recvd, n)))
    && Mirrors(Rt(s, n), s.calls, n)
  }

  ghost predicate Mirrors(rt: RtState, calls: map<Tx, Call>, n: Node) {
    && (forall tx :: tx in rt.iters <==> tx in calls && calls[tx].origin == n)
    && (forall tx | tx in rt.iters ::
          rt.iters[tx].many <==> calls[tx].instr.CallFunction? || calls[tx].instr.CallMethod?)
  }

  ghost predicate ClientsInv(s: Sys) {
    forall n: Node | n != VM :: ClientOk(s, n)
  }

  lemma InitClients(s: Sys)
    requires Initial(s)
    ensures ClientsInv(s)
  {
    FreshInv();
  }

  // ------------------------------------------------------------- one client

  /** What the record of a call keeps for good. */
  ghost predicate OriginsKept(calls: map<Tx, Call>, calls': map<Tx, Call>) {
    && calls'.Keys == calls.Keys
    && forall tx | tx in calls :: calls'[tx].origin == calls[tx].origin && calls'[tx].instr == calls[tx].instr
  }

  lemma Elsewhere(s: Sys, s': Sys, n: Node)
    requires ClientOk(s, n) && OriginsKept(s.calls, s'.calls)
    requires Q(s'.recvd, n) == Q(s.recvd, n) && Rt(s', n) == Rt(s, n)
    ensures ClientOk(s', n)
  {
  }

  lemma NextKeepsIters(rt: RtState, tx: Tx)
    requires Wf(rt) && tx in rt.iters
    ensures var rt' := NextAsked(rt, tx);
      rt'.iters.Keys == rt.iters.Keys && forall t | t in rt.iters :: rt'.iters[t].many == rt.iters[t].many
  {
  }

  lemma NextClient(s: Sys, n: Node, tx: Tx)
    requires ClientOk(s, n) && Enabled(s, ClientNext(n, tx))
    ensures ClientOk(Apply(s, ClientNext(n, tx)), n)
  {
    NextKeeps(Rt(s, n), GotOf(Q(s.recvd, n)), tx);
    NextKeepsIters(Rt(s, n), tx);
  }

  lemma OpenedKeeps(rt: RtState, got: Got, tx: Tx, many: bool)
    requires RtInv(rt, got) && tx !in rt.iters
    ensures RtInv(Opened(rt, tx, many), got)
  {
    OpenKeeps(rt, got, tx, many);
    if !many {
      NextKeeps(Open(rt, tx, many), got, tx);
    }
  }

  lemma OpenedIters(rt: RtState, tx: Tx, many: bool)
    requires Wf(Open(rt, tx, many)) && tx !in rt.iters
    ensures var rt' := Opened(rt, tx, many);
      && rt'.iters.Keys == rt.iters.Keys + {tx} && rt'.iters[tx].many == many
      && forall t | t in rt.iters :: rt'.iters[t].many == rt.iters[t].many
  {
    if !many {
      NextKeepsIters(Open(rt, tx, many), tx);
    }
  }

  lemma OpenedMirrors(rt: RtState, rt': RtState, calls: map<Tx, Call>, n: Node, tx: Tx, c: Call)
    requires Mirrors(rt, calls, n) && tx !in calls && c.origin == n && rt'.iters.Keys == rt.iters.Keys + {tx}
    requires rt'.iters[tx].many <==> c.instr.CallFunction? || c.instr.CallMethod?
    requires forall t | t in rt.iters :: rt'.iters[t].many == rt.iters[t].many
    ensures Mirrors(rt', calls[tx := c], n)
  {
  }

  lemma CallClient(s: Sys, n: Node, tx: Tx, instr: Instr, name: string, input: Value, k: Node)
    requires ClientOk(s, k) && tx !in s.calls
    ensures ClientOk(CallStep(s, n, tx, instr, name, input), k)
  {
    if k == n {
      var rt, many := Rt(s, n), instr.CallFunction? || instr.CallMethod?;
      OpenKeeps(rt, GotOf(Q(s.recvd, n)), tx, many);
      OpenedKeeps(rt, GotOf(Q(s.recvd, n)), tx, many);
      OpenedIters(rt, tx, many);
      OpenedMirrors(rt, Opened(rt, tx, many), s.calls, n, tx, Call(n, instr, name, input, Asked, [], None, []));
    }
  }

  /** A reply a client takes is new to it, and to a call of its own. */
  lemma TakenReply(s: Sys, n: Node)
    requires CallsInv(s) && OnlyReplies(Q(s.recvd, n)) && Q(s.down, n) != [] && Q(s.down, n)[0].Reply?
    ensures var p := Q(s.down, n)[0];
      && p.tx in s.calls && s.calls[p.tx].origin == n
      && (p.tx, p.index) !in GotOf(Q(s.recvd, n))
  {
    var p := Q(s.down, n)[0];
    assert CallOk(s, p.tx);
    HasReply(Q(s.down, n), p.tx, p);
    var had, c := Replies(Q(s.recvd, n), p.tx), s.calls[p.tx];
    assert forall k: nat | k < |had| :: had[k] == c.outs[k];
    assert c.outs[|had|] == p;
    GotIsReplies(Q(s.recvd, n), p.tx);
  }

  lemma TakeClient(s: Sys, n: Node)
    requires CallsInv(s) && ClientOk(s, n) && Enabled(s, ClientTake(n))
    ensures ClientOk(TakeStep(s, n), n)
  {
    if Q(s.down, n)[0].Reply? {
      TakenReply(s, n);
      TakeReplyClient(s, n, Q(s.down, n)[0], TakeStep(s, n));
    }
  }

  lemma TakeReplyClient(s: Sys, n: Node, p: Packet, s': Sys)
    requires ClientOk(s, n) && p.Reply? && (p.tx, p.index) !in GotOf(Q(s.recvd, n)) && p.tx in Rt(s, n).iters
    requires s'.calls == s.calls && Q(s'.recvd, n) == Q(s.recvd, n) + [p] && Rt(s', n) == RegisterResponse(Rt(s, n), p)
    ensures ClientOk(s', n)
  {
    GotGrows(Q(s.recvd, n), p);
    ArrivalKeeps(Rt(s, n), GotOf(Q(s.recvd, n)), p);
    RegisterKeepsIters(Rt(s, n), p);
  }

  lemma RegisterKeepsIters(rt: RtState, p: Packet)
    requires Wf(rt) && p.Reply?
    ensures var rt' := RegisterResponse(rt, p);
      rt'.iters.Keys == rt.iters.Keys && forall t | t in rt.iters :: rt'.iters[t].many == rt.iters[t].many
  {
  }

  // ----------------------------------------------------------------- a step

  lemma RecvKeepsOrigins(s: Sys, p: Packet)
    ensures OriginsKept(s.calls, NoteRouted(s, p))
  {
  }

  lemma TakeKeepsOrigins(s: Sys, p: Packet, v: VmState, init: Init)
    ensures OriginsKept(s.calls, NoteTaken(s, p, v, init))
  {
  }

  lemma OthersLeaveOrigins(s: Sys, a: Action)
    requires CallsInv(s) && Enabled(s, a) && !a.ClientCall?
    ensures OriginsKept(s.calls, Apply(s, a).calls)
  {
    match a {
      case BrokerRecv(n) => RecvKeepsOrigins(s, Q(s.up, n)[0]);
      case VmTake(init, made, ids) =>
        var p := Q(s.down, VM)[0];
        TakeKeepsOrigins(s, p, Handle(s.vm, p, init, made, ids), init);
      case VmDrain => DrainKeepsOrigins(s);
      case VmStep(r) => assert CallOk(s, s.vm.running.value.tx);
      case _ =>
    }
  }

  lemma DrainKeepsOrigins(s: Sys)
    requires Q(s.down, VM) != []
    ensures OriginsKept(s.calls, DrainStep(s).calls)
  {
  }

  lemma ClientsStep(s: Sys, a: Action)
    requires CallsInv(s) && ClientsInv(s) && Enabled(s, a)
    ensures ClientsInv(Apply(s, a))
  {
    forall k: Node | k != VM ensures ClientOk(Apply(s, a), k) {
      ClientStep(s, a, k);
    }
  }

  lemma ClientStep(s: Sys, a: Action, k: Node)
    requires CallsInv(s) && ClientOk(s, k) && k != VM && Enabled(s, a)
    ensures ClientOk(Apply(s, a), k)
  {
    if a.ClientCall? {
      CallClient(s, a.n, a.tx, a.instr, a.name, a.input, k);
    } else if a.ClientTake? && a.n == k {
      TakeClient(s, k);
    } else if a.ClientNext? && a.n == k {
      NextClient(s, k, a.tx);
    } else {
      OthersLeaveOrigins(s, a);
      OthersLeaveRuntime(s, a, k);
      Elsewhere(s, Apply(s, a), k);
    }
  }

  lemma OthersLeaveRuntime(s: Sys, a: Action, k: Node)
    requires Enabled(s, a) && !a.ClientCall? && !((a.ClientTake? || a.ClientNext?) && a.n == k)
    ensures Q(Apply(s, a).recvd, k) == Q(s.recvd, k) && Rt(Apply(s, a), k) == Rt(s, k)
  {
  }
}
