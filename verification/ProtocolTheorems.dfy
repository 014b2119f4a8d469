/** What holds in every state a run can reach. */
module ProtocolTheorems {
  import opened Values
  import opened Packets
  import opened BrokerModel
  import opened VmModel
  import opened RuntimeModel
  import opened SystemModel
  import opened CallTracking
  import opened ChannelReplay
  import opened ChannelTracking
  import opened ResponseTracking
  import opened OperatorTracking
  import opened ClientTracking

  // For any number of clients and of calls, any interleaving of the steps of the clients, the
  // broker and the VM, and any operators.

  ghost predicate SysInv(s: Sys) {
    CallsInv(s) && ResponsesInv(s) && OperatorsInv(s) && ClientsInv(s)
  }

  ghost predicate Reachable(s: Sys) {
    exists s0, acts :: Initial(s0) && Leads(s0, acts, s)
  }

  lemma InvInit(s: Sys)
    requires Initial(s)
    ensures SysInv(s)
  {
    InitCalls(s);
    InitResponses(s);
    InitOperators(s);
    InitClients(s);
  }

  lemma InvStep(s: Sys, a: Action)
    requires SysInv(s) && Enabled(s, a)
    ensures SysInv(Apply(s, a))
  {
    CallsStep(s, a);
    ResponsesStep(s, a);
    OperatorsStep(s, a);
    ClientsStep(s, a);
  }

  lemma {:induction false} InvRun(s: Sys, acts: seq<Action>, t: Sys)
    requires SysInv(s) && Leads(s, acts, t)
    ensures SysInv(t)
    decreases |acts|
  {
    if acts != [] {
      InvStep(s, acts[0]);
      InvRun(Apply(s, acts[0]), acts[1..], t);
    }
  }

  lemma Holding(s: Sys)
    requires Reachable(s)
    ensures SysInv(s)
  {
    var s0, acts :| Initial(s0) && Leads(s0, acts, s);
    InvInit(s0);
    InvRun(s0, acts, s);
  }

  lemma {:induction false} LeadsOn(s0: Sys, acts: seq<Action>, s: Sys, a: Action)
    requires Leads(s0, acts, s) && Enabled(s, a)
    ensures Leads(s0, acts + [a], Apply(s, a))
    decreases |acts|
  {
    if acts == [] {
      assert ([] + [a])[1..] == [];
      assert Leads(Apply(s, a), [], Apply(s, a));
    } else {
      LeadsOn(Apply(s0, acts[0]), acts[1..], s, a);
      assert (acts + [a])[1..] == acts[1..] + [a];
    }
  }

  lemma ReachableNext(s: Sys, a: Action)
    requires Reachable(s) && Enabled(s, a)
    ensures Reachable(Apply(s, a))
  {
    var s0, acts :| Initial(s0) && Leads(s0, acts, s);
    LeadsOn(s0, acts, s, a);
  }

  // --------------------------------------------------------------- safe runs

  /** Runs in which every define is safe. Only what is said about channels needs it. */
  ghost predicate SafeLeads(s: Sys, acts: seq<Action>, t: Sys)
    decreases |acts|
  {
    if acts == [] then t == s
    else Enabled(s, acts[0]) && SafeAction(s, acts[0]) && SafeLeads(Apply(s, acts[0]), acts[1..], t)
  }

  ghost predicate SafelyReachable(s: Sys) {
    exists s0, acts :: SafeInitial(s0) && SafeLeads(s0, acts, s)
  }

  ghost predicate SafeInv(s: Sys) {
    SysInv(s) && ChannelsInv(s)
  }

  lemma SafeStep(s: Sys, a: Action)
    requires SafeInv(s) && Enabled(s, a) && SafeAction(s, a)
    ensures SafeInv(Apply(s, a))
  {
    InvStep(s, a);
    ChannelsStep(s, a);
  }

  lemma {:induction false} SafeRun(s: Sys, acts: seq<Action>, t: Sys)
    requires SafeInv(s) && SafeLeads(s, acts, t)
    ensures SafeInv(t)
    decreases |acts|
  {
    if acts != [] {
      SafeStep(s, acts[0]);
      SafeRun(Apply(s, acts[0]), acts[1..], t);
    }
  }

  lemma SafelyHolding(s: Sys)
    requires SafelyReachable(s)
    ensures SafeInv(s)
  {
    var s0, acts :| SafeInitial(s0) && SafeLeads(s0, acts, s);
    InvInit(s0);
    InitChannels(s0);
    SafeRun(s0, acts, s);
  }

  // ------------------------------------------------- from operator to client

  /** The values of successive step() results. */
  ghost function ValuesOf(steps: seq<StepResult>): seq<Value> {
    if steps == [] then []
    else
      var n := |steps| - 1;
      ValuesOf(steps[..n]) + if steps[n].OkOutput? then [steps[n].val] else []
  }

  ghost function FailureOf(steps: seq<StepResult>): Option<string> {
    if steps == [] then None
    else
      var n := |steps| - 1;
      if steps[n].ErrorOutput? then Some(steps[n].reason) else FailureOf(steps[..n])
  }

  /** What the iterator of a call that has consumed c replies has to show for it: the values
      and the error of the operator's first c steps; it is finished when these are all. A call
      that never reached an operator yields nothing and at most an error. */
  ghost predicate Follows(call: Call, it: Iter, c: int) {
    match call.start
    case None => it.values == [] && 0 <= c <= 1 && (it.error.Some? <==> c == 1)
    case Some(start) =>
      && LegalRun(start, call.steps) && (call.instr.CallFunction? ==> MayInit(call.instr.op, call.input, Ready(start)))
      && 0 <= c <= |call.steps|
      && it.values == ValuesOf(call.steps[..c]) && it.error == FailureOf(call.steps[..c])
      && (it.finished ==> c == |call.steps| && c > 0 && Last(call.steps[c - 1]))
      && (c > 0 && call.steps[c - 1].OkOutput? && call.steps[c - 1].finish ==> it.finished)
  }

  /** The part of Reassembles that speaks about what was consumed. */
  ghost predicate Shows(rt: RtState, got: Got, tx: Tx, rs: seq<Packet>)
    requires WfGot(got) && tx in rt.iters
  {
    Knows(got, tx, rs) && 0 <= Consumed(rt, tx) <= |rs| && Yielded(rt, got, tx)
  }

  lemma ReassemblesShows(rt: RtState, got: Got, tx: Tx, rs: seq<Packet>)
    requires WfGot(got) && tx in rt.iters && Reassembles(rt, got, tx) && Knows(got, tx, rs)
    ensures Shows(rt, got, tx, rs)
  {
    assert Consumed(rt, tx) > |rs| ==> (tx, |rs|) in got;
  }

  /** The replies a client knows of a call are the first of those sent for it. */
  lemma KnownPrefix(s: Sys, tx: Tx, n: Node)
    requires CallOk(s, tx) && tx in s.calls && s.calls[tx].origin == n && ClientOk(s, n)
    ensures Replies(Q(s.recvd, n), tx) <= s.calls[tx].outs && tx in Rt(s, n).iters
    ensures Shows(Rt(s, n), GotOf(Q(s.recvd, n)), tx, Replies(Q(s.recvd, n), tx))
  {
    SentInOrder(s, tx, n);
    GotIsReplies(Q(s.recvd, n), tx);
    assert tx in Rt(s, n).iters && Reassembles(Rt(s, n), GotOf(Q(s.recvd, n)), tx);
    ReassemblesShows(Rt(s, n), GotOf(Q(s.recvd, n)), tx, Replies(Q(s.recvd, n), tx));
  }

  lemma SentInOrder(s: Sys, tx: Tx, n: Node)
    requires Shaped(s, tx) && Conserved(s, tx) && tx in s.calls && s.calls[tx].origin == n
    ensures var rs := Replies(Q(s.recvd, n), tx); rs <= s.calls[tx].outs && InOrder(rs)
  {
    var outs, rs := s.calls[tx].outs, Replies(Q(s.recvd, n), tx);
    forall k: nat | k < |rs| ensures rs[k].Reply? && rs[k].index == k {
      assert outs[k] == rs[k];
    }
  }

  lemma {:induction false} ConsumedSteps(got: Got, tx: Tx, rs: seq<Packet>, steps: seq<StepResult>, c: nat)
    requires WfGot(got) && Knows(got, tx, rs) && c <= |rs| <= |steps|
    requires forall i: nat | i < |rs| :: rs[i] == ReplyOf(tx, i, steps[i])
    ensures OutsUpTo(got, tx, c) == ValuesOf(steps[..c]) && ErrorUpTo(got, tx, c) == FailureOf(steps[..c])
  {
    if c > 0 {
      ConsumedSteps(got, tx, rs, steps, c - 1);
      assert steps[..c][..c - 1] == steps[..c - 1];
      assert got[(tx, c - 1)] == ReplyOf(tx, c - 1, steps[c - 1]);
    }
  }

  lemma FollowsOperator(rt: RtState, got: Got, tx: Tx, rs: seq<Packet>, call: Call)
    requires WfGot(got) && tx in rt.iters && rt.iters[tx].many && Shows(rt, got, tx, rs) && rs <= call.outs
    requires call.start.Some? && RepliesAreSteps(tx, call.outs, call.steps) && LegalRun(call.start.value, call.steps)
    requires call.instr.CallFunction? ==> MayInit(call.instr.op, call.input, Ready(call.start.value))
    ensures Follows(call, rt.iters[tx], Consumed(rt, tx))
  {
    var it, c, steps := rt.iters[tx], Consumed(rt, tx), call.steps;
    forall i: nat | i < |rs| ensures rs[i] == ReplyOf(tx, i, steps[i]) && (rs[i].finish <==> Last(steps[i])) {
      assert rs[i] == call.outs[i];
    }
    ConsumedSteps(got, tx, rs, steps, c);
    FinishedLast(rt, got, tx, rs, steps);
  }

  /** The iterator is finished only by the last step, and by a last step that is no error. */
  lemma FinishedLast(rt: RtState, got: Got, tx: Tx, rs: seq<Packet>, steps: seq<StepResult>)
    requires WfGot(got) && tx in rt.iters && rt.iters[tx].many && Shows(rt, got, tx, rs) && |rs| <= |steps|
    requires forall i: nat | i < |rs| :: rs[i] == ReplyOf(tx, i, steps[i]) && (rs[i].finish <==> Last(steps[i]))
    requires forall i: nat | i < |steps| - 1 :: !Last(steps[i])
    ensures var it, c := rt.iters[tx], Consumed(rt, tx);
      && (it.finished ==> c == |steps| && c > 0 && Last(steps[c - 1]))
      && (c > 0 && steps[c - 1].OkOutput? && steps[c - 1].finish ==> it.finished)
  {
    var it, c := rt.iters[tx], Consumed(rt, tx);
    if it.finished {
      var i: nat :| i < c && (tx, i) in got && got[(tx, i)].finish;
      assert rs[i].finish;
    }
    if c > 0 {
      assert (tx, c - 1) in got && got[(tx, c - 1)] == rs[c - 1];
    }
  }

  lemma FollowsNothing(rt: RtState, got: Got, tx: Tx, rs: seq<Packet>, call: Call)
    requires WfGot(got) && tx in rt.iters && Shows(rt, got, tx, rs) && rs <= call.outs
    requires call.start.None? && |call.outs| <= 1 && forall p | p in call.outs :: p.Reply? && p.out.Fail?
    ensures Follows(call, rt.iters[tx], Consumed(rt, tx))
  {
    if Consumed(rt, tx) == 1 {
      assert got[(tx, 0)] == call.outs[0];
      assert OutsUpTo(got, tx, 1) == OutsUpTo(got, tx, 0) == [];
    }
  }

  /** The end-to-end theorem: whatever the interleaving of any number of calls, what a client's
      iterator has yielded are the operator's successive step() results, in order, each once,
      ending at finish or at the operator's error. */
  lemma EndToEnd(s: Sys, tx: Tx)
    requires Reachable(s) && tx in s.calls && (s.calls[tx].instr.CallFunction? || s.calls[tx].instr.CallMethod?)
    ensures var call := s.calls[tx]; var rt := Rt(s, call.origin);
      tx in rt.iters && Follows(call, rt.iters[tx], Consumed(rt, tx))
  {
    Holding(s);
    CallFollows(s, tx);
  }

  lemma CallFollows(s: Sys, tx: Tx)
    requires SysInv(s) && tx in s.calls && (s.calls[tx].instr.CallFunction? || s.calls[tx].instr.CallMethod?)
    ensures var call := s.calls[tx]; var rt := Rt(s, call.origin);
      tx in rt.iters && Follows(call, rt.iters[tx], Consumed(rt, tx))
  {
    CallFacts(s, tx);
    var call := s.calls[tx];
    KnownPrefix(s, tx, call.origin);
    var q := Q(s.recvd, call.origin);
    ClientFollows(Rt(s, call.origin), GotOf(q), tx, Replies(q, tx), call, s.vm.running);
  }

  lemma ClientFollows(rt: RtState, got: Got, tx: Tx, rs: seq<Packet>, call: Call, running: Option<Run>)
    requires call.instr.CallFunction? || call.instr.CallMethod?
    requires WfGot(got) && tx in rt.iters && rt.iters[tx].many && Shows(rt, got, tx, rs) && rs <= call.outs
    requires OutsFit(tx, call) && StepsOk(call, tx, running)
    ensures Follows(call, rt.iters[tx], Consumed(rt, tx))
  {
    if call.start.Some? {
      FollowsOperator(rt, got, tx, rs, call);
    } else {
      assert call.outs != [] ==> call.outs[0].out.Fail?;
      FollowsNothing(rt, got, tx, rs, call);
    }
  }

  lemma CallFacts(s: Sys, tx: Tx)
    requires SysInv(s) && tx in s.calls
    ensures CallOk(s, tx) && ClientOk(s, s.calls[tx].origin) && StepsOk(s.calls[tx], tx, s.vm.running)
  {
    assert CallOk(s, tx);
  }

  /** When nothing is on the way and the VM is idle, every call that the stopping VM did not
      drop has been answered in full, and its client has the whole answer. */
  lemma Quiescent(s: Sys, tx: Tx)
    requires Reachable(s) && tx in s.calls
    requires Idle(s.vm) && forall n: Node :: Q(s.up, n) == [] && Q(s.down, n) == []
    ensures var c := s.calls[tx];
      && (c.phase.Refused? || c.phase.Done? || c.phase.Dropped?)
      && Replies(Q(s.recvd, c.origin), tx) == c.outs
      && (c.phase.Dropped? <==> tx in s.broker.trans)
      && (!c.phase.Dropped? ==> c.outs != [] && var last := c.outs[|c.outs| - 1]; last.Reply? && last.finish)
  {
    Holding(s);
    assert CallOk(s, tx);
    assert VmOut(s) == [];
  }

  // ------------------------------------------------- how an iterator ends

  lemma ClosedStays(s: Sys, a: Action, tx: Tx)
    requires CallsInv(s) && Enabled(s, a) && tx in s.calls && (s.calls[tx].phase.Done? || s.calls[tx].phase.Refused?)
    ensures tx in Apply(s, a).calls && Apply(s, a).calls[tx] == s.calls[tx]
  {
    assert CallOk(s, tx);
    match a {
      case BrokerRecv(n) => RoutingLeavesClosed(s, n, tx);
      case VmTake(init, made, ids) =>
        TakingLeavesClosed(s, tx);
      case VmDrain => TakingLeavesClosed(s, tx);
      case _ =>
    }
  }

  /** The call of an execute packet the broker reads is not closed. */
  lemma RoutingLeavesClosed(s: Sys, n: Node, tx: Tx)
    requires CallsInv(s) && Q(s.up, n) != [] && tx in s.calls && (s.calls[tx].phase.Done? || s.calls[tx].phase.Refused?)
    ensures Q(s.up, n)[0].Execute? ==> Q(s.up, n)[0].tx != tx
    ensures NoteRouted(s, Q(s.up, n)[0])[tx] == s.calls[tx]
  {
    if Q(s.up, n)[0].Execute? {
      ReadCall(s, n);
    }
  }

  lemma TakingLeavesClosed(s: Sys, tx: Tx)
    requires CallsInv(s) && Q(s.down, VM) != [] && tx in s.calls
    requires s.calls[tx].phase.Done? || s.calls[tx].phase.Refused?
    ensures Q(s.down, VM)[0].Execute? ==> Q(s.down, VM)[0].tx != tx
  {
    if Q(s.down, VM)[0].Execute? {
      TakenCall(s);
    }
  }

  /** The call is answered, and its iterator waits for an index beyond the last. */
  ghost predicate Stuck(s: Sys, tx: Tx) {
    && tx in s.calls && (s.calls[tx].phase.Done? || s.calls[tx].phase.Refused?)
    && WaitsAt(Rt(s, s.calls[tx].origin), tx, |s.calls[tx].outs|)
  }

  ghost predicate WaitsAt(rt: RtState, tx: Tx, index: nat) {
    tx in rt.resolvers && rt.resolvers[tx] == index
  }

  lemma StillWaits(rt: RtState, tx: Tx, index: nat, t: Tx)
    requires WaitsAt(rt, tx, index) && t != tx
    ensures WaitsAt(NextAsked(rt, t), tx, index)
  {
  }

  lemma StillWaitsOpened(rt: RtState, tx: Tx, index: nat, t: Tx, many: bool)
    requires WaitsAt(rt, tx, index) && t != tx
    ensures WaitsAt(Opened(rt, t, many), tx, index)
  {
    StillWaits(Open(rt, t, many), tx, index, t);
  }

  lemma StillWaitsRegistered(rt: RtState, tx: Tx, index: nat, p: Packet)
    requires WaitsAt(rt, tx, index) && p.Reply? && (p.tx == tx ==> p.index != index)
    ensures WaitsAt(Registered(rt, p), tx, index)
  {
  }

  lemma StuckStep(s: Sys, a: Action, tx: Tx)
    requires SysInv(s) && Stuck(s, tx) && Enabled(s, a)
    ensures Stuck(Apply(s, a), tx)
  {
    ClosedStays(s, a, tx);
    var n, m := s.calls[tx].origin, |s.calls[tx].outs|;
    match a {
      case ClientCall(k, t, instr, name, input) =>
        assert s.calls.Keys <= s.used;
        StillWaitsOpened(Rt(s, n), tx, m, t, instr.CallFunction? || instr.CallMethod?);
      case ClientNext(k, t) => if k == n { StillWaits(Rt(s, n), tx, m, t); }
      case ClientTake(k) => if k == n { StuckTake(s, tx); }
      case _ =>
    }
  }

  /** No reply has the index the iterator waits for. */
  lemma StuckTake(s: Sys, tx: Tx)
    requires SysInv(s) && Stuck(s, tx) && Enabled(s, ClientTake(s.calls[tx].origin))
    ensures WaitsAt(Rt(TakeStep(s, s.calls[tx].origin), s.calls[tx].origin), tx, |s.calls[tx].outs|)
  {
    var n := s.calls[tx].origin;
    var p := Q(s.down, n)[0];
    if p.Reply? {
      ReplyInRange(s, tx);
      StillWaitsRegistered(Rt(s, n), tx, |s.calls[tx].outs|, p);
    }
  }

  lemma ReplyInRange(s: Sys, tx: Tx)
    requires SysInv(s) && tx in s.calls && Q(s.down, s.calls[tx].origin) != []
    ensures var p := Q(s.down, s.calls[tx].origin)[0]; p.Reply? && p.tx == tx ==> p.index < |s.calls[tx].outs|
  {
    var n := s.calls[tx].origin;
    var p := Q(s.down, n)[0];
    assert CallOk(s, tx);
    if p.Reply? && p.tx == tx {
      assert s.calls[tx].outs[|Replies(Q(s.recvd, n), tx)|] == p;
    }
  }

  lemma {:induction false} StuckRun(s: Sys, acts: seq<Action>, t: Sys, tx: Tx)
    requires SysInv(s) && Stuck(s, tx) && Leads(s, acts, t)
    ensures Stuck(t, tx) && t.calls[tx] == s.calls[tx]
    decreases |acts|
  {
    if acts != [] {
      InvStep(s, acts[0]);
      StuckStep(s, acts[0], tx);
      ClosedStays(s, acts[0], tx);
      StuckRun(Apply(s, acts[0]), acts[1..], t, tx);
    }
  }

  /** An iterator that shows an error has consumed all replies of its call. */
  lemma ErrorIsLast(s: Sys, tx: Tx)
    requires SysInv(s) && tx in s.calls && tx in Rt(s, s.calls[tx].origin).iters
    requires Rt(s, s.calls[tx].origin).iters[tx].error.Some?
    ensures (s.calls[tx].phase.Done? || s.calls[tx].phase.Refused?)
    ensures Consumed(Rt(s, s.calls[tx].origin), tx) == |s.calls[tx].outs|
  {
    CallFacts(s, tx);
    var c := s.calls[tx];
    KnownPrefix(s, tx, c.origin);
    var rt, got, rs := Rt(s, c.origin), GotOf(Q(s.recvd, c.origin)), Replies(Q(s.recvd, c.origin), tx);
    var k := ErrorAt(got, tx, Consumed(rt, tx));
    assert rs[k] == c.outs[k] && c.outs[k].out.Fail?;
  }

  lemma {:induction false} ErrorAt(got: Got, tx: Tx, c: nat) returns (k: nat)
    requires WfGot(got) && ErrorUpTo(got, tx, c).Some?
    ensures k < c && (tx, k) in got && got[(tx, k)].out.Fail?
  {
    if (tx, c - 1) in got && got[(tx, c - 1)].out.Fail? {
      k := c - 1;
    } else {
      k := ErrorAt(got, tx, c - 1);
    }
  }

  /** A promise of next() that waits after the error is never settled, whatever happens. */
  lemma ErrorThenSilence(s: Sys, tx: Tx, acts: seq<Action>, t: Sys)
    requires Reachable(s) && tx in s.calls && Leads(s, acts, t)
    requires var rt := Rt(s, s.calls[tx].origin); tx in rt.iters && rt.iters[tx].error.Some? && tx in rt.resolvers
    ensures tx in t.calls && t.calls[tx] == s.calls[tx] && tx in Rt(t, s.calls[tx].origin).resolvers
  {
    Holding(s);
    ErrorIsLast(s, tx);
    CallFacts(s, tx);
    assert Reassembles(Rt(s, s.calls[tx].origin), GotOf(Q(s.recvd, s.calls[tx].origin)), tx);
    StuckRun(s, acts, t, tx);
  }

  /** next() with the reply at hand. */
  lemma NextConsumes(rt: RtState, got: Got, tx: Tx, rs: seq<Packet>)
    requires RtInv(rt, got) && tx in rt.iters && tx !in rt.resolvers && Knows(got, tx, rs)
    requires 0 <= Consumed(rt, tx) < |rs| && forall k: nat | k < |rs| - 1 :: !rs[k].Reply? || !rs[k].finish
    ensures var rt' := NextAsked(rt, tx);
      tx in rt'.iters && tx !in rt'.resolvers && Consumed(rt', tx) == Consumed(rt, tx) + 1
  {
    assert Reassembles(rt, got, tx);
    var c := Consumed(rt, tx);
    assert (tx, c) in got && Buffered(rt, tx, c);
    NotOver(rt, got, tx, rs);
    NextAdvances(rt, tx);
  }

  lemma NotOver(rt: RtState, got: Got, tx: Tx, rs: seq<Packet>)
    requires WfGot(got) && tx in rt.iters && Knows(got, tx, rs) && 0 <= Consumed(rt, tx) < |rs|
    requires Yielded(rt, got, tx) && forall k: nat | k < |rs| - 1 :: !rs[k].Reply? || !rs[k].finish
    ensures !rt.iters[tx].finished
  {
    forall i: nat | i < Consumed(rt, tx) && (tx, i) in got ensures !got[(tx, i)].finish {
      assert got[(tx, i)] == rs[i];
    }
  }

  lemma NextAdvances(rt: RtState, tx: Tx)
    requires Wf(rt) && tx in rt.iters && tx !in rt.resolvers && !rt.iters[tx].finished
    requires Buffered(rt, tx, rt.iters[tx].idx)
    ensures var rt' := NextAsked(rt, tx);
      tx in rt'.iters && tx !in rt'.resolvers && rt'.iters[tx].idx == rt.iters[tx].idx + 1
  {
  }

  /** The client has the whole answer and no next() outstanding. */
  ghost predicate AllHere(s: Sys, tx: Tx) {
    && SysInv(s) && tx in s.calls && (s.calls[tx].phase.Done? || s.calls[tx].phase.Refused?)
    && (s.calls[tx].instr.CallFunction? || s.calls[tx].instr.CallMethod?)
    && Replies(Q(s.recvd, s.calls[tx].origin), tx) == s.calls[tx].outs
    && tx !in Rt(s, s.calls[tx].origin).resolvers
  }

  lemma AllHereNext(s: Sys, tx: Tx)
    requires AllHere(s, tx) && tx in Rt(s, s.calls[tx].origin).iters
    requires Consumed(Rt(s, s.calls[tx].origin), tx) < |s.calls[tx].outs|
    ensures var n, a := s.calls[tx].origin, ClientNext(s.calls[tx].origin, tx);
      && Enabled(s, a) && AllHere(Apply(s, a), tx) && Apply(s, a).calls == s.calls
      && tx in Rt(Apply(s, a), n).iters
      && Consumed(Rt(Apply(s, a), n), tx) == Consumed(Rt(s, n), tx) + 1
  {
    HereConsumes(s, tx);
    CallFacts(s, tx);
    NextRuns(s, s.calls[tx].origin, tx);
    InvStep(s, ClientNext(s.calls[tx].origin, tx));
  }

  lemma HereConsumes(s: Sys, tx: Tx)
    requires AllHere(s, tx) && tx in Rt(s, s.calls[tx].origin).iters
    requires Consumed(Rt(s, s.calls[tx].origin), tx) < |s.calls[tx].outs|
    ensures var rt := Rt(s, s.calls[tx].origin); var rt' := NextAsked(rt, tx);
      tx in rt'.iters && tx !in rt'.resolvers && Consumed(rt', tx) == Consumed(rt, tx) + 1
  {
    var n := s.calls[tx].origin;
    CallFacts(s, tx);
    KnownPrefix(s, tx, n);
    assert CallOk(s, tx) && ClientOk(s, n);
    NextConsumes(Rt(s, n), GotOf(Q(s.recvd, n)), tx, s.calls[tx].outs);
  }

  lemma NextRuns(s: Sys, n: Node, tx: Tx)
    requires n != VM && tx in Rt(s, n).iters && tx !in Rt(s, n).resolvers
    ensures var a := ClientNext(n, tx); var t := Apply(s, a);
      Enabled(s, a) && t.calls == s.calls && t.recvd == s.recvd && Rt(t, n) == NextAsked(Rt(s, n), tx)
  {
  }

  lemma {:induction false} NextsFrom(s: Sys, tx: Tx, k: nat) returns (t: Sys)
    requires AllHere(s, tx) && tx in Rt(s, s.calls[tx].origin).iters
    requires k == |s.calls[tx].outs| - Consumed(Rt(s, s.calls[tx].origin), tx)
    ensures Leads(s, Nexts(s.calls[tx].origin, tx, k), t) && t.calls == s.calls && AllHere(t, tx)
    ensures tx in Rt(t, s.calls[tx].origin).iters
    ensures Consumed(Rt(t, s.calls[tx].origin), tx) == |s.calls[tx].outs|
    decreases k
  {
    if k == 0 {
      t := s;
    } else {
      var n := s.calls[tx].origin;
      AllHereNext(s, tx);
      var s' := Apply(s, ClientNext(n, tx));
      t := NextsFrom(s', tx, k - 1);
      NextsTail(n, tx, k);
    }
  }

  lemma NextsTail(n: Node, tx: Tx, k: nat)
    requires k > 0
    ensures Nexts(n, tx, k)[0] == ClientNext(n, tx) && Nexts(n, tx, k)[1..] == Nexts(n, tx, k - 1)
  {
  }

  function Nexts(n: Node, tx: Tx, k: nat): seq<Action> {
    seq(k, _ => ClientNext(n, tx))
  }

  /** With nothing on the way and the VM idle, calling next() once for every reply not consumed
      yet ends the iterator of a call that was not dropped: it has yielded the values of all
      steps, and is finished, or shows the operator's error. An iterator that still waits is
      there already, and shows the error. */
  lemma NextsEndIt(s: Sys, tx: Tx) returns (k: nat, t: Sys)
    requires Reachable(s) && tx in s.calls && (s.calls[tx].instr.CallFunction? || s.calls[tx].instr.CallMethod?)
    requires Idle(s.vm) && (forall n: Node :: Q(s.up, n) == [] && Q(s.down, n) == []) && !s.calls[tx].phase.Dropped?
    ensures k <= |s.calls[tx].outs| && Leads(s, Nexts(s.calls[tx].origin, tx, k), t)
    ensures var call, rt := s.calls[tx], Rt(t, s.calls[tx].origin);
      && tx in rt.iters
      && var it := rt.iters[tx];
      && (tx in Rt(s, call.origin).resolvers ==> k == 0 && it.error.Some? && !it.finished)
      && (call.start.None? ==> it.values == [] && it.error.Some?)
      && (call.start.Some? ==>
            && it.values == ValuesOf(call.steps) && it.error == FailureOf(call.steps)
            && (it.finished || it.error.Some?))
  {
    AnswerIsHere(s, tx);
    if tx in Rt(s, s.calls[tx].origin).resolvers {
      k, t := 0, s;
    } else {
      k := |s.calls[tx].outs| - Consumed(Rt(s, s.calls[tx].origin), tx);
      t := NextsFrom(s, tx, k);
    }
    AllConsumed(t, tx);
  }

  lemma AnswerIsHere(s: Sys, tx: Tx)
    requires Reachable(s) && tx in s.calls && (s.calls[tx].instr.CallFunction? || s.calls[tx].instr.CallMethod?)
    requires Idle(s.vm) && (forall n: Node :: Q(s.up, n) == [] && Q(s.down, n) == []) && !s.calls[tx].phase.Dropped?
    ensures SysInv(s) && (s.calls[tx].phase.Done? || s.calls[tx].phase.Refused?)
    ensures var call, rt := s.calls[tx], Rt(s, s.calls[tx].origin);
      && tx in rt.iters && 0 <= Consumed(rt, tx) <= |call.outs|
      && (if tx in rt.resolvers then Consumed(rt, tx) == |call.outs| && !rt.iters[tx].finished else AllHere(s, tx))
  {
    Quiescent(s, tx);
    Holding(s);
    CallFacts(s, tx);
    var call := s.calls[tx];
    KnownPrefix(s, tx, call.origin);
    if tx in Rt(s, call.origin).resolvers {
      WaitsBehindLast(Rt(s, call.origin), GotOf(Q(s.recvd, call.origin)), tx, call.outs);
    }
  }

  /** With all replies there, an iterator can only wait for one that does not exist. */
  lemma WaitsBehindLast(rt: RtState, got: Got, tx: Tx, rs: seq<Packet>)
    requires RtInv(rt, got) && tx in rt.iters && tx in rt.resolvers && Knows(got, tx, rs)
    ensures Consumed(rt, tx) == |rs| && !rt.iters[tx].finished
  {
    assert Reassembles(rt, got, tx);
    assert Consumed(rt, tx) > |rs| ==> (tx, |rs|) in got;
  }

  lemma AllConsumed(s: Sys, tx: Tx)
    requires SysInv(s) && tx in s.calls && (s.calls[tx].phase.Done? || s.calls[tx].phase.Refused?)
    requires s.calls[tx].instr.CallFunction? || s.calls[tx].instr.CallMethod?
    requires tx in Rt(s, s.calls[tx].origin).iters
    requires Consumed(Rt(s, s.calls[tx].origin), tx) == |s.calls[tx].outs|
    ensures var call, it := s.calls[tx], Rt(s, s.calls[tx].origin).iters[tx];
      && (call.start.None? ==> it.values == [] && it.error.Some?)
      && (call.start.Some? ==>
            && it.values == ValuesOf(call.steps) && it.error == FailureOf(call.steps)
            && (it.finished || it.error.Some?))
  {
    CallFacts(s, tx);
    CallFollows(s, tx);
    var call := s.calls[tx];
    FollowsToEnd(call, Rt(s, call.origin).iters[tx], tx, s.vm.running);
  }

  lemma FollowsToEnd(call: Call, it: Iter, tx: Tx, running: Option<Run>)
    requires Follows(call, it, |call.outs|) && OutsFit(tx, call) && StepsOk(call, tx, running)
    requires call.phase.Done? || call.phase.Refused?
    ensures call.start.None? ==> it.values == [] && it.error.Some?
    ensures call.start.Some? ==>
      it.values == ValuesOf(call.steps) && it.error == FailureOf(call.steps) && (it.finished || it.error.Some?)
  {
    AnswerOfSteps(call, tx, running);
    FollowsAll(call, it);
  }

  lemma AnswerOfSteps(call: Call, tx: Tx, running: Option<Run>)
    requires OutsFit(tx, call) && StepsOk(call, tx, running) && (call.phase.Done? || call.phase.Refused?)
    ensures if call.start.None? then |call.outs| > 0 else EndsAsSteps(call)
  {
  }

  ghost predicate EndsAsSteps(call: Call) {
    |call.outs| == |call.steps| > 0 && Last(call.steps[|call.steps| - 1])
  }

  lemma FollowsAll(call: Call, it: Iter)
    requires Follows(call, it, |call.outs|) && if call.start.None? then |call.outs| > 0 else EndsAsSteps(call)
    ensures call.start.None? ==> it.values == [] && it.error.Some?
    ensures call.start.Some? ==>
      it.values == ValuesOf(call.steps) && it.error == FailureOf(call.steps) && (it.finished || it.error.Some?)
  {
    if call.start.Some? {
      StepsToEnd(call.steps, it);
    }
  }

  lemma StepsToEnd(steps: seq<StepResult>, it: Iter)
    requires steps != [] && Last(steps[|steps| - 1])
    requires it.values == ValuesOf(steps[..|steps|]) && it.error == FailureOf(steps[..|steps|])
    requires steps[|steps| - 1].OkOutput? ==> it.finished
    ensures it.values == ValuesOf(steps) && it.error == FailureOf(steps) && (it.finished || it.error.Some?)
  {
    assert steps[..|steps|] == steps;
  }

  // ------------------------------------------------------------------- spell

  function Letters(text: string): seq<Value> {
    seq(|text|, i requires 0 <= i < |text| => Map(map["text" := Str([text[i]])]))
  }

  lemma {:induction false} SpellValues(text: string, steps: seq<StepResult>, c: nat)
    requires text != "" && LegalRun(Spelling(text, 0), steps) && c <= |steps|
    ensures c <= |text| && ValuesOf(steps[..c]) == Letters(text)[..c] && FailureOf(steps[..c]).None?
    ensures c > 0 ==> steps[c - 1].OkOutput? && (Last(steps[c - 1]) <==> c == |text|)
  {
    if c > 0 {
      SpellValues(text, steps, c - 1);
      SpellIsDetermined(text, steps, c - 1);
      if c > 1 {
        SpellStops(text, steps, c - 2);
      }
      LastLetter(text, steps, c);
    }
  }

  lemma LastLetter(text: string, steps: seq<StepResult>, c: nat)
    requires 0 < c <= |text| && c <= |steps| && steps[c - 1].OkOutput? && steps[c - 1].val == TextMap([text[c - 1]])
    requires ValuesOf(steps[..c - 1]) == Letters(text)[..c - 1] && FailureOf(steps[..c - 1]).None?
    ensures ValuesOf(steps[..c]) == Letters(text)[..c] && FailureOf(steps[..c]).None?
  {
    assert steps[..c][..c - 1] == steps[..c - 1];
    assert Letters(text)[..c] == Letters(text)[..c - 1] + [TextMap([text[c - 1]])];
  }

  /** spell on a text that is not empty returns its characters across the whole stack: what
      has been yielded is a prefix of them, all of them once the iterator is finished, and
      there is no error unless the call was refused before it reached the operator. */
  lemma SpellEndToEnd(s: Sys, tx: Tx, text: string)
    requires Reachable(s) && tx in s.calls && s.calls[tx].instr == CallFunction("spell")
    requires s.calls[tx].input == Map(map["text" := Str(text)]) && text != ""
    ensures var call := s.calls[tx]; var rt := Rt(s, call.origin);
      && tx in rt.iters
      && var it := rt.iters[tx];
      && it.values <= Letters(text)
      && (call.start.Some? ==> it.error.None? && (it.finished <==> it.values == Letters(text)))
      && (call.start.None? ==> it.values == [])
  {
    EndToEnd(s, tx);
    var call := s.calls[tx];
    var rt := Rt(s, call.origin);
    if call.start.Some? {
      assert call.start.value == Spelling(text, 0);
      SpellValues(text, call.steps, Consumed(rt, tx));
    }
  }

  // ------------------------------------------------------- the broker's maps

  /** The transaction map holds exactly the forwarded executes whose finishing reply has not
      passed, each with its sender. */
  lemma TransactionMap(s: Sys)
    requires Reachable(s)
    ensures s.broker.trans == map tx | tx in s.calls && InTransit(s, tx) :: s.calls[tx].origin
  {
    Holding(s);
    var m := map tx | tx in s.calls && InTransit(s, tx) :: s.calls[tx].origin;
    forall tx ensures tx in s.broker.trans <==> tx in m {
      assert CallOk(s, tx);
    }
    forall tx | tx in m ensures s.broker.trans[tx] == m[tx] {
      assert CallOk(s, tx);
    }
  }

  /** No reply of the VM finds its transaction missing, and it goes to the caller. */
  lemma ReplyIsDelivered(s: Sys)
    requires Reachable(s) && Q(s.up, VM) != [] && Q(s.up, VM)[0].Reply?
    ensures var p := Q(s.up, VM)[0];
      && p.tx in s.calls
      && Route(s.broker, VM, p).1 == Some(Send(s.calls[p.tx].origin, p))
  {
    Holding(s);
    ReadReply(s, VM);
  }

  /** Replies to a call are numbered from 0, and only the last one of a completed call
      finishes. */
  lemma RepliesAreNumbered(s: Sys, tx: Tx)
    requires Reachable(s) && tx in s.calls
    ensures Numbered(tx, s.calls[tx].outs, s.calls[tx].phase.Done? || s.calls[tx].phase.Refused?)
  {
    Holding(s);
    assert CallOk(s, tx);
  }

  /** In every safe run: replaying the VM's queued announcements on the broker's table gives
      exactly the channels of its operators, factories and components, and none after a stop;
      no announcement is ever answered with an error. */
  lemma SubscriptionTable(s: Sys)
    requires SafelyReachable(s)
    ensures Replay(s.broker.subs.Keys, VmOut(s)) == if s.vm.mode.Serving? then VmChannels(s.vm) else {}
    ensures VmOut(s) == [] ==> forall ch :: ch in s.broker.subs <==> s.vm.mode.Serving? && Serves(s.vm, ch)
    ensures forall ch | ch in s.broker.subs :: s.broker.subs[ch] == VM
    ensures forall p | p in Q(s.down, VM) && p.Respond? :: p.ok
  {
    SafelyHolding(s);
    forall ch ensures ch in VmChannels(s.vm) <==> Serves(s.vm, ch) {
      ServesIff(s.vm, ch);
    }
  }

  /** Once the stopped VM's queue is empty, the table is too. */
  lemma StopLeavesNothing(s: Sys)
    requires SafelyReachable(s) && !s.vm.mode.Serving? && VmOut(s) == []
    ensures s.broker.subs == map[]
  {
    SubscriptionTable(s);
    assert s.broker.subs.Keys == {};
  }

  /** expected_responses holds the ids of the announcements the broker has not read, and of
      those whose response the VM has not taken. */
  lemma ExpectedResponses(s: Sys)
    requires Reachable(s) && !s.vm.mode.Stopped?
    ensures multiset(s.vm.expected) == Announced(VmOut(s)) + Answered(Q(s.down, VM))
    ensures VmOut(s) == [] && Q(s.down, VM) == [] ==> s.vm.expected == {}
  {
    Holding(s);
    if VmOut(s) == [] && Q(s.down, VM) == [] {
      NothingExpected(s);
    }
  }
}
