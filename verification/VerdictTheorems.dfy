/** Why a call was answered as it was. */
module VerdictTheorems {
  import opened Values
  import opened Packets
  import opened VmModel
  import opened SystemModel
  import opened CallTracking
  import opened OperatorTracking
  import opened ProtocolTheorems

  // Every refusal has one reason, and it held in the state in which the call was refused;
  // every other call is run by its operator, or answered with success.

  /** The answer to a call of an operator or a method that is refused. */
  ghost predicate RefusedWith(c: Call, tx: Tx, reason: string) {
    c.start.None? && c.outs == [Reply(tx, 0, true, Fail(reason))]
  }

  ghost predicate Succeeded(c: Call, tx: Tx) {
    c.outs == [Reply(tx, 0, true, Out(Map(map[])))]
  }

  /** What becomes of a call that a VM in state v takes, `init` being what initialize returns and
      `made` what the factory returns. */
  ghost predicate Verdict(v: VmState, tx: Tx, c: Call, init: Init, made: Made) {
    match c.instr
    case CallFunction(op) =>
      if op !in v.operators then RefusedWith(c, tx, "Unknown operator: " + op)
      else if init.InitError? then RefusedWith(c, tx, init.reason)
      else c.start == Some(init.state)
    case CallMethod(comp, op) =>
      if comp !in v.components then RefusedWith(c, tx, "Component not exists: " + comp)
      else if op !in v.components[comp] then RefusedWith(c, tx, "Method not exists: " + comp + "." + op)
      else if init.InitError? then RefusedWith(c, tx, init.reason)
      else c.start == Some(init.state)
    case DefineComponent(comptype) =>
      if comptype !in v.factories then RefusedWith(c, tx, "Unknown operator: " + comptype)
      else if c.name in v.factories then RefusedWith(c, tx, "Component already exists: " + c.name)
      else if made.NotMade? then RefusedWith(c, tx, made.reason)
      else Succeeded(c, tx)
    case DeleteComponent(comp) =>
      if comp !in v.components then RefusedWith(c, tx, "Component not exists: " + comp)
      else Succeeded(c, tx)
  }

  ghost function Asking(tx: Tx, c: Call): Packet {
    Execute(tx, c.instr, c.name, c.input)
  }

  /** The VM took the call in a state it could be in, and the answer is the one due there. */
  ghost predicate TakenSo(tx: Tx, c: Call, s: Sys, init: Init, made: Made, ids: seq<Tx>) {
    && Reachable(s) && Enabled(s, VmTake(init, made, ids)) && Q(s.down, VM)[0] == Asking(tx, c)
    && Verdict(s.vm, tx, c, init, made)
  }

  /** The broker read the call when nobody had subscribed its channel. */
  ghost predicate UnroutableSo(tx: Tx, c: Call, s: Sys) {
    && Reachable(s) && Enabled(s, BrokerRecv(c.origin)) && Q(s.up, c.origin)[0] == Asking(tx, c)
    && ChannelOf(c.instr) !in s.broker.subs
    && RefusedWith(c, tx, "There is no channel can handle this request")
  }

  ghost predicate Explained(tx: Tx, c: Call) {
    match c.phase
    case Refused => exists s :: UnroutableSo(tx, c, s)
    case Active => exists s, init, made, ids :: TakenSo(tx, c, s, init, made, ids)
    case Done => exists s, init, made, ids :: TakenSo(tx, c, s, init, made, ids)
    case _ => c.outs == []
  }

  /** The record of a call that a handler has dealt with, as NoteTaken makes it. */
  ghost function Noted(c: Call, tx: Tx, v': VmState, init: Init): Call {
    if v'.running.Some? && init.Ready? then c.(phase := Active, start := Some(init.state))
    else c.(phase := Done, outs := c.outs + Replies(v'.pending, tx))
  }

  lemma HandleJudges(v: VmState, p: Packet, init: Init, made: Made, ids: seq<Tx>, c: Call)
    requires Idle(v) && p.Execute? && TakeFits(v, p, init, made, ids)
    requires Asking(p.tx, c) == p && c.start.None? && c.outs == []
    ensures var v' := Handle(v, p, init, made, ids); Judged(v, p.tx, Noted(c, p.tx, v', init), init, made, v')
  {
    var v' := Handle(v, p, init, made, ids);
    var before, r := HandleSends(v, p, init, made, ids);
    if v'.running.None? {
      OneReply(before, r, p.tx);
      assert v'.pending[|v'.pending| - 1] == r;
      assert c.outs + [r] == [r];
    }
    LastIsVerdict(v, p, init, made, ids, Noted(c, p.tx, v', init));
  }

  /** The last packet a handler sends, or the run it starts, is the verdict. */
  lemma LastIsVerdict(v: VmState, p: Packet, init: Init, made: Made, ids: seq<Tx>, c: Call)
    requires Idle(v) && p.Execute? && TakeFits(v, p, init, made, ids) && Asking(p.tx, c) == p
    requires var v' := Handle(v, p, init, made, ids);
      if v'.running.Some? then c.start == Some(v'.running.value.op)
      else c.start.None? && v'.pending != [] && c.outs == [v'.pending[|v'.pending| - 1]]
    ensures Verdict(v, p.tx, c, init, made)
  {
  }

  /** What the VM does with a call in the moment it takes it: it runs the operator, or answers at
      once with the verdict. */
  lemma TakenIsJudged(s: Sys, init: Init, made: Made, ids: seq<Tx>)
    requires SysInv(s) && Enabled(s, VmTake(init, made, ids)) && Q(s.down, VM)[0].Execute?
    ensures var p, t := Q(s.down, VM)[0], Apply(s, VmTake(init, made, ids));
      && p.tx in s.calls && p.tx in t.calls && Asking(p.tx, t.calls[p.tx]) == p
      && Judged(s.vm, p.tx, t.calls[p.tx], init, made, t.vm)
  {
    var p := Q(s.down, VM)[0];
    CallTaken(s);
    HandleJudges(s.vm, p, init, made, ids, s.calls[p.tx]);
    Notes(s, init, made, ids);
  }

  /** With v' the VM's state once it has dealt with a call. */
  ghost predicate Judged(v: VmState, tx: Tx, c: Call, init: Init, made: Made, v': VmState) {
    && Verdict(v, tx, c, init, made)
    && if c.start.Some? then
        c.phase.Active? && c.outs == [] && v'.running == Some(Run(tx, 0, c.start.value)) && v'.pending == []
      else c.phase.Done? && v'.running.None? && Replies(v'.pending, tx) == c.outs
  }

  lemma Notes(s: Sys, init: Init, made: Made, ids: seq<Tx>)
    requires Enabled(s, VmTake(init, made, ids)) && Q(s.down, VM)[0].Execute? && Q(s.down, VM)[0].tx in s.calls
    ensures var p, t := Q(s.down, VM)[0], Apply(s, VmTake(init, made, ids));
      && t.vm == Handle(s.vm, p, init, made, ids)
      && p.tx in t.calls && t.calls[p.tx] == Noted(s.calls[p.tx], p.tx, t.vm, init)
  {
  }

  lemma CallTaken(s: Sys)
    requires SysInv(s) && Q(s.down, VM) != [] && Q(s.down, VM)[0].Execute?
    ensures var p := Q(s.down, VM)[0]; p.tx in s.calls && Asking(p.tx, s.calls[p.tx]) == p
    ensures var c := s.calls[Q(s.down, VM)[0].tx]; c.phase.Routed? && c.start.None? && c.outs == []
  {
    var p := Q(s.down, VM)[0];
    TakenCall(s);
    CallFacts(s, p.tx);
    assert p in Q(s.down, VM);
    assert Carries(s, p);
  }

  lemma CallRead(s: Sys, n: Node)
    requires SysInv(s) && Q(s.up, n) != [] && Q(s.up, n)[0].Execute?
    ensures var p := Q(s.up, n)[0]; p.tx in s.calls && Asking(p.tx, s.calls[p.tx]) == p
    ensures var c := s.calls[Q(s.up, n)[0].tx]; c.phase.Asked? && c.start.None? && c.outs == [] && c.origin == n
  {
    var p := Q(s.up, n)[0];
    ReadCall(s, n);
    CallFacts(s, p.tx);
    assert p in Q(s.up, n);
    assert Carries(s, p);
  }

  lemma TakenIsExplained(s: Sys, init: Init, made: Made, ids: seq<Tx>)
    requires Reachable(s) && Enabled(s, VmTake(init, made, ids)) && Q(s.down, VM)[0].Execute?
    ensures var p, t := Q(s.down, VM)[0], Apply(s, VmTake(init, made, ids));
      p.tx in t.calls && Explained(p.tx, t.calls[p.tx])
  {
    Holding(s);
    TakenIsJudged(s, init, made, ids);
    var p, t := Q(s.down, VM)[0], Apply(s, VmTake(init, made, ids));
    assert TakenSo(p.tx, t.calls[p.tx], s, init, made, ids);
  }

  lemma RoutedIsExplained(s: Sys, n: Node)
    requires Reachable(s) && Enabled(s, BrokerRecv(n)) && Q(s.up, n)[0].Execute?
    ensures var p, t := Q(s.up, n)[0], Apply(s, BrokerRecv(n)); p.tx in t.calls && Explained(p.tx, t.calls[p.tx])
  {
    Holding(s);
    CallRead(s, n);
    var p := Q(s.up, n)[0];
    var c := Apply(s, BrokerRecv(n)).calls[p.tx];
    if c.phase.Refused? {
      assert [] + c.outs == c.outs;
      assert UnroutableSo(p.tx, c, s);
    }
  }

  /** A call that its operator goes on with keeps its verdict. */
  lemma VerdictStays(tx: Tx, c: Call, c': Call)
    requires Explained(tx, c) && c.phase.Active? && (c'.phase.Active? || c'.phase.Done?)
    requires c.start.Some? && c'.start == c.start && Asking(tx, c') == Asking(tx, c)
    requires c.outs != [] ==> c.outs[0].Reply? && !c.outs[0].finish
    ensures Explained(tx, c')
  {
    var s, init, made, ids :| TakenSo(tx, c, s, init, made, ids);
    StartIsVerdict(s.vm, tx, c, c', init, made);
    assert TakenSo(tx, c', s, init, made, ids);
  }

  lemma StartIsVerdict(v: VmState, tx: Tx, c: Call, c': Call, init: Init, made: Made)
    requires Verdict(v, tx, c, init, made)
    requires c.start.Some? && c'.start == c.start && Asking(tx, c') == Asking(tx, c)
    requires c.outs != [] ==> c.outs[0].Reply? && !c.outs[0].finish
    ensures Verdict(v, tx, c', init, made)
  {
  }

  lemma StepIsExplained(s: Sys, r: StepResult)
    requires SysInv(s) && Enabled(s, VmStep(r)) && AllExplained(s)
    ensures var tx, t := s.vm.running.value.tx, Apply(s, VmStep(r)); tx in t.calls && Explained(tx, t.calls[tx])
  {
    var tx := s.vm.running.value.tx;
    RunningCall(s, tx);
    AfterStep(s, r);
    VerdictStays(tx, s.calls[tx], Apply(s, VmStep(r)).calls[tx]);
  }

  lemma AfterStep(s: Sys, r: StepResult)
    requires Enabled(s, VmStep(r)) && s.vm.running.value.tx in s.calls
    ensures var tx, t := s.vm.running.value.tx, Apply(s, VmStep(r));
      && tx in t.calls && t.calls[tx].start == s.calls[tx].start && Asking(tx, t.calls[tx]) == Asking(tx, s.calls[tx])
      && (t.calls[tx].phase == s.calls[tx].phase || t.calls[tx].phase.Done?)
  {
  }

  lemma RunningCall(s: Sys, tx: Tx)
    requires SysInv(s) && s.vm.running.Some? && s.vm.running.value.tx == tx
    ensures tx in s.calls && s.calls[tx].phase.Active? && s.calls[tx].start.Some?
    ensures var outs := s.calls[tx].outs; outs != [] ==> outs[0].Reply? && !outs[0].finish
  {
    assert CallOk(s, tx);
    CallFacts(s, tx);
  }

  ghost predicate AllExplained(s: Sys) {
    forall tx | tx in s.calls :: Explained(tx, s.calls[tx])
  }

  /** The one call whose record an action can change. */
  ghost function Concerned(s: Sys, a: Action): Option<Tx>
    requires Enabled(s, a)
  {
    match a
    case ClientCall(_, tx, _, _, _) => Some(tx)
    case BrokerRecv(n) => if Q(s.up, n)[0].Execute? then Some(Q(s.up, n)[0].tx) else None
    case VmTake(_, _, _) => if Q(s.down, VM)[0].Execute? then Some(Q(s.down, VM)[0].tx) else None
    case VmDrain => if Q(s.down, VM)[0].Execute? then Some(Q(s.down, VM)[0].tx) else None
    case VmStep(_) => Some(s.vm.running.value.tx)
    case _ => None
  }

  lemma OthersUnconcerned(s: Sys, a: Action, tx: Tx)
    requires Enabled(s, a) && tx in Apply(s, a).calls && Concerned(s, a) != Some(tx)
    ensures tx in s.calls && Apply(s, a).calls[tx] == s.calls[tx]
  {
    if a.VmDrain? {
      DrainFields(s);
    }
  }

  lemma ConcernedIsExplained(s: Sys, a: Action)
    requires Reachable(s) && SysInv(s) && AllExplained(s) && Enabled(s, a) && Concerned(s, a).Some?
    ensures var tx := Concerned(s, a).value; tx in Apply(s, a).calls ==> Explained(tx, Apply(s, a).calls[tx])
  {
    match a {
      case BrokerRecv(n) => RoutedIsExplained(s, n);
      case VmTake(init, made, ids) => TakenIsExplained(s, init, made, ids);
      case VmStep(r) => StepIsExplained(s, r);
      case VmDrain => DropIsExplained(s);
      case _ =>
    }
  }

  lemma DropIsExplained(s: Sys)
    requires SysInv(s) && Enabled(s, VmDrain) && Q(s.down, VM)[0].Execute?
    ensures var tx := Q(s.down, VM)[0].tx; tx in DrainStep(s).calls && Explained(tx, DrainStep(s).calls[tx])
  {
    TakenCall(s);
    CallFacts(s, Q(s.down, VM)[0].tx);
  }

  lemma ExplainedStep(s: Sys, a: Action)
    requires Reachable(s) && SysInv(s) && AllExplained(s) && Enabled(s, a)
    ensures AllExplained(Apply(s, a))
  {
    var t := Apply(s, a);
    forall tx | tx in t.calls ensures Explained(tx, t.calls[tx]) {
      if Concerned(s, a) == Some(tx) {
        ConcernedIsExplained(s, a);
      } else {
        OthersUnconcerned(s, a, tx);
      }
    }
  }

  lemma {:induction false} ExplainedRun(s: Sys, acts: seq<Action>, t: Sys)
    requires Reachable(s) && SysInv(s) && AllExplained(s) && Leads(s, acts, t)
    ensures AllExplained(t)
    decreases |acts|
  {
    if acts != [] {
      ReachableNext(s, acts[0]);
      InvStep(s, acts[0]);
      ExplainedStep(s, acts[0]);
      ExplainedRun(Apply(s, acts[0]), acts[1..], t);
    }
  }

  /** Every answer in every run: a call the broker turned down found no subscriber of its channel; a
      call the VM answered without running it was refused because the name was absent when it was
      taken, or with the reason initialize or the factory gave; and every other one was run, or
      succeeded. */
  lemma EveryAnswerIsDue(s: Sys, tx: Tx)
    requires Reachable(s) && tx in s.calls
    ensures Explained(tx, s.calls[tx])
  {
    var s0, acts :| Initial(s0) && Leads(s0, acts, s);
    assert Leads(s0, [], s0);
    InvInit(s0);
    ExplainedRun(s0, acts, s);
  }

  // ------------------------------------------------------- what a client holds

  lemma {:induction false} ClosedRun(s: Sys, acts: seq<Action>, t: Sys, tx: Tx)
    requires SysInv(s) && Leads(s, acts, t) && tx in s.calls && s.calls[tx].phase.Done?
    ensures SysInv(t) && tx in t.calls && t.calls[tx] == s.calls[tx]
    decreases |acts|
  {
    if acts != [] {
      InvStep(s, acts[0]);
      ClosedStays(s, acts[0], tx);
      ClosedRun(Apply(s, acts[0]), acts[1..], t, tx);
    }
  }

  /** A reply that any client holds to a define or a delete, at any time after it was taken, is the
      one due when it was taken. */
  lemma HeldIsVerdict(s: Sys, init: Init, made: Made, ids: seq<Tx>, acts: seq<Action>, t: Sys, n: Node, p: Packet)
    requires SysInv(s) && Enabled(s, VmTake(init, made, ids)) && Q(s.down, VM)[0].Execute?
    requires Q(s.down, VM)[0].instr.DefineComponent? || Q(s.down, VM)[0].instr.DeleteComponent?
    requires Leads(Apply(s, VmTake(init, made, ids)), acts, t) && p in Replies(Q(t.recvd, n), Q(s.down, VM)[0].tx)
    ensures var tx := Q(s.down, VM)[0].tx;
      && tx in t.calls && t.calls[tx].origin == n && t.calls[tx].outs == [p]
      && Asking(tx, t.calls[tx]) == Q(s.down, VM)[0] && Verdict(s.vm, tx, t.calls[tx], init, made)
  {
    var tx, s1 := Q(s.down, VM)[0].tx, Apply(s, VmTake(init, made, ids));
    InvStep(s, VmTake(init, made, ids));
    DecidedAtOnce(s, init, made, ids);
    HeldAfter(s1, acts, t, tx, n, p);
  }

  lemma HeldAfter(s: Sys, acts: seq<Action>, t: Sys, tx: Tx, n: Node, p: Packet)
    requires SysInv(s) && Leads(s, acts, t) && p in Replies(Q(t.recvd, n), tx)
    requires tx in s.calls && s.calls[tx].phase.Done? && |s.calls[tx].outs| == 1
    ensures tx in t.calls && t.calls[tx] == s.calls[tx] && t.calls[tx].origin == n && t.calls[tx].outs == [p]
  {
    ClosedRun(s, acts, t, tx);
    CallFacts(t, tx);
    OnlyReply(t, tx, n, p);
  }

  lemma OnlyReply(s: Sys, tx: Tx, n: Node, p: Packet)
    requires tx in s.calls && Conserved(s, tx) && p in Replies(Q(s.recvd, n), tx) && |s.calls[tx].outs| == 1
    ensures s.calls[tx].origin == n && s.calls[tx].outs == [p]
  {
    assert p in s.calls[tx].outs;
  }

  /** A define or a delete is answered in the moment it is taken. */
  lemma DecidedAtOnce(s: Sys, init: Init, made: Made, ids: seq<Tx>)
    requires SysInv(s) && Enabled(s, VmTake(init, made, ids)) && Q(s.down, VM)[0].Execute?
    requires Q(s.down, VM)[0].instr.DefineComponent? || Q(s.down, VM)[0].instr.DeleteComponent?
    ensures var p, t := Q(s.down, VM)[0], Apply(s, VmTake(init, made, ids));
      && p.tx in t.calls && t.calls[p.tx].phase.Done? && |t.calls[p.tx].outs| == 1
      && Asking(p.tx, t.calls[p.tx]) == p && Verdict(s.vm, p.tx, t.calls[p.tx], init, made)
  {
    TakenIsJudged(s, init, made, ids);
  }
}
