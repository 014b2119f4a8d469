/** The replies to a call are the successive results of its operator's step function. */
module OperatorTracking {
  import opened Values
  import opened Packets
  import opened VmModel
  import opened SystemModel
  import opened CallTracking
  import opened ChannelTracking

  ghost function StateAt(start: OpState, steps: seq<StepResult>, i: nat): OpState
    requires i <= |steps|
  {
    if i == 0 then start else match steps[i - 1] case OkOutput(_, _, next) => next case ErrorOutput(_) => start
  }

  /** Successive results of step(), only the last of which may end the loop. */
  ghost predicate LegalRun(start: OpState, steps: seq<StepResult>) {
    && (forall i: nat | i < |steps| :: MayStep(StateAt(start, steps, i), steps[i]))
    && (forall i: nat | i < |steps| - 1 :: !Last(steps[i]))
  }

  ghost predicate RepliesAreSteps(tx: Tx, outs: seq<Packet>, steps: seq<StepResult>) {
    |outs| == |steps| && forall i: nat | i < |steps| :: outs[i] == ReplyOf(tx, i, steps[i])
  }

  /** The record of a call agrees with the packet that carries it. */
  ghost predicate Carries(s: Sys, p: Packet) {
    p.Execute? ==>
      && p.tx in s.calls && s.calls[p.tx].instr == p.instr
      && s.calls[p.tx].name == p.name && s.calls[p.tx].input == p.input
  }

  ghost predicate StepsOk(c: Call, tx: Tx, running: Option<Run>) {
    if c.start.None? then
      && c.steps == [] && !c.phase.Active?
      && (c.instr.CallFunction? || c.instr.CallMethod? ==> forall p | p in c.outs :: p.Reply? && p.out.Fail?)
    else
      && (c.phase.Active? || c.phase.Done?)
      && RepliesAreSteps(tx, c.outs, c.steps) && LegalRun(c.start.value, c.steps)
      && (c.phase.Done? ==> c.steps != [] && Last(c.steps[|c.steps| - 1]))
      && (c.phase.Active? ==>
           (forall i: nat | i < |c.steps| :: !Last(c.steps[i])) &&
           running.Some? && running.value.op == StateAt(c.start.value, c.steps, |c.steps|))
      && (c.instr.CallFunction? ==> MayInit(c.instr.op, c.input, Ready(c.start.value)))
  }

  ghost predicate OperatorsInv(s: Sys) {
    && (forall n: Node, p | p in Q(s.up, n) :: Carries(s, p))
    && (forall p | p in Q(s.down, VM) :: Carries(s, p))
    && forall tx | tx in s.calls :: StepsOk(s.calls[tx], tx, s.vm.running)
  }

  lemma InitOperators(s: Sys)
    requires Initial(s)
    ensures OperatorsInv(s)
  {
  }

  // ------------------------------------------------------------- the packets

  ghost predicate AllCarry(s: Sys) {
    && (forall n: Node, p | p in Q(s.up, n) :: Carries(s, p))
    && (forall p | p in Q(s.down, VM) :: Carries(s, p))
  }

  /** Calls keep their instruction, name and input. */
  ghost predicate SameRequests(s: Sys, s': Sys) {
    forall tx | tx in s.calls ::
      && tx in s'.calls && s'.calls[tx].instr == s.calls[tx].instr
      && s'.calls[tx].name == s.calls[tx].name && s'.calls[tx].input == s.calls[tx].input
  }

  lemma CarryOn(s: Sys, s': Sys, extra: Packet)
    requires AllCarry(s) && SameRequests(s, s') && Carries(s', extra)
    requires forall n: Node, p | p in Q(s'.up, n) :: p == extra || !p.Execute? || p in Q(s.up, n)
    requires forall p | p in Q(s'.down, VM) :: p == extra || !p.Execute? || p in Q(s.down, VM)
    ensures AllCarry(s')
  {
    forall n: Node, p | p in Q(s'.up, n) ensures Carries(s', p) {
      assert p in Q(s.up, n) ==> Carries(s, p);
    }
    forall p | p in Q(s'.down, VM) ensures Carries(s', p) {
      assert p in Q(s.down, VM) ==> Carries(s, p);
    }
  }

  lemma RecvCarries(s: Sys, n: Node, s': Sys)
    requires AllCarry(s) && Received(s, n, s')
    ensures AllCarry(s')
  {
    var p := Q(s.up, n)[0];
    assert p in Q(s.up, n);
    assert Carries(s, p);
    CarryOn(s, s', p);
  }

  // --------------------------------------------------------------- the steps

  lemma LegalNext(start: OpState, steps: seq<StepResult>, r: StepResult)
    requires LegalRun(start, steps) && (forall i: nat | i < |steps| :: !Last(steps[i]))
    requires MayStep(StateAt(start, steps, |steps|), r)
    ensures LegalRun(start, steps + [r])
    ensures !Last(r) ==> StateAt(start, steps + [r], |steps| + 1) == r.next
  {
    var all := steps + [r];
    forall i: nat | i < |all| ensures MayStep(StateAt(start, all, i), all[i]) && (i < |steps| ==> !Last(all[i])) {
      StatePrefix(start, steps, r, i);
      StepPrefix(start, steps, r, i);
    }
    StatePrefix(start, steps, r, |steps|);
  }

  lemma StepPrefix(start: OpState, steps: seq<StepResult>, r: StepResult, i: nat)
    requires LegalRun(start, steps) && i <= |steps|
    ensures (steps + [r])[i] == if i < |steps| then steps[i] else r
    ensures i < |steps| ==> MayStep(StateAt(start, steps, i), steps[i])
  {
  }

  lemma StatePrefix(start: OpState, steps: seq<StepResult>, r: StepResult, i: nat)
    requires i <= |steps|
    ensures StateAt(start, steps + [r], i) == StateAt(start, steps, i)
  {
    if i > 0 {
      assert (steps + [r])[i - 1] == steps[i - 1];
    }
  }

  /** A VM step concerns one call. */
  lemma OthersOk(s: Sys, s': Sys, tx: Tx)
    requires CallsInv(s) && OperatorsInv(s) && tx in s.calls && s'.calls.Keys == s.calls.Keys
    requires forall t | t in s.calls && t != tx :: s'.calls[t] == s.calls[t]
    requires s.vm.running.None? || s.vm.running.value.tx == tx
    requires StepsOk(s'.calls[tx], tx, s'.vm.running)
    ensures forall t | t in s'.calls :: StepsOk(s'.calls[t], t, s'.vm.running)
  {
    forall t | t in s'.calls && t != tx ensures StepsOk(s'.calls[t], t, s'.vm.running) {
      assert CallOk(s, t) && StepsOk(s.calls[t], t, s.vm.running);
    }
  }

  /** One round of the step loop extends the run of its call. */
  lemma StepOperators(s: Sys, r: StepResult)
    requires CallsInv(s) && OperatorsInv(s) && Enabled(s, VmStep(r))
    ensures OperatorsInv(Apply(s, VmStep(r)))
  {
    var s', run := Apply(s, VmStep(r)), s.vm.running.value;
    var tx := run.tx;
    assert CallOk(s, tx);
    StepRecords(s, r, s');
    OthersOk(s, s', tx);
    assert SameRequests(s, s');
    assert AllCarry(s);
    CarryOn(s, s', Connect(""));
  }

  lemma StepRecords(s: Sys, r: StepResult, s': Sys)
    requires s.vm.running.Some? && MayStep(s.vm.running.value.op, r) && s'.vm == Emits(s.vm, r)
    requires var tx := s.vm.running.value.tx;
      && tx in s.calls && s.calls[tx].phase.Active? && StepsOk(s.calls[tx], tx, s.vm.running)
      && s.vm.running.value.next == |s.calls[tx].outs|
      && s'.calls == s.calls[tx := StepNoted(s.calls[tx], s'.vm, tx, r)]
    ensures var tx := s.vm.running.value.tx; StepsOk(s'.calls[tx], tx, s'.vm.running)
  {
    var run := s.vm.running.value;
    var reply := ReplyOf(run.tx, run.next, r);
    assert [reply][1..] == [];
    assert Replies([reply], run.tx) == [reply] + Replies([], run.tx) == [reply];
    StepExtends(s.calls[run.tx], run.tx, run, r);
  }

  lemma StepExtends(c: Call, tx: Tx, run: Run, r: StepResult)
    requires c.phase.Active? && StepsOk(c, tx, Some(run)) && run.next == |c.outs| && MayStep(run.op, r)
    ensures var c' := c.(outs := c.outs + [ReplyOf(tx, run.next, r)], steps := c.steps + [r],
                         phase := if Last(r) then Done else Active);
      StepsOk(c', tx, if Last(r) then None else Some(Run(run.tx, run.next + 1, r.next)))
  {
    LegalNext(c.start.value, c.steps, r);
  }

  lemma TakeOperators(s: Sys, init: Init, made: Made, ids: seq<Tx>)
    requires CallsInv(s) && OperatorsInv(s) && Enabled(s, VmTake(init, made, ids))
    ensures OperatorsInv(Apply(s, VmTake(init, made, ids)))
  {
    var p, s' := Q(s.down, VM)[0], Apply(s, VmTake(init, made, ids));
    assert p in Q(s.down, VM);
    assert Carries(s, p);
    TakeCarries(s, init, made, ids);
    if p.Execute? {
      TakenCall(s);
      assert CallOk(s, p.tx);
      TakeStartsRun(s, p, init, made, ids);
      OthersOk(s, s', p.tx);
    } else {
      assert s'.calls == s.calls;
    }
  }

  lemma TakeCarries(s: Sys, init: Init, made: Made, ids: seq<Tx>)
    requires AllCarry(s) && Enabled(s, VmTake(init, made, ids))
    ensures AllCarry(Apply(s, VmTake(init, made, ids)))
  {
    var s' := Apply(s, VmTake(init, made, ids));
    assert SameRequests(s, s');
    CarryOn(s, s', Connect(""));
  }

  lemma TakeStartsRun(s: Sys, p: Packet, init: Init, made: Made, ids: seq<Tx>)
    requires Idle(s.vm) && p.Execute? && TakeFits(s.vm, p, init, made, ids) && Carries(s, p)
    requires s.calls[p.tx].phase.Routed? && OutsFit(p.tx, s.calls[p.tx]) && StepsOk(s.calls[p.tx], p.tx, s.vm.running)
    ensures var v := Handle(s.vm, p, init, made, ids); StepsOk(NoteTaken(s, p, v, init)[p.tx], p.tx, v.running)
  {
    var before, r := HandleSends(s.vm, p, init, made, ids);
    var v := Handle(s.vm, p, init, made, ids);
    if v.running.None? {
      OneReply(before, r, p.tx);
      assert v.pending == before + [r];
      assert p.instr.CallFunction? || p.instr.CallMethod? ==> r.out.Fail?;
    }
  }

  lemma RecvOperators(s: Sys, n: Node, s': Sys)
    requires CallsInv(s) && OperatorsInv(s) && Received(s, n, s')
    ensures OperatorsInv(s')
  {
    var p := Q(s.up, n)[0];
    assert AllCarry(s);
    RecvCarries(s, n, s');
    if p.Execute? {
      ReadCall(s, n);
      assert CallOk(s, p.tx);
    }
    forall t | t in s'.calls ensures StepsOk(s'.calls[t], t, s'.vm.running) {
      assert StepsOk(s.calls[t], t, s.vm.running);
    }
  }

  lemma DrainOperators(s: Sys)
    requires CallsInv(s) && OperatorsInv(s) && Enabled(s, VmDrain)
    ensures OperatorsInv(Apply(s, VmDrain))
  {
    DrainFields(s);
    var p, s' := Q(s.down, VM)[0], DrainStep(s);
    assert p in Q(s.down, VM);
    if p.Execute? {
      TakenCall(s);
      assert CallOk(s, p.tx);
    }
    forall t | t in s'.calls ensures StepsOk(s'.calls[t], t, s'.vm.running) {
      assert StepsOk(s.calls[t], t, s.vm.running);
    }
    assert AllCarry(s) && SameRequests(s, s');
    CarryOn(s, s', Connect(""));
  }

  /** Actions that leave the calls and the step loop alone. */
  lemma SameOperators(s: Sys, s': Sys, extra: Packet)
    requires OperatorsInv(s) && s'.calls == s.calls && s'.vm.running == s.vm.running && !extra.Execute?
    requires forall n: Node, p | p in Q(s'.up, n) :: p == extra || !p.Execute? || p in Q(s.up, n)
    requires forall p | p in Q(s'.down, VM) :: p in Q(s.down, VM)
    ensures OperatorsInv(s')
  {
    assert AllCarry(s) && SameRequests(s, s');
    CarryOn(s, s', extra);
  }

  lemma CallOperators(s: Sys, n: Node, tx: Tx, instr: Instr, name: string, input: Value)
    requires CallsInv(s) && OperatorsInv(s) && Enabled(s, ClientCall(n, tx, instr, name, input))
    ensures OperatorsInv(CallStep(s, n, tx, instr, name, input))
  {
    var s', p := CallStep(s, n, tx, instr, name, input), Execute(tx, instr, name, input);
    assert tx !in s.calls;
    assert AllCarry(s) && SameRequests(s, s');
    CarryOn(s, s', p);
    forall t | t in s'.calls ensures StepsOk(s'.calls[t], t, s'.vm.running) {
      assert t != tx ==> StepsOk(s.calls[t], t, s.vm.running);
    }
  }

  lemma OperatorsStep(s: Sys, a: Action)
    requires CallsInv(s) && OperatorsInv(s) && Enabled(s, a)
    ensures OperatorsInv(Apply(s, a))
  {
    match a {
      case ClientCall(n, tx, instr, name, input) => CallOperators(s, n, tx, instr, name, input);
      case BrokerRecv(n) => RecvOperators(s, n, Apply(s, a));
      case VmTake(init, made, ids) => TakeOperators(s, init, made, ids);
      case VmStep(r) => StepOperators(s, r);
      case VmDrain => DrainOperators(s);
      case VmFlush => FlushOperators(s);
      case VmStop(names, ids) => SameOperators(s, Apply(s, a), Connect(""));
      case VmLeave(tx) => SameOperators(s, Apply(s, a), Connect(""));
      case _ => ClientOperators(s, a);
    }
  }

  lemma ClientOperators(s: Sys, a: Action)
    requires OperatorsInv(s) && Enabled(s, a) && ClientAction(a) && !a.ClientCall?
    ensures OperatorsInv(Apply(s, a))
  {
    ClientLeavesVm(s, a);
    var sent := if a.ClientConnect? then Connect(a.tx)
      else if a.ClientDisconnect? then Disconnect(a.tx) else Connect("");
    SameOperators(s, Apply(s, a), sent);
  }

  lemma FlushOperators(s: Sys)
    requires CallsInv(s) && OperatorsInv(s) && Enabled(s, VmFlush)
    ensures OperatorsInv(Apply(s, VmFlush))
  {
    assert s.vm.pending[0] in VmOut(s);
    SameOperators(s, Apply(s, VmFlush), s.vm.pending[0]);
  }

  // ------------------------------------------------------------------- spell

  /** spell begins, with its text, exactly if the input is a map that has a string as "text". */
  lemma SpellBeginsIff(input: Value, init: Init)
    requires MayInit("spell", input, init)
    ensures init.Ready? <==> input.Map? && "text" in input.fields && input.fields["text"].Str?
    ensures init.Ready? ==> init.state == Spelling(input.fields["text"].s, 0)
  {
  }

  /** spell has no choice: its i-th step is SpellStep at i. */
  lemma {:induction false} SpellIsDetermined(text: string, steps: seq<StepResult>, i: nat)
    requires LegalRun(Spelling(text, 0), steps) && i < |steps|
    ensures steps[i] == SpellStep(text, i)
    ensures StateAt(Spelling(text, 0), steps, i) == Spelling(text, i)
  {
    if i > 0 {
      SpellIsDetermined(text, steps, i - 1);
      assert !Last(steps[i - 1]);
    }
    assert MayStep(StateAt(Spelling(text, 0), steps, i), steps[i]);
  }

  /** A complete run of spell on a text that is not empty yields its characters; on the empty
      text it yields one empty string and then fails. */
  lemma SpellRun(text: string, steps: seq<StepResult>)
    requires LegalRun(Spelling(text, 0), steps) && steps != [] && Last(steps[|steps| - 1])
    ensures text != "" ==> |steps| == |text| && forall i: nat | i < |text| ::
              steps[i] == OkOutput(Map(map["text" := Str([text[i]])]), i + 1 == |text|, Spelling(text, i + 1))
    ensures text == "" ==>
      |steps| == 2 && steps[0] == OkOutput(Map(map["text" := Str("")]), false, Spelling("", 1)) && steps[1].ErrorOutput?
  {
    var n := |steps| - 1;
    forall i: nat | i < |steps| ensures steps[i] == SpellStep(text, i) {
      SpellIsDetermined(text, steps, i);
    }
    if n > 1 || text != "" {
      var stop := if text == "" then 1 else |text| - 1;
      if stop < n {
        SpellStops(text, steps, stop);
      }
    }
  }

  lemma SpellStops(text: string, steps: seq<StepResult>, i: nat)
    requires LegalRun(Spelling(text, 0), steps) && i < |steps| - 1
    ensures i + 1 != |text| && i <= |text|
  {
    SpellIsDetermined(text, steps, i);
    assert !Last(steps[i]);
  }
}
