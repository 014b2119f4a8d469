/** The virtual machine of vm/src/vm.cpp. An unordered_map that is only iterated over is
    the sequence of its keys in iteration order; fresh uuids come in as `ids`. */
module VmModel {
  import opened Values
  import opened Packets

  // --------------------------------------------------------------- operators

  /** The state of an operator between two steps. `Opaque` operators may do anything. */
  datatype OpState = Spelling(msg: string, idx: nat) | Opaque

  datatype Init = InitError(reason: string) | Ready(state: OpState)

  /** output_t, with the operator's state after the step. */
  datatype StepResult = OkOutput(val: Value, finish: bool, next: OpState) | ErrorOutput(reason: string)

  /** Whether the step loop ends here. */
  predicate Last(r: StepResult) {
    r.ErrorOutput? || r.finish
  }

  function ReplyOf(tx: Tx, index: nat, r: StepResult): Packet {
    match r
    case OkOutput(val, finish, _) => Reply(tx, index, finish, Out(val))
    case ErrorOutput(reason) => FailReply(tx, index, reason)
  }

  function TextMap(s: string): Value {
    Map(map["text" := Str(s)])
  }

  /** The finit function of the debug operator `spell`. */
  function SpellInit(input: Value): Init {
    if !input.Map? then InitError("spell: inputs should be map_t")
    else if "text" !in input.fields then InitError("spell: text is missing")
    else if !input.fields["text"].Str? then InitError("spell: text should be string_t")
    else Ready(Spelling(input.fields["text"].s, 0))
  }

  /** The fstep function of `spell`. */
  function SpellStep(msg: string, idx: nat): StepResult {
    if idx > |msg| then ErrorOutput("Spell: Index overflow")
    else OkOutput(TextMap(if idx < |msg| then [msg[idx]] else ""), idx + 1 == |msg|, Spelling(msg, idx + 1))
  }

  /** The results op->initialize may have. */
  predicate MayInit(op: string, input: Value, init: Init) {
    op == "spell" ==> init == SpellInit(input)
  }

  /** The results op->step may have. */
  predicate MayStep(state: OpState, r: StepResult) {
    match state
    case Spelling(msg, idx) => r == SpellStep(msg, idx)
    case Opaque => r.OkOutput? ==> r.next.Opaque?
  }

  // ------------------------------------------------------------------- state

  datatype Mode = Serving | Draining | Stopped

  /** The call the VM is answering: its transaction and the index of its next reply. */
  datatype Run = Run(tx: Tx, next: nat, op: OpState)

  /** `pending` holds packets the running handler has not put in the mailbox yet. */
  datatype VmState = VmState(
    mode: Mode,
    operators: seq<string>,
    factories: seq<string>,
    components: map<string, seq<string>>,
    expected: set<Tx>,
    running: Option<Run>,
    pending: seq<Packet>)

  function SetOf(ids: seq<Tx>): set<Tx> {
    set id | id in ids
  }

  function Subscriptions(ids: seq<Tx>, instrs: seq<Instr>): seq<Packet>
    requires |ids| == |instrs|
  {
    seq(|ids|, k requires 0 <= k < |ids| => Subscribe(ids[k], instrs[k]))
  }

  function Unsubscriptions(ids: seq<Tx>, instrs: seq<Instr>): seq<Packet>
    requires |ids| == |instrs|
  {
    seq(|ids|, k requires 0 <= k < |ids| => Unsubscribe(ids[k], instrs[k]))
  }

  function Functions(ops: seq<string>): seq<Instr> {
    seq(|ops|, k requires 0 <= k < |ops| => CallFunction(ops[k]))
  }

  function Definitions(comptypes: seq<string>): seq<Instr> {
    seq(|comptypes|, k requires 0 <= k < |comptypes| => DefineComponent(comptypes[k]))
  }

  function Methods(comp: string, ops: seq<string>): seq<Instr> {
    seq(|ops|, k requires 0 <= k < |ops| => CallMethod(comp, ops[k]))
  }

  /** What on_import_module subscribes. */
  function ModuleInstrs(operators: seq<string>, factories: seq<string>): seq<Instr> {
    Functions(operators) + Definitions(factories)
  }

  /** What handle_define_component subscribes, in order. */
  function ComponentInstrs(comp: string, ops: seq<string>): seq<Instr> {
    [DeleteComponent(comp)] + Methods(comp, ops)
  }

  /** What handle_delete_component unsubscribes, in order. */
  function DeletionInstrs(comp: string, ops: seq<string>): seq<Instr> {
    Methods(comp, ops) + [DeleteComponent(comp)]
  }

  /** What on_stop unsubscribes, the components being iterated in the order of `names`. */
  function StopInstrs(v: VmState, names: seq<string>): seq<Instr>
    requires forall c | c in names :: c in v.components
  {
    ModuleInstrs(v.operators, v.factories) + AllComponentInstrs(v.components, names)
  }

  function AllComponentInstrs(components: map<string, seq<string>>, names: seq<string>): seq<Instr>
    requires forall c | c in names :: c in components
  {
    if names == [] then []
    else ComponentInstrs(names[0], components[names[0]]) + AllComponentInstrs(components, names[1..])
  }

  // ---------------------------------------------------------------- handlers

  /** What a component factory returns: a component with these methods, or an error. */
  datatype Made = Made(methods: seq<string>) | NotMade(reason: string)

  const EMPTY_MAP := Out(Map(map[]))

  function Refuse(v: VmState, tx: Tx, reason: string): VmState {
    v.(pending := [FailReply(tx, 0, reason)])
  }

  function Start(v: VmState, tx: Tx, init: Init): VmState {
    match init
    case InitError(reason) => Refuse(v, tx, reason)
    case Ready(state) => v.(running := Some(Run(tx, 0, state)))
  }

  function CallsFunction(v: VmState, tx: Tx, op: string, init: Init): VmState {
    if op !in v.operators then Refuse(v, tx, "Unknown operator: " + op) else Start(v, tx, init)
  }

  function CallsMethod(v: VmState, tx: Tx, comp: string, op: string, init: Init): VmState {
    if comp !in v.components then Refuse(v, tx, "Component not exists: " + comp)
    else if op !in v.components[comp] then Refuse(v, tx, "Method not exists: " + comp + "." + op)
    else Start(v, tx, init)
  }

  /** The reason a define is refused, if it is. */
  function DefineRefusal(v: VmState, comptype: string, name: string, made: Made): Option<string> {
    if comptype !in v.factories then Some("Unknown operator: " + comptype)
    else if name in v.factories then Some("Component already exists: " + name)
    else if made.NotMade? then Some(made.reason)
    else None
  }

  function Defines(v: VmState, tx: Tx, comptype: string, name: string, made: Made, ids: seq<Tx>): VmState
    requires DefineRefusal(v, comptype, name, made).None? ==> |ids| == |made.methods| + 1
  {
    var refusal := DefineRefusal(v, comptype, name, made);
    if refusal.Some? then Refuse(v, tx, refusal.value)
    else
      v.(components := v.components[name := made.methods],
         expected := v.expected + SetOf(ids),
         pending := Subscriptions(ids, ComponentInstrs(name, made.methods)) + [Reply(tx, 0, true, EMPTY_MAP)])
  }

  function Deletes(v: VmState, tx: Tx, comp: string, ids: seq<Tx>): VmState
    requires comp in v.components ==> |ids| == |v.components[comp]| + 1
  {
    if comp !in v.components then Refuse(v, tx, "Component not exists: " + comp)
    else
      v.(components := v.components - {comp},
         expected := v.expected + SetOf(ids),
         pending := Unsubscriptions(ids, DeletionInstrs(comp, v.components[comp])) + [Reply(tx, 0, true, EMPTY_MAP)])
  }

  /** One round of the step loop: the reply sent, and whether the loop goes on. */
  function Emits(v: VmState, r: StepResult): VmState
    requires v.running.Some?
  {
    var run := v.running.value;
    v.(pending := [ReplyOf(run.tx, run.next, r)],
       running := if Last(r) then None else Some(Run(run.tx, run.next + 1, r.next)))
  }

  function Stops(v: VmState, names: seq<string>, ids: seq<Tx>): VmState
    requires forall c | c in names :: c in v.components
    requires |ids| == |StopInstrs(v, names)|
  {
    v.(mode := Draining, expected := v.expected + SetOf(ids), pending := Unsubscriptions(ids, StopInstrs(v, names)))
  }

  /** The replies to a call whose operator yields `steps`: numbered from `from`, up to and
      including the last. */
  function RepliesFor(tx: Tx, from: nat, steps: seq<StepResult>): seq<Packet>
    decreases |steps|
  {
    if steps == [] then []
    else [ReplyOf(tx, from, steps[0])] + if Last(steps[0]) then [] else RepliesFor(tx, from + 1, steps[1..])
  }

  /** They are the results of the steps up to the first that ends the loop, one each. */
  lemma {:induction false} RepliesForAt(tx: Tx, from: nat, steps: seq<StepResult>, n: nat)
    requires n < |steps| && Last(steps[n]) && forall k: nat | k < n :: !Last(steps[k])
    ensures |RepliesFor(tx, from, steps)| == n + 1
    ensures forall k: nat | k <= n :: RepliesFor(tx, from, steps)[k] == ReplyOf(tx, from + k, steps[k])
    decreases n
  {
    if n > 0 {
      RepliesForAt(tx, from + 1, steps[1..], n - 1);
    }
  }

  lemma RepliesForNext(sent: seq<Packet>, tx: Tx, i: nat, steps: seq<StepResult>)
    requires i < |steps|
    ensures sent + RepliesFor(tx, i, steps[i..]) == sent + [ReplyOf(tx, i, steps[i])] +
              if Last(steps[i]) then [] else RepliesFor(tx, i + 1, steps[i + 1..])
  {
    assert steps[i..][1..] == steps[i + 1..];
  }

  /** The keys of a map after inserting more. */
  function Inserted(names: seq<string>, more: seq<string>): seq<string> {
    if more == [] then names
    else
      var before, name := Inserted(names, more[..|more| - 1]), more[|more| - 1];
      if name in before then before else before + [name]
  }

  /** They are the old ones, in order, and the new ones, each once. */
  lemma {:induction false} InsertedOnce(names: seq<string>, more: seq<string>)
    requires forall i, j | 0 <= i < j < |names| :: names[i] != names[j]
    ensures var all := Inserted(names, more);
      && (forall i, j | 0 <= i < j < |all| :: all[i] != all[j])
      && names <= all && forall name :: name in all <==> name in names || name in more
  {
    if more != [] {
      InsertedOnce(names, more[..|more| - 1]);
      assert more == more[..|more| - 1] + [more[|more| - 1]];
    }
  }

  class Vm {
    var operators: seq<string>
    var factories: seq<string>
    var components: map<string, seq<string>>
    var expectedResponses: set<Tx>
    /** Everything sent so far. */
    var sent: seq<Packet>

    /** The handlers leave the rest of the event loop's state alone. */
    ghost predicate Matches(v: VmState)
      reads this
    {
      v.operators == operators && v.factories == factories && v.components == components &&
      v.expected == expectedResponses
    }

    constructor ()
      ensures operators == [] && factories == [] && components == map[] && expectedResponses == {} && sent == []
    {
      operators, factories, components, expectedResponses, sent := [], [], map[], {}, [];
    }

    method Transmit(pkt: Packet)
      modifies this`sent
      ensures sent == old(sent) + [pkt]
    {
      sent := sent + [pkt];
    }

    /** Subscribes (or unsubscribes) one channel after the other, expecting a response to each. */
    method Announce(ids: seq<Tx>, instrs: seq<Instr>, subscribe: bool)
      requires |ids| == |instrs|
      modifies this`sent, this`expectedResponses
      ensures sent == old(sent) + if subscribe then Subscriptions(ids, instrs) else Unsubscriptions(ids, instrs)
      ensures expectedResponses == old(expectedResponses) + SetOf(ids)
    {
      ghost var all := if subscribe then Subscriptions(ids, instrs) else Unsubscriptions(ids, instrs);
      for k := 0 to |ids|
        invariant sent == old(sent) + all[..k]
        invariant expectedResponses == old(expectedResponses) + SetOf(ids[..k])
      {
        Transmit(if subscribe then Subscribe(ids[k], instrs[k]) else Unsubscribe(ids[k], instrs[k]));
        expectedResponses := expectedResponses + {ids[k]};
        assert all[..k + 1] == all[..k] + [all[k]];
        assert ids[..k + 1] == ids[..k] + [ids[k]];
      }
      assert all[..|ids|] == all && ids[..|ids|] == ids;
    }

    /** insert() leaves a name alone that is there already, but its channel is announced. */
    method OnImportModule(ops: seq<string>, comptypes: seq<string>, ids: seq<Tx>)
      requires |ids| == |ops| + |comptypes|
      modifies this
      ensures operators == Inserted(old(operators), ops) && factories == Inserted(old(factories), comptypes)
      ensures components == old(components) && expectedResponses == old(expectedResponses) + SetOf(ids)
      ensures sent == old(sent) + Subscriptions(ids, ModuleInstrs(ops, comptypes))
    {
      operators := Insert(operators, ops);
      factories := Insert(factories, comptypes);
      Announce(ids, ModuleInstrs(ops, comptypes), true);
    }

    method Insert(names: seq<string>, more: seq<string>) returns (rv: seq<string>)
      ensures rv == Inserted(names, more)
    {
      rv := names;
      for k := 0 to |more|
        invariant rv == Inserted(names, more[..k])
      {
        assert more[..k + 1][..k] == more[..k];
        if more[k] !in rv {
          rv := rv + [more[k]];
        }
      }
      assert more[..|more|] == more;
    }

    method OnStop(names: seq<string>, ids: seq<Tx>, ghost v: VmState)
      requires Matches(v) && (forall c | c in names :: c in components) && |ids| == |StopInstrs(v, names)|
      modifies this
      ensures Matches(Stops(v, names, ids)) && sent == old(sent) + Stops(v, names, ids).pending
    {
      var instrs := ModuleInstrs(operators, factories);
      for k := 0 to |names|
        invariant instrs + AllComponentInstrs(components, names[k..]) == StopInstrs(v, names)
      {
        instrs := instrs + ComponentInstrs(names[k], components[names[k]]);
        assert names[k..][1..] == names[k + 1..];
      }
      Announce(ids, instrs, false);
    }

    method HandleDefineComponent(tx: Tx, comptype: string, name: string, made: Made, ids: seq<Tx>, ghost v: VmState)
      requires Matches(v)
      requires DefineRefusal(v, comptype, name, made).None? ==> |ids| == |made.methods| + 1
      modifies this
      ensures Matches(Defines(v, tx, comptype, name, made, ids))
      ensures sent == old(sent) + Defines(v, tx, comptype, name, made, ids).pending
      ensures if comptype in factories && name !in factories && made.Made? then
          && components == old(components)[name := made.methods] && |sent| == |old(sent)| + |made.methods| + 2
          && sent[|sent| - 1] == Reply(tx, 0, true, Out(Map(map[])))
        else
          && components == old(components) && expectedResponses == old(expectedResponses)
          && |sent| == |old(sent)| + 1 && sent[|sent| - 1].Reply? && sent[|sent| - 1].out.Fail?
    {
      if comptype !in factories {
        Transmit(FailReply(tx, 0, "Unknown operator: " + comptype));
        return;
      }
      if name in factories {
        Transmit(FailReply(tx, 0, "Component already exists: " + name));
        return;
      }
      if made.NotMade? {
        Transmit(FailReply(tx, 0, made.reason));
        return;
      }
      Announce(ids, ComponentInstrs(name, made.methods), true);
      components := components[name := made.methods];
      Transmit(Reply(tx, 0, true, EMPTY_MAP));
    }

    method HandleDeleteComponent(tx: Tx, comp: string, ids: seq<Tx>, ghost v: VmState)
      requires Matches(v)
      requires comp in components ==> |ids| == |components[comp]| + 1
      modifies this
      ensures Matches(Deletes(v, tx, comp, ids))
      ensures sent == old(sent) + Deletes(v, tx, comp, ids).pending
      ensures components == old(components) - {comp}
      ensures if comp in old(components) then
          |sent| == |old(sent)| + |old(components)[comp]| + 2 && sent[|sent| - 1] == Reply(tx, 0, true, Out(Map(map[])))
        else sent == old(sent) + [Reply(tx, 0, true, Fail("Component not exists: " + comp))]
    {
      if comp !in components {
        Transmit(FailReply(tx, 0, "Component not exists: " + comp));
        return;
      }
      var methods := components[comp];
      components := components - {comp};
      Announce(ids, DeletionInstrs(comp, methods), false);
      Transmit(Reply(tx, 0, true, EMPTY_MAP));
    }

    /** call_function and call_method share their tail: initialize the operator, then step
        it until it finishes or fails. `steps` is what the operator has returned so far; the
        loop goes on as long as none of it ends the loop. */
    method RunOperator(tx: Tx, init: Init, steps: seq<StepResult>)
      modifies this`sent
      ensures sent == old(sent) +
        if init.Ready? then RepliesFor(tx, 0, steps) else [FailReply(tx, 0, init.reason)]
    {
      if init.InitError? {
        Transmit(FailReply(tx, 0, init.reason));
        return;
      }
      var ended := StepLoop(tx, steps);
    }

    method StepLoop(tx: Tx, steps: seq<StepResult>) returns (ended: bool)
      modifies this`sent
      ensures sent == old(sent) + RepliesFor(tx, 0, steps)
      ensures ended <==> exists k | 0 <= k < |steps| :: Last(steps[k])
    {
      ended := false;
      var i: nat := 0;
      assert steps[0..] == steps;
      while i < |steps|
        invariant i <= |steps| && forall k | 0 <= k < i :: !Last(steps[k])
        invariant sent + RepliesFor(tx, i, steps[i..]) == old(sent) + RepliesFor(tx, 0, steps)
      {
        RepliesForNext(sent, tx, i, steps);
        var out := steps[i];
        if out.OkOutput? {
          Transmit(Reply(tx, i, out.finish, Out(out.val)));
          if out.finish {
            return true;
          }
        } else {
          Transmit(FailReply(tx, i, out.reason));
          return true;
        }
        i := i + 1;
      }
    }

    method HandleCallFunction(tx: Tx, op: string, init: Init, steps: seq<StepResult>, ghost v: VmState)
      requires Matches(v)
      modifies this`sent
      ensures sent == old(sent) +
        var v' := CallsFunction(v.(running := None), tx, op, init);
        if v'.running.Some? then RepliesFor(tx, 0, steps) else v'.pending
      ensures sent == old(sent) +
        if op in operators && init.Ready? then RepliesFor(tx, 0, steps)
        else [Reply(tx, 0, true, Fail(if op in operators then init.reason else "Unknown operator: " + op))]
    {
      if op !in operators {
        Transmit(FailReply(tx, 0, "Unknown operator: " + op));
        return;
      }
      RunOperator(tx, init, steps);
    }

    method HandleCallMethod(tx: Tx, comp: string, op: string, init: Init, steps: seq<StepResult>, ghost v: VmState)
      requires Matches(v)
      modifies this`sent
      ensures sent == old(sent) +
        var v' := CallsMethod(v.(running := None), tx, comp, op, init);
        if v'.running.Some? then RepliesFor(tx, 0, steps) else v'.pending
      ensures comp !in components ==>
        sent == old(sent) + [Reply(tx, 0, true, Fail("Component not exists: " + comp))]
      ensures comp in components && op !in components[comp] ==>
        sent == old(sent) + [Reply(tx, 0, true, Fail("Method not exists: " + comp + "." + op))]
      ensures comp in components && op in components[comp] ==>
        sent == old(sent) + if init.Ready? then RepliesFor(tx, 0, steps) else [Reply(tx, 0, true, Fail(init.reason))]
    {
      if comp !in components {
        Transmit(FailReply(tx, 0, "Component not exists: " + comp));
        return;
      }
      if op !in components[comp] {
        Transmit(FailReply(tx, 0, "Method not exists: " + comp + "." + op));
        return;
      }
      RunOperator(tx, init, steps);
    }

    /** A respond packet, in the main loop as in the drain loop. */
    method OnRespond(tx: Tx)
      modifies this`expectedResponses
      ensures expectedResponses == old(expectedResponses) - {tx}
    {
      if tx in expectedResponses {
        expectedResponses := expectedResponses - {tx};
      }
    }
  }
}
