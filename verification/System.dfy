/** Clients, broker and VM as a step system. */
module SystemModel {
  import opened Values
  import opened Packets
  import opened BrokerModel
  import opened VmModel
  import opened RuntimeModel

  // Any number of clients, the broker and one VM, connected by FIFO mailboxes. Every step is
  // one action; the parameters of an action carry what the programs do not determine.

  const VM: Node := 0

  type Queues = map<Node, seq<Packet>>

  function Q(m: Queues, n: Node): seq<Packet> {
    if n in m then m[n] else []
  }

  function Push(m: Queues, n: Node, p: Packet): Queues {
    m[n := Q(m, n) + [p]]
  }

  function Pop(m: Queues, n: Node): Queues
    requires Q(m, n) != []
  {
    m[n := Q(m, n)[1..]]
  }

  /** How far a call has got: asked by its client, refused or forwarded by the broker, in the
      hands of the VM's step loop, answered completely, or dropped by the stopping VM. */
  datatype Phase = Asked | Refused | Routed | Active | Done | Dropped

  /** History of a call: `outs` are all replies sent for it so far, `steps` what its operator
      returned, beginning in state `start`. */
  datatype Call = Call(origin: Node, instr: Instr, name: string, input: Value, phase: Phase,
                       outs: seq<Packet>, start: Option<OpState>, steps: seq<StepResult>)

  /** broker, vm, mailboxes and runtimes are the state proper; the rest is history: all
      transaction ids drawn so far, the calls and the replies every client has taken, who sent
      which connect and disconnect, and the responses every client has taken. */
  datatype Sys = Sys(
    broker: BrokerState,
    vm: VmState,
    up: Queues,
    down: Queues,
    rts: map<Node, RtState>,
    used: set<Tx>,
    calls: map<Tx, Call>,
    recvd: Queues,
    asked: map<Tx, Node>,
    told: Queues)

  datatype Action =
    | Accept(n: Node)
    | ClientConnect(n: Node, tx: Tx)
    | ClientDisconnect(n: Node, tx: Tx)
    | ClientCall(n: Node, tx: Tx, instr: Instr, name: string, input: Value)
    | BrokerRecv(n: Node)
    | VmTake(init: Init, made: Made, ids: seq<Tx>)
    | VmStep(r: StepResult)
    | VmFlush
    | VmStop(names: seq<string>, ids: seq<Tx>)
    | VmDrain
    | VmLeave(tx: Tx)
    | ClientTake(n: Node)
    | ClientNext(n: Node, tx: Tx)

  function Rt(s: Sys, n: Node): RtState {
    if n in s.rts then s.rts[n] else FRESH
  }

  /** Everything the VM has sent that the broker has not read: its mailbox, then what the
      running handler still holds. */
  function VmOut(s: Sys): seq<Packet> {
    Q(s.up, VM) + s.vm.pending
  }

  ghost predicate NoDup<T>(xs: seq<T>) {
    forall i, j | 0 <= i < j < |xs| :: xs[i] != xs[j]
  }

  /** Fresh uuids. */
  ghost predicate FreshIds(s: Sys, ids: seq<Tx>) {
    NoDup(ids) && forall id | id in ids :: id !in s.used
  }

  // ----------------------------------------------------------- the VM's inbox

  /** The choices that go with a packet: what initialize returns, the component that is made,
      one id for each announcement. Method names are the keys of a map. */
  ghost predicate TakeFits(v: VmState, p: Packet, init: Init, made: Made, ids: seq<Tx>) {
    if !p.Execute? then ids == []
    else
      match p.instr
      case CallFunction(op) => ids == [] && MayInit(op, p.input, init)
      case CallMethod(_, _) => ids == [] && (init.Ready? ==> init.state.Opaque?)
      case DefineComponent(comptype) =>
        if DefineRefusal(v, comptype, p.name, made).Some? then ids == []
        else NoDup(made.methods) && |ids| == |made.methods| + 1
      case DeleteComponent(comp) => |ids| == if comp in v.components then |v.components[comp]| + 1 else 0
  }

  ghost function Handle(v: VmState, p: Packet, init: Init, made: Made, ids: seq<Tx>): VmState
    requires TakeFits(v, p, init, made, ids)
  {
    if p.Respond? then v.(expected := v.expected - {p.tx})
    else if p.Execute? then
      match p.instr
      case CallFunction(op) => CallsFunction(v, p.tx, op, init)
      case CallMethod(comp, op) => CallsMethod(v, p.tx, comp, op, init)
      case DefineComponent(comptype) => Defines(v, p.tx, comptype, p.name, made, ids)
      case DeleteComponent(comp) => Deletes(v, p.tx, comp, ids)
    else v
  }

  /** Replies to tx in a queue, and how often its execute packet is in it. */
  function Replies(q: seq<Packet>, tx: Tx): seq<Packet> {
    if q == [] then []
    else (if q[0].Reply? && q[0].tx == tx then [q[0]] else []) + Replies(q[1..], tx)
  }

  function ExecCount(q: seq<Packet>, tx: Tx): nat {
    if q == [] then 0
    else (if q[0].Execute? && q[0].tx == tx then 1 else 0) + ExecCount(q[1..], tx)
  }

  ghost function NoteTaken(s: Sys, p: Packet, v: VmState, init: Init): map<Tx, Call> {
    if p.Execute? && p.tx in s.calls then
      var c := s.calls[p.tx];
      s.calls[p.tx :=
        if v.running.Some? && init.Ready? then c.(phase := Active, start := Some(init.state))
        else c.(phase := Done, outs := c.outs + Replies(v.pending, p.tx))]
    else s.calls
  }

  ghost function NoteRouted(s: Sys, p: Packet): map<Tx, Call> {
    if p.Execute? && p.tx in s.calls then
      var c := s.calls[p.tx];
      s.calls[p.tx :=
        if ChannelOf(p.instr) in s.broker.subs then c.(phase := Routed)
        else c.(phase := Refused, outs := c.outs + [FailReply(p.tx, 0, "There is no channel can handle this request")])]
    else s.calls
  }

  // ------------------------------------------------------------------ actions

  ghost predicate Idle(v: VmState) {
    v.pending == [] && v.running.None?
  }

  ghost predicate Enabled(s: Sys, a: Action) {
    match a
    case Accept(n) => n != VM
    case ClientConnect(n, tx) => n != VM && tx !in s.used
    case ClientDisconnect(n, tx) => n != VM && tx !in s.used
    case ClientCall(n, tx, _, _, _) => n != VM && tx !in s.used
    case BrokerRecv(n) => n in s.broker.sockets && Q(s.up, n) != []
    case VmTake(init, made, ids) =>
      && s.vm.mode.Serving? && Idle(s.vm) && Q(s.down, VM) != [] && FreshIds(s, ids)
      && TakeFits(s.vm, Q(s.down, VM)[0], init, made, ids)
    case VmStep(r) => s.vm.pending == [] && s.vm.running.Some? && MayStep(s.vm.running.value.op, r)
    case VmFlush => s.vm.pending != []
    case VmStop(names, ids) =>
      && s.vm.mode.Serving? && Idle(s.vm) && FreshIds(s, ids)
      && NoDup(names) && SetOf(names) == s.vm.components.Keys && |ids| == |StopInstrs(s.vm, names)|
    case VmDrain => s.vm.mode.Draining? && Idle(s.vm) && Q(s.down, VM) != []
    case VmLeave(tx) => s.vm.mode.Draining? && Idle(s.vm) && tx !in s.used
    case ClientTake(n) => n != VM && Q(s.down, n) != []
    case ClientNext(n, tx) => n != VM && tx in Rt(s, n).iters && tx !in Rt(s, n).resolvers
  }

  ghost function Apply(s: Sys, a: Action): Sys
    requires Enabled(s, a)
  {
    match a
    case Accept(n) => s.(broker := s.broker.(sockets := s.broker.sockets + {n}))
    case ClientConnect(n, tx) =>
      s.(up := Push(s.up, n, Connect(tx)), used := s.used + {tx}, asked := s.asked[tx := n])
    case ClientDisconnect(n, tx) =>
      s.(up := Push(s.up, n, Disconnect(tx)), used := s.used + {tx}, asked := s.asked[tx := n])
    case ClientCall(n, tx, instr, name, input) => CallStep(s, n, tx, instr, name, input)
    case BrokerRecv(n) => RecvStep(s, n)
    case VmTake(init, made, ids) =>
      var p := Q(s.down, VM)[0];
      var v := Handle(s.vm, p, init, made, ids);
      s.(vm := v, down := Pop(s.down, VM), used := s.used + SetOf(ids),
         calls := NoteTaken(s, p, v, init))
    case VmStep(r) =>
      var v, tx := Emits(s.vm, r), s.vm.running.value.tx;
      s.(vm := v, calls := if tx in s.calls then s.calls[tx := StepNoted(s.calls[tx], v, tx, r)] else s.calls)
    case VmFlush => s.(vm := s.vm.(pending := s.vm.pending[1..]), up := Push(s.up, VM, s.vm.pending[0]))
    case VmStop(names, ids) => s.(vm := Stops(s.vm, names, ids), used := s.used + SetOf(ids))
    case VmDrain => DrainStep(s)
    case VmLeave(tx) => s.(vm := s.vm.(mode := Stopped, pending := [Disconnect(tx)]), used := s.used + {tx})
    case ClientTake(n) => TakeStep(s, n)
    case ClientNext(n, tx) =>
      s.(rts := s.rts[n := NextAsked(Rt(s, n), tx)])
  }

  ghost function StepNoted(c: Call, v: VmState, tx: Tx, r: StepResult): Call {
    c.(outs := c.outs + Replies(v.pending, tx), steps := c.steps + [r], phase := if Last(r) then Done else c.phase)
  }

  /** The iterators of call_function and call_method wait for next(); define and delete ask
      for index 0 at once. */
  ghost function Opened(rt: RtState, tx: Tx, many: bool): RtState {
    var rt' := Open(rt, tx, many);
    if many then rt' else NextAsked(rt', tx)
  }

  ghost function NextAsked(rt: RtState, tx: Tx): RtState {
    if tx in rt.iters && Wf(rt) && NextCall(rt, tx).Some? then NextCall(rt, tx).value else rt
  }

  ghost function CallStep(s: Sys, n: Node, tx: Tx, instr: Instr, name: string, input: Value): Sys {
    s.(up := Push(s.up, n, Execute(tx, instr, name, input)), used := s.used + {tx},
       calls := s.calls[tx := Call(n, instr, name, input, Asked, [], None, [])],
       rts := s.rts[n := Opened(Rt(s, n), tx, instr.CallFunction? || instr.CallMethod?)])
  }

  ghost function RecvStep(s: Sys, n: Node): Sys
    requires Q(s.up, n) != []
  {
    var p := Q(s.up, n)[0];
    var (b, o) := Route(s.broker, n, p);
    s.(broker := b, up := Pop(s.up, n),
       down := if o.Some? then Push(s.down, o.value.to, o.value.pkt) else s.down,
       calls := NoteRouted(s, p))
  }

  /** The drain loop: responses are checked off, everything else is ignored. */
  ghost function DrainStep(s: Sys): Sys
    requires Q(s.down, VM) != []
  {
    var p := Q(s.down, VM)[0];
    s.(down := Pop(s.down, VM),
       vm := if p.Respond? then s.vm.(expected := s.vm.expected - {p.tx}) else s.vm,
       calls := if p.Execute? && p.tx in s.calls then s.calls[p.tx := s.calls[p.tx].(phase := Dropped)] else s.calls)
  }

  ghost function Registered(rt: RtState, p: Packet): RtState
    requires p.Reply?
  {
    if Wf(rt) then RegisterResponse(rt, p) else rt
  }

  ghost function TakeStep(s: Sys, n: Node): Sys
    requires Q(s.down, n) != []
  {
    var p := Q(s.down, n)[0];
    s.(down := Pop(s.down, n),
       recvd := if p.Reply? then Push(s.recvd, n, p) else s.recvd,
       told := if p.Respond? then Push(s.told, n, p) else s.told,
       rts := if p.Reply? then s.rts[n := Registered(Rt(s, n), p)] else s.rts)
  }

  /** The VM has connected and imported its modules; nothing has been read yet. */
  ghost predicate Initial(s: Sys) {
    && s.broker == BrokerState({VM}, map[], map[])
    && s.vm.mode.Serving? && s.vm.running.None? && s.vm.components == map[]
    && NoDup(s.vm.operators) && NoDup(s.vm.factories)
    && (exists ids: seq<Tx>, instrs :: ImportSent(s, ids, instrs))
    && s.up == s.down == s.recvd == map[] && s.rts == map[] && s.calls == map[]
    && s.asked == map[] && s.told == map[]
  }

  /** One announcement for each operator and factory of each module; modules may share names. */
  ghost predicate ImportSent(s: Sys, ids: seq<Tx>, instrs: seq<Instr>) {
    && |ids| == |instrs| && NoDup(ids) && SetOf(ids) <= s.used
    && (forall i :: i in instrs <==> i in ModuleInstrs(s.vm.operators, s.vm.factories))
    && s.vm.pending == Subscriptions(ids, instrs) && s.vm.expected == SetOf(ids)
  }

  ghost predicate Leads(s: Sys, acts: seq<Action>, t: Sys)
    decreases |acts|
  {
    if acts == [] then t == s else Enabled(s, acts[0]) && Leads(Apply(s, acts[0]), acts[1..], t)
  }

  // ---------------------------------------------------------- queues, counted

  lemma {:induction false} RepliesAppend(a: seq<Packet>, b: seq<Packet>, tx: Tx)
    ensures Replies(a + b, tx) == Replies(a, tx) + Replies(b, tx)
  {
    if a == [] {
      assert a + b == b;
    } else {
      assert (a + b)[1..] == a[1..] + b;
      RepliesAppend(a[1..], b, tx);
    }
  }

  lemma {:induction false} ExecCountAppend(a: seq<Packet>, b: seq<Packet>, tx: Tx)
    ensures ExecCount(a + b, tx) == ExecCount(a, tx) + ExecCount(b, tx)
  {
    if a == [] {
      assert a + b == b;
    } else {
      assert (a + b)[1..] == a[1..] + b;
      ExecCountAppend(a[1..], b, tx);
    }
  }

  /** Pushing p onto a queue. */
  lemma PushCounts(m: Queues, n: Node, p: Packet, k: Node, tx: Tx)
    ensures Replies(Q(Push(m, n, p), k), tx)
         == Replies(Q(m, k), tx) + if k == n && p.Reply? && p.tx == tx then [p] else []
    ensures ExecCount(Q(Push(m, n, p), k), tx)
         == ExecCount(Q(m, k), tx) + if k == n && p.Execute? && p.tx == tx then 1 else 0
  {
    if k == n {
      RepliesAppend(Q(m, n), [p], tx);
      ExecCountAppend(Q(m, n), [p], tx);
      assert [p][1..] == [];
    }
  }

  lemma PopCounts(m: Queues, n: Node, k: Node, tx: Tx)
    requires Q(m, n) != []
    ensures var p := Q(m, n)[0];
      && Replies(Q(m, k), tx) == (if k == n && p.Reply? && p.tx == tx then [p] else []) + Replies(Q(Pop(m, n), k), tx)
      && ExecCount(Q(m, k), tx) ==
         (if k == n && p.Execute? && p.tx == tx then 1 else 0) + ExecCount(Q(Pop(m, n), k), tx)
  {
  }

  lemma {:induction false} NoReplies(q: seq<Packet>, tx: Tx)
    requires forall p | p in q :: !(p.Reply? && p.tx == tx)
    ensures Replies(q, tx) == []
  {
    if q != [] {
      NoReplies(q[1..], tx);
    }
  }

  lemma {:induction false} HasReply(q: seq<Packet>, tx: Tx, p: Packet)
    requires p in q && p.Reply? && p.tx == tx
    ensures p in Replies(q, tx)
  {
    if q[0] != p {
      HasReply(q[1..], tx, p);
    }
  }

  lemma {:induction false} HasExec(q: seq<Packet>, p: Packet)
    requires p in q && p.Execute?
    ensures ExecCount(q, p.tx) > 0
  {
    if q[0] != p {
      HasExec(q[1..], p);
    }
  }
}
