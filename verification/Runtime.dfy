/** Reassembly of the replies to a call, as in bindings/js-node/src/runtime.ts. */
module RuntimeModel {
  import opened Values
  import opened Packets

  /** The iterator a call returns, with what its promises were settled to. `many` is true
      for handleListenIter and false for handleListen, whose setFinish does nothing. */
  datatype Iter = Iter(many: bool, idx: nat, finished: bool, values: seq<Value>, error: Option<string>)

  datatype RtState = RtState(
    resolvers: map<Tx, nat>,
    responses: map<Tx, map<nat, Packet>>,
    iters: map<Tx, Iter>)

  const FRESH := RtState(map[], map[], map[])

  function Settle(it: Iter, p: Packet, finish: bool): Iter
    requires p.Reply?
  {
    var it' := it.(finished := it.finished || (finish && it.many));
    match p.out
    case Out(v) => it'.(values := it.values + [v])
    case Fail(reason) => it'.(error := Some(reason))
  }

  predicate Buffered(rt: RtState, tx: Tx, index: nat) {
    tx in rt.responses && index in rt.responses[tx]
  }

  function Unbuffer(responses: map<Tx, map<nat, Packet>>, tx: Tx, index: nat): map<Tx, map<nat, Packet>>
    requires tx in responses
  {
    var left := responses[tx] - {index};
    if left == map[] then responses - {tx} else responses[tx := left]
  }

  function Buffer(responses: map<Tx, map<nat, Packet>>, p: Packet): map<Tx, map<nat, Packet>>
    requires p.Reply?
  {
    responses[p.tx := (if p.tx in responses then responses[p.tx] else map[])[p.index := p]]
  }

  ghost predicate Wf(rt: RtState) {
    && rt.resolvers.Keys <= rt.iters.Keys
    && forall tx, i: nat | Buffered(rt, tx, i) :: rt.responses[tx][i].Reply?
  }

  /** registerExecResolver; it throws when a resolver for tx is already there. A buffered
      error rejects without setting finished. */
  function RegisterResolver(rt: RtState, tx: Tx, index: nat): Option<RtState>
    requires Wf(rt) && tx in rt.iters
  {
    if Buffered(rt, tx, index) then
      var p := rt.responses[tx][index];
      Some(rt.(responses := Unbuffer(rt.responses, tx, index),
               iters := rt.iters[tx := Settle(rt.iters[tx], p, p.finish && p.out.Out?)]))
    else if tx in rt.resolvers then None
    else Some(rt.(resolvers := rt.resolvers[tx := index]))
  }

  /** registerExecResponse. */
  function RegisterResponse(rt: RtState, p: Packet): RtState
    requires Wf(rt) && p.Reply?
  {
    if p.tx in rt.resolvers && rt.resolvers[p.tx] == p.index then
      rt.(resolvers := rt.resolvers - {p.tx}, iters := rt.iters[p.tx := Settle(rt.iters[p.tx], p, p.finish)])
    else rt.(responses := Buffer(rt.responses, p))
  }

  /** One call of next(): done once finished, else it asks for the next index. */
  function NextCall(rt: RtState, tx: Tx): Option<RtState>
    requires Wf(rt) && tx in rt.iters
  {
    if rt.iters[tx].finished then Some(rt)
    else
      var idx := rt.iters[tx].idx;
      var r := RegisterResolver(rt, tx, idx);
      if r.None? then None
      else Some(r.value.(iters := r.value.iters[tx := r.value.iters[tx].(idx := idx + 1)]))
  }

  function Open(rt: RtState, tx: Tx, many: bool): RtState {
    rt.(iters := rt.iters[tx := Iter(many, 0, false, [], None)])
  }

  class Runtime {
    var execResolvers: map<Tx, nat>
    var execResponses: map<Tx, map<nat, Packet>>
    var iters: map<Tx, Iter>

    function State(): RtState
      reads this
    {
      RtState(execResolvers, execResponses, iters)
    }

    constructor ()
      ensures State() == FRESH
    {
      execResolvers, execResponses, iters := map[], map[], map[];
    }

    method RegisterExecResolver(tx: Tx, index: nat) returns (thrown: bool)
      requires Wf(State()) && tx in iters
      modifies this
      ensures thrown <==> RegisterResolver(old(State()), tx, index).None?
      ensures thrown ==> State() == old(State())
      ensures !thrown ==> State() == RegisterResolver(old(State()), tx, index).value
    {
      if tx in execResponses && index in execResponses[tx] {
        var response := TakeResponse(tx, index);
        if response.out.Out? {
          if response.finish {
            SetFinish(tx);
          }
          Resolve(tx, response.out.v);
        } else {
          Reject(tx, response.out.reason);
        }
        return false;
      }
      if tx in execResolvers {
        return true;
      }
      execResolvers := execResolvers[tx := index];
      return false;
    }

    method TakeResponse(tx: Tx, index: nat) returns (response: Packet)
      requires tx in execResponses && index in execResponses[tx]
      modifies this`execResponses
      ensures response == old(execResponses)[tx][index]
      ensures execResponses == Unbuffer(old(execResponses), tx, index)
    {
      response := execResponses[tx][index];
      execResponses := execResponses[tx := execResponses[tx] - {index}];
      if |execResponses[tx]| == 0 {
        execResponses := execResponses - {tx};
      }
    }

    method RegisterExecResponse(p: Packet)
      requires Wf(State()) && p.Reply?
      modifies this
      ensures State() == RegisterResponse(old(State()), p)
    {
      var tx, index := p.tx, p.index;
      if tx in execResolvers && execResolvers[tx] == index {
        execResolvers := execResolvers - {tx};
        if p.finish {
          SetFinish(tx);
        }
        if p.out.Out? {
          Resolve(tx, p.out.v);
        } else {
          Reject(tx, p.out.reason);
        }
      } else {
        if tx !in execResponses {
          execResponses := execResponses[tx := map[]];
        }
        execResponses := execResponses[tx := execResponses[tx][index := p]];
      }
    }

    method Next(tx: Tx) returns (thrown: bool)
      requires Wf(State()) && tx in iters
      modifies this
      ensures thrown <==> NextCall(old(State()), tx).None?
      ensures State() == if thrown then old(State()) else NextCall(old(State()), tx).value
    {
      if iters[tx].finished {
        return false;
      }
      var idx := iters[tx].idx;
      thrown := RegisterExecResolver(tx, idx);
      if !thrown {
        iters := iters[tx := iters[tx].(idx := idx + 1)];
      }
    }

    method SetFinish(tx: Tx)
      requires tx in iters
      modifies this`iters
      ensures iters == old(iters)[tx := old(iters)[tx].(finished := old(iters)[tx].finished || old(iters)[tx].many)]
    {
      if iters[tx].many {
        iters := iters[tx := iters[tx].(finished := true)];
      }
    }

    method Resolve(tx: Tx, v: Value)
      requires tx in iters
      modifies this`iters
      ensures iters == old(iters)[tx := old(iters)[tx].(values := old(iters)[tx].values + [v])]
    {
      iters := iters[tx := iters[tx].(values := iters[tx].values + [v])];
    }

    method Reject(tx: Tx, reason: string)
      requires tx in iters
      modifies this`iters
      ensures iters == old(iters)[tx := old(iters)[tx].(error := Some(reason))]
    {
      iters := iters[tx := iters[tx].(error := Some(reason))];
    }
  }

  // ------------------------------------------------- reassembly in any order

  /** The replies that have arrived so far, by transaction and index. */
  type Got = map<(Tx, nat), Packet>

  ghost predicate WfGot(got: Got) {
    forall k | k in got :: got[k].Reply? && got[k].tx == k.0 && got[k].index == k.1
  }

  /** How many replies to tx the iterator has consumed. */
  function Consumed(rt: RtState, tx: Tx): int
    requires tx in rt.iters
  {
    rt.iters[tx].idx - if tx in rt.resolvers then 1 else 0
  }

  /** The values of the replies 0..c, in order of their indices. */
  ghost function OutsUpTo(got: Got, tx: Tx, c: nat): seq<Value>
    requires WfGot(got)
  {
    if c == 0 then []
    else
      OutsUpTo(got, tx, c - 1) +
      if (tx, c - 1) in got && got[(tx, c - 1)].out.Out? then [got[(tx, c - 1)].out.v] else []
  }

  ghost function ErrorUpTo(got: Got, tx: Tx, c: nat): Option<string>
    requires WfGot(got)
  {
    if c == 0 then None
    else if (tx, c - 1) in got && got[(tx, c - 1)].out.Fail? then Some(got[(tx, c - 1)].out.reason)
    else ErrorUpTo(got, tx, c - 1)
  }

  ghost predicate Waits(rt: RtState, got: Got, tx: Tx)
    requires tx in rt.iters
  {
    && 0 <= Consumed(rt, tx)
    && (tx in rt.resolvers ==>
          !rt.iters[tx].finished && rt.resolvers[tx] == Consumed(rt, tx) && (tx, Consumed(rt, tx) as nat) !in got)
    && (forall i: nat | i < Consumed(rt, tx) :: (tx, i) in got)
  }

  ghost predicate Yielded(rt: RtState, got: Got, tx: Tx)
    requires WfGot(got) && tx in rt.iters && 0 <= Consumed(rt, tx)
  {
    var it, c := rt.iters[tx], Consumed(rt, tx);
    && it.values == OutsUpTo(got, tx, c)
    && it.error == ErrorUpTo(got, tx, c)
    && (it.finished ==> exists i: nat | i < c :: (tx, i) in got && got[(tx, i)].finish)
    && (it.many ==>
          forall i: nat | i < c && (tx, i) in got && got[(tx, i)].finish && got[(tx, i)].out.Out? :: it.finished)
  }

  /** The buffer holds exactly the replies that arrived and were not consumed. */
  ghost predicate Buffers(rt: RtState, got: Got, tx: Tx)
    requires tx in rt.iters
  {
    && (tx in rt.responses ==> rt.responses[tx] != map[])
    && (forall i: nat :: Buffered(rt, tx, i) <==> (tx, i) in got && i >= Consumed(rt, tx))
    && (forall i: nat | Buffered(rt, tx, i) && (tx, i) in got :: rt.responses[tx][i] == got[(tx, i)])
  }

  ghost predicate Reassembles(rt: RtState, got: Got, tx: Tx)
    requires WfGot(got) && tx in rt.iters
  {
    Waits(rt, got, tx) && Yielded(rt, got, tx) && Buffers(rt, got, tx)
  }

  ghost predicate RtInv(rt: RtState, got: Got) {
    && Wf(rt) && WfGot(got)
    && (forall tx | tx in rt.iters :: Reassembles(rt, got, tx))
    && (forall k | k in got :: k.0 in rt.iters)
    && rt.responses.Keys <= rt.iters.Keys
  }

  lemma FreshInv()
    ensures RtInv(FRESH, map[])
  {
  }

  lemma OpenKeeps(rt: RtState, got: Got, tx: Tx, many: bool)
    requires RtInv(rt, got) && tx !in rt.iters
    ensures RtInv(Open(rt, tx, many), got)
  {
    var rt' := Open(rt, tx, many);
    forall t | t in rt'.iters ensures Reassembles(rt', got, t) {
      if t != tx {
        assert Reassembles(rt, got, t);
        SameBuffers(rt, rt', got, t);
      }
    }
  }

  ghost function Arrive(got: Got, p: Packet): Got
    requires p.Reply?
  {
    got[(p.tx, p.index) := p]
  }

  lemma {:induction false} UpToIgnores(got: Got, p: Packet, tx: Tx, c: nat)
    requires WfGot(got) && p.Reply? && (p.tx == tx ==> c <= p.index)
    ensures OutsUpTo(Arrive(got, p), tx, c) == OutsUpTo(got, tx, c)
    ensures ErrorUpTo(Arrive(got, p), tx, c) == ErrorUpTo(got, tx, c)
  {
    if c > 0 {
      UpToIgnores(got, p, tx, c - 1);
    }
  }

  /** A reply that nobody waits for yet. */
  lemma ArrivalBuffered(rt: RtState, got: Got, p: Packet)
    requires Wf(rt) && WfGot(got) && p.Reply? && (p.tx, p.index) !in got
    requires p.tx in rt.iters && Reassembles(rt, got, p.tx)
    requires !(p.tx in rt.resolvers && rt.resolvers[p.tx] == p.index)
    ensures Reassembles(RegisterResponse(rt, p), Arrive(got, p), p.tx)
  {
    var rt', tx, c := RegisterResponse(rt, p), p.tx, Consumed(rt, p.tx);
    assert p.index in rt'.responses[tx];
    assert forall i: nat | i < c :: (tx, i) in got;
    UpToIgnores(got, p, tx, c);
    BufferKeepsBuffers(rt, got, p);
  }

  lemma BufferKeepsBuffers(rt: RtState, got: Got, p: Packet)
    requires Wf(rt) && WfGot(got) && p.Reply? && (p.tx, p.index) !in got
    requires p.tx in rt.iters && Waits(rt, got, p.tx) && Buffers(rt, got, p.tx)
    requires !(p.tx in rt.resolvers && rt.resolvers[p.tx] == p.index)
    ensures Buffers(RegisterResponse(rt, p), Arrive(got, p), p.tx)
  {
    assert p.index in RegisterResponse(rt, p).responses[p.tx];
    assert forall i: nat | i < Consumed(rt, p.tx) :: (p.tx, i) in got;
  }

  /** A reply leaves the other transactions alone. */
  lemma ArrivalElsewhere(rt: RtState, got: Got, p: Packet, tx: Tx)
    requires Wf(rt) && WfGot(got) && p.Reply? && p.tx in rt.iters && tx in rt.iters && tx != p.tx
    requires Reassembles(rt, got, tx)
    ensures Reassembles(RegisterResponse(rt, p), Arrive(got, p), tx)
  {
    UpToIgnores(got, p, tx, Consumed(rt, tx));
  }

  /** The reply the iterator waits for. */
  lemma ArrivalSettles(rt: RtState, got: Got, p: Packet)
    requires Wf(rt) && WfGot(got) && p.Reply? && (p.tx, p.index) !in got
    requires p.tx in rt.iters && Reassembles(rt, got, p.tx)
    requires p.tx in rt.resolvers && rt.resolvers[p.tx] == p.index
    ensures Reassembles(RegisterResponse(rt, p), Arrive(got, p), p.tx)
  {
    SettlesYielded(rt, got, p, RegisterResponse(rt, p));
    SettleKeepsBuffers(rt, got, p);
  }

  lemma SettleKeepsBuffers(rt: RtState, got: Got, p: Packet)
    requires Wf(rt) && WfGot(got) && p.Reply? && (p.tx, p.index) !in got
    requires p.tx in rt.iters && Waits(rt, got, p.tx) && Buffers(rt, got, p.tx)
    requires p.tx in rt.resolvers && rt.resolvers[p.tx] == p.index
    ensures Buffers(RegisterResponse(rt, p), Arrive(got, p), p.tx)
  {
  }

  /** Consuming the next reply. */
  lemma SettlesYielded(rt: RtState, got: Got, p: Packet, rt': RtState)
    requires WfGot(got) && p.Reply? && p.tx in rt.iters && p.tx in rt'.iters
    requires 0 <= Consumed(rt, p.tx) == p.index && Consumed(rt', p.tx) == p.index + 1
    requires Yielded(rt, got, p.tx) && !rt.iters[p.tx].finished
    requires (p.tx, p.index) in got ==> got[(p.tx, p.index)] == p
    requires
      var a, b := Settle(rt.iters[p.tx], p, p.finish), Settle(rt.iters[p.tx], p, p.finish && p.out.Out?);
      rt'.iters[p.tx].(idx := 0) == a.(idx := 0) || rt'.iters[p.tx].(idx := 0) == b.(idx := 0)
    ensures Yielded(rt', Arrive(got, p), p.tx)
  {
    UpToIgnores(got, p, p.tx, p.index);
    var got' := Arrive(got, p);
    assert got'[(p.tx, p.index)] == p;
  }

  /** registerExecResponse keeps the order of reassembly, whatever reply arrives next. */
  lemma ArrivalKeeps(rt: RtState, got: Got, p: Packet)
    requires RtInv(rt, got) && p.Reply? && (p.tx, p.index) !in got && p.tx in rt.iters
    ensures RtInv(RegisterResponse(rt, p), Arrive(got, p))
  {
    var rt', got' := RegisterResponse(rt, p), Arrive(got, p);
    forall tx | tx in rt'.iters ensures Reassembles(rt', got', tx) {
      ArrivalReassembles(rt, got, p, tx);
    }
    ArrivalWf(rt, p);
  }

  lemma ArrivalWf(rt: RtState, p: Packet)
    requires Wf(rt) && rt.responses.Keys <= rt.iters.Keys && p.Reply? && p.tx in rt.iters
    ensures var rt' := RegisterResponse(rt, p); Wf(rt') && rt'.responses.Keys <= rt'.iters.Keys
  {
  }

  lemma ArrivalReassembles(rt: RtState, got: Got, p: Packet, tx: Tx)
    requires RtInv(rt, got) && p.Reply? && (p.tx, p.index) !in got && p.tx in rt.iters && tx in rt.iters
    ensures Reassembles(RegisterResponse(rt, p), Arrive(got, p), tx)
  {
    assert Reassembles(rt, got, tx);
    if tx != p.tx {
      ArrivalElsewhere(rt, got, p, tx);
    } else if p.tx in rt.resolvers && rt.resolvers[p.tx] == p.index {
      ArrivalSettles(rt, got, p);
    } else {
      ArrivalBuffered(rt, got, p);
    }
  }

  /** next() keeps it too, and does not throw when no other next() is outstanding. */
  lemma NextKeeps(rt: RtState, got: Got, tx: Tx)
    requires RtInv(rt, got) && tx in rt.iters && tx !in rt.resolvers
    ensures NextCall(rt, tx).Some? && RtInv(NextCall(rt, tx).value, got)
  {
    if !rt.iters[tx].finished {
      var rt' := NextCall(rt, tx).value;
      forall t | t in rt'.iters ensures Reassembles(rt', got, t) {
        assert Reassembles(rt, got, t);
        if t == tx {
          NextReassembles(rt, got, tx);
        } else {
          NextReassemblesOther(rt, got, tx, t);
        }
      }
      NextWf(rt, tx);
    }
  }

  lemma NextWf(rt: RtState, tx: Tx)
    requires Wf(rt) && rt.responses.Keys <= rt.iters.Keys && tx in rt.iters && tx !in rt.resolvers
    ensures NextCall(rt, tx).Some?
    ensures var rt' := NextCall(rt, tx).value;
      Wf(rt') && rt'.responses.Keys <= rt'.iters.Keys && rt'.iters.Keys == rt.iters.Keys
  {
  }

  lemma NextReassembles(rt: RtState, got: Got, tx: Tx)
    requires Wf(rt) && WfGot(got) && tx in rt.iters && tx !in rt.resolvers && !rt.iters[tx].finished
    requires Reassembles(rt, got, tx)
    ensures NextCall(rt, tx).Some? && Reassembles(NextCall(rt, tx).value, got, tx)
  {
    var idx := rt.iters[tx].idx;
    if Buffered(rt, tx, idx) {
      NextTakes(rt, got, tx, rt.responses[tx][idx]);
    } else {
      assert Buffers(NextCall(rt, tx).value, got, tx);
    }
  }

  /** next() on a reply that is already here. */
  lemma NextTakes(rt: RtState, got: Got, tx: Tx, p: Packet)
    requires Wf(rt) && WfGot(got) && tx in rt.iters && tx !in rt.resolvers && !rt.iters[tx].finished
    requires Reassembles(rt, got, tx)
    requires Buffered(rt, tx, rt.iters[tx].idx) && p == rt.responses[tx][rt.iters[tx].idx]
    ensures NextCall(rt, tx).Some? && Reassembles(NextCall(rt, tx).value, got, tx)
  {
    var rt' := NextCall(rt, tx).value;
    assert p == got[(tx, rt.iters[tx].idx)];
    assert Arrive(got, p) == got;
    SettlesYielded(rt, got, p, rt');
    TakeKeepsBuffers(rt, got, tx, rt');
  }

  lemma TakeKeepsBuffers(rt: RtState, got: Got, tx: Tx, rt': RtState)
    requires WfGot(got) && tx in rt.iters && tx in rt'.iters && Buffers(rt, got, tx)
    requires 0 <= Consumed(rt, tx) && Buffered(rt, tx, Consumed(rt, tx)) && Consumed(rt', tx) == Consumed(rt, tx) + 1
    requires rt'.responses == Unbuffer(rt.responses, tx, Consumed(rt, tx))
    ensures Buffers(rt', got, tx)
  {
    var c: nat := Consumed(rt, tx);
    var left := rt.responses[tx] - {c};
    forall i: nat ensures Buffered(rt', tx, i) <==> Buffered(rt, tx, i) && i != c {
      assert i in left <==> i in rt.responses[tx] && i != c;
    }
  }

  lemma NextReassemblesOther(rt: RtState, got: Got, tx: Tx, t: Tx)
    requires Wf(rt) && WfGot(got) && tx in rt.iters && tx !in rt.resolvers && !rt.iters[tx].finished
    requires t in rt.iters && t != tx && Reassembles(rt, got, t)
    ensures NextCall(rt, tx).Some? && Reassembles(NextCall(rt, tx).value, got, t)
  {
    var rt' := NextCall(rt, tx).value;
    assert rt'.iters[t] == rt.iters[t];
    assert (t in rt'.resolvers <==> t in rt.resolvers) && (t in rt.resolvers ==> rt'.resolvers[t] == rt.resolvers[t]);
    assert (t in rt'.responses <==> t in rt.responses) && (t in rt.responses ==> rt'.responses[t] == rt.responses[t]);
    SameBuffers(rt, rt', got, t);
  }

  lemma SameBuffers(rt: RtState, rt': RtState, got: Got, t: Tx)
    requires t in rt.iters && t in rt'.iters && Consumed(rt', t) == Consumed(rt, t)
    requires t in rt'.responses <==> t in rt.responses
    requires t in rt.responses ==> rt'.responses[t] == rt.responses[t]
    requires Buffers(rt, got, t)
    ensures Buffers(rt', got, t)
  {
    forall i: nat ensures Buffered(rt', t, i) <==> Buffered(rt, t, i) {}
  }

  // ------------------------------------------------------------ whole runs

  /** A client opens an iterator, a reply arrives, the consumer calls next(). */
  datatype Event = Opens(tx: Tx, many: bool) | Arrives(p: Packet) | Asks(tx: Tx)

  /** Transaction ids are fresh, a reply comes at most once and to a known transaction, and
      next() is not called while an earlier next() of the same iterator is waiting. */
  ghost predicate CanHappen(rt: RtState, got: Got, e: Event) {
    match e
    case Opens(tx, _) => tx !in rt.iters
    case Arrives(p) => p.Reply? && p.tx in rt.iters && (p.tx, p.index) !in got
    case Asks(tx) => tx in rt.iters && tx !in rt.resolvers
  }

  ghost function After(rt: RtState, got: Got, e: Event): (RtState, Got)
    requires RtInv(rt, got) && CanHappen(rt, got, e)
  {
    match e
    case Opens(tx, many) => (Open(rt, tx, many), got)
    case Arrives(p) => (RegisterResponse(rt, p), Arrive(got, p))
    case Asks(tx) => var r := NextCall(rt, tx); (if r.Some? then r.value else rt, got)
  }

  lemma EventKeeps(rt: RtState, got: Got, e: Event)
    requires RtInv(rt, got) && CanHappen(rt, got, e)
    ensures RtInv(After(rt, got, e).0, After(rt, got, e).1)
  {
    match e {
      case Opens(tx, many) => OpenKeeps(rt, got, tx, many);
      case Arrives(p) => ArrivalKeeps(rt, got, p);
      case Asks(tx) => NextKeeps(rt, got, tx);
    }
  }

  /** The events es, in this order, starting from an empty runtime. */
  ghost predicate Possible(es: seq<Event>)
    decreases |es|, 0
  {
    es == [] ||
    var n := |es| - 1;
    Possible(es[..n]) && CanHappen(Exec(es[..n]).0, Exec(es[..n]).1, es[n])
  }

  ghost function Exec(es: seq<Event>): (r: (RtState, Got))
    requires Possible(es)
    ensures RtInv(r.0, r.1)
    decreases |es|, 1
  {
    if es == [] then (FRESH, map[])
    else
      var n := |es| - 1;
      var (rt, got) := Exec(es[..n]);
      EventKeeps(rt, got, es[n]);
      After(rt, got, es[n])
  }

  /** The replies to tx that are here are those numbered 0..|outs|, finishing with the last. */
  ghost predicate Delivered(got: Got, tx: Tx, outs: seq<Value>) {
    && (forall i: nat :: (tx, i) in got <==> i < |outs|)
    && (forall i: nat | i < |outs| :: got[(tx, i)] == Reply(tx, i, i == |outs| - 1, Out(outs[i])))
  }

  /** Whatever the order of the replies of all transactions and of the calls of next():
      an iterator has yielded a prefix of its values in index order, a waiting resolver and
      a buffered reply for the same index never coexist, and once all replies to a call are
      here, the iterator is finished exactly when it has consumed them all, with all values
      yielded and nothing of the call left behind. */
  lemma AnyOrder(es: seq<Event>, tx: Tx, outs: seq<Value>)
    requires Possible(es)
    ensures var (rt, got) := Exec(es);
      && (tx in rt.resolvers ==> !Buffered(rt, tx, rt.resolvers[tx]))
      && (tx in rt.iters && rt.iters[tx].many && outs != [] && Delivered(got, tx, outs) ==>
            var it, c := rt.iters[tx], Consumed(rt, tx);
            && 0 <= c <= |outs| && it.values == outs[..c] && it.error.None?
            && (it.finished <==> c == |outs|)
            && (it.finished ==> it.values == outs && tx !in rt.resolvers && tx !in rt.responses))
  {
    var (rt, got) := Exec(es);
    if tx in rt.resolvers {
      assert Reassembles(rt, got, tx);
    }
    if tx in rt.iters && rt.iters[tx].many && outs != [] && Delivered(got, tx, outs) {
      AllDelivered(rt, got, tx, outs);
    }
  }

  lemma AllDelivered(rt: RtState, got: Got, tx: Tx, outs: seq<Value>)
    requires RtInv(rt, got) && tx in rt.iters && rt.iters[tx].many && outs != [] && Delivered(got, tx, outs)
    ensures var it, c := rt.iters[tx], Consumed(rt, tx);
            && 0 <= c <= |outs| && it.values == outs[..c] && it.error.None?
            && (it.finished <==> c == |outs|)
            && (it.finished ==> it.values == outs && tx !in rt.resolvers && tx !in rt.responses)
  {
    assert Reassembles(rt, got, tx);
    var it, c := rt.iters[tx], Consumed(rt, tx);
    assert c > |outs| ==> (tx, |outs|) in got;
    DeliveredUpTo(got, tx, outs, c);
    if c == |outs| {
      assert got[(tx, c - 1)].finish;
      if tx in rt.responses {
        var i :| i in rt.responses[tx];
        assert Buffered(rt, tx, i);
      }
    }
  }

  lemma {:induction false} DeliveredUpTo(got: Got, tx: Tx, outs: seq<Value>, c: nat)
    requires WfGot(got) && Delivered(got, tx, outs) && c <= |outs|
    ensures OutsUpTo(got, tx, c) == outs[..c] && ErrorUpTo(got, tx, c) == None
  {
    if c > 0 {
      DeliveredUpTo(got, tx, outs, c - 1);
      assert outs[..c] == outs[..c - 1] + [outs[c - 1]];
    }
  }

  // ------------------------------------------------------------- after errors

  /** An error reply p whose turn it is: it settles the waiting next(), or is buffered and
      settles the following one. */
  ghost predicate ErrorSettles(rt: RtState, p: Packet, after: RtState)
    requires Wf(rt) && p.Reply? && p.tx in rt.iters
  {
    if p.tx in rt.resolvers then after == RegisterResponse(rt, p)
    else Wf(RegisterResponse(rt, p)) && NextCall(RegisterResponse(rt, p), p.tx) == Some(after)
  }

  /** In either case the consumer sees the error. The iterator is finished exactly if next() was
      waiting when the reply came; if not, one more next() waits for an index beyond the last. */
  lemma ErrorEndsIff(rt: RtState, got: Got, p: Packet) returns (after: RtState)
    requires RtInv(rt, got) && p.Reply? && p.out.Fail? && p.finish && (p.tx, p.index) !in got
    requires p.tx in rt.iters && rt.iters[p.tx].many && !rt.iters[p.tx].finished && p.index == Consumed(rt, p.tx)
    ensures ErrorSettles(rt, p, after) && Wf(after) && p.tx in after.iters && p.tx !in after.resolvers
    ensures after.iters[p.tx].error == Some(p.out.reason)
    ensures after.iters[p.tx].finished <==> p.tx in rt.resolvers
    ensures p.tx in rt.resolvers ==> NextCall(after, p.tx) == Some(after)
    ensures p.tx !in rt.resolvers && (p.tx, p.index + 1) !in got ==>
      after.iters[p.tx].idx == p.index + 1 && NextWaits(after, p.tx)
  {
    if p.tx in rt.resolvers {
      after := RegisterResponse(rt, p);
      ErrorAwaited(rt, got, p);
    } else {
      after := ErrorBuffered(rt, got, p);
      if (p.tx, p.index + 1) !in got {
        NothingBuffered(after, p.tx);
      }
    }
  }

  /** An error that came before its turn: whenever next() gets to it, it is taken from the buffer.
      The consumer sees it, and the iterator is not finished; one more next() waits. */
  lemma BufferedErrorLeavesOpen(rt: RtState, got: Got, tx: Tx) returns (after: RtState)
    requires RtInv(rt, got) && tx in rt.iters && tx !in rt.resolvers && !rt.iters[tx].finished
    requires Buffered(rt, tx, rt.iters[tx].idx) && rt.responses[tx][rt.iters[tx].idx].out.Fail?
    ensures NextCall(rt, tx) == Some(after) && RtInv(after, got) && tx in after.iters && tx !in after.resolvers
    ensures var error := rt.responses[tx][rt.iters[tx].idx].out;
      after.iters[tx] == rt.iters[tx].(error := Some(error.reason), idx := rt.iters[tx].idx + 1)
    ensures (tx, after.iters[tx].idx) !in got ==> NextWaits(after, tx)
  {
    assert Reassembles(rt, got, tx);
    var p := rt.responses[tx][rt.iters[tx].idx];
    assert p == got[(tx, rt.iters[tx].idx)];
    NextKeeps(rt, got, tx);
    NextTakesError(rt, p);
    after := NextCall(rt, tx).value;
    assert Reassembles(after, got, tx);
    if (tx, after.iters[tx].idx) !in got {
      NothingBuffered(after, tx);
    }
  }

  /** next() finds nothing and waits for the next index. */
  ghost predicate NextWaits(rt: RtState, tx: Tx)
    requires Wf(rt) && tx in rt.iters
  {
    var it := rt.iters[tx];
    NextCall(rt, tx) ==
      Some(rt.(resolvers := rt.resolvers[tx := it.idx], iters := rt.iters[tx := it.(idx := it.idx + 1)]))
  }

  lemma NothingBuffered(rt: RtState, tx: Tx)
    requires Wf(rt) && tx in rt.iters && tx !in rt.resolvers && !rt.iters[tx].finished
    requires !Buffered(rt, tx, rt.iters[tx].idx)
    ensures NextWaits(rt, tx)
  {
  }

  lemma ErrorAwaited(rt: RtState, got: Got, p: Packet)
    requires RtInv(rt, got) && p.Reply? && p.out.Fail? && p.finish
    requires p.tx in rt.iters && rt.iters[p.tx].many && p.tx in rt.resolvers && p.index == Consumed(rt, p.tx)
    ensures var after := RegisterResponse(rt, p);
      && Wf(after) && p.tx in after.iters && p.tx !in after.resolvers
      && after.iters[p.tx].error == Some(p.out.reason) && after.iters[p.tx].finished
  {
    assert Reassembles(rt, got, p.tx);
    ArrivalWf(rt, p);
  }

  lemma ErrorBuffered(rt: RtState, got: Got, p: Packet) returns (after: RtState)
    requires RtInv(rt, got) && p.Reply? && p.out.Fail? && (p.tx, p.index) !in got
    requires p.tx in rt.iters && !rt.iters[p.tx].finished && p.index == rt.iters[p.tx].idx && p.tx !in rt.resolvers
    ensures ErrorSettles(rt, p, after) && Wf(after) && p.tx in after.iters && p.tx !in after.resolvers
    ensures after.iters[p.tx] == rt.iters[p.tx].(error := Some(p.out.reason), idx := p.index + 1)
    ensures (p.tx, p.index + 1) !in got ==> !Buffered(after, p.tx, p.index + 1)
  {
    assert Reassembles(rt, got, p.tx);
    var came := RegisterResponse(rt, p);
    ArrivalKeeps(rt, got, p);
    NextKeeps(came, Arrive(got, p), p.tx);
    assert Buffered(came, p.tx, p.index) && came.responses[p.tx][p.index] == p;
    NextTakesError(came, p);
    after := NextCall(came, p.tx).value;
    assert Reassembles(after, Arrive(got, p), p.tx);
  }

  lemma NextTakesError(rt: RtState, p: Packet)
    requires Wf(rt) && p.Reply? && p.out.Fail? && p.tx in rt.iters && p.tx !in rt.resolvers
    requires !rt.iters[p.tx].finished && rt.iters[p.tx].idx == p.index
    requires Buffered(rt, p.tx, p.index) && rt.responses[p.tx][p.index] == p
    ensures NextCall(rt, p.tx).Some?
    ensures var after := NextCall(rt, p.tx).value;
      && after.resolvers == rt.resolvers && after.responses == Unbuffer(rt.responses, p.tx, p.index)
      && p.tx in after.iters
      && after.iters[p.tx] == rt.iters[p.tx].(error := Some(p.out.reason), idx := p.index + 1)
  {
  }
}
