/** A complete run, so that the theorems about reachable states speak of something: a VM with
    the operator spell subscribes its channel, a client connects and calls it, and the letter
    comes back. The states of the run are written out one after the other, and every action
    is shown to lead from one to the next. */
module ProtocolExample {
  import opened Packets
  import opened BrokerModel
  import opened VmModel
  import opened RuntimeModel
  import opened SystemModel
  import opened ChannelTracking
  import opened ProtocolTheorems

  lemma PushFirst(m: Queues, n: Node, p: Packet)
    requires Q(m, n) == []
    ensures Push(m, n, p) == m[n := [p]]
  {
    assert [] + [p] == [p];
  }

  lemma PopLast(m: Queues, n: Node, p: Packet)
    requires Q(m, n) == [p]
    ensures Pop(m, n) == m[n := []]
  {
    assert [p][1..] == [];
  }

  const SPELL := CallFunction("spell")

  /** A VM with the operator spell has connected. */
  const S0 := Sys(BrokerState({VM}, map[], map[]),
                  VmState(Serving, ["spell"], [], map[], {"s"}, None, [Subscribe("s", SPELL)]),
                  map[], map[], map[], {"s"}, map[], map[], map[], map[])

  lemma Begins()
    ensures Reachable(S0) && SafelyReachable(S0)
  {
    var ids: seq<Tx> := ["s"];
    assert SetOf(ids) == {"s"};
    assert ModuleInstrs(["spell"], []) == [SPELL];
    assert Subscriptions(ids, [SPELL]) == [Subscribe("s", SPELL)];
    assert ImportSent(S0, ids, [SPELL]);
    assert Initial(S0) && Leads(S0, [], S0);
    assert SafeInitial(S0) && SafeLeads(S0, [], S0);
  }

  /** The subscription goes to the broker, which answers it. */
  const TABLE := map["0/spell" := VM]
  const S1 := S0.(vm := S0.vm.(pending := []), up := map[VM := [Subscribe("s", SPELL)]])
  const S2 := S1.(broker := BrokerState({VM}, TABLE, map[]), up := map[VM := []],
                  down := map[VM := [Respond("s", true)]])

  lemma SendsSubscription()
    ensures Reachable(S1)
  {
    Begins();
    ReachableNext(S0, VmFlush);
    PushFirst(S0.up, VM, Subscribe("s", SPELL));
    assert S0.vm.pending[1..] == [] && Push(S0.up, VM, Subscribe("s", SPELL)) == S1.up;
  }

  lemma RoutesSubscription()
    ensures Route(S1.broker, VM, Subscribe("s", SPELL)) == (S2.broker, Some(Send(VM, Respond("s", true))))
    ensures NoteRouted(S1, Subscribe("s", SPELL)) == S1.calls
    ensures Pop(S1.up, VM) == S2.up && Push(S1.down, VM, Respond("s", true)) == S2.down
  {
    assert ChannelOf(SPELL) == "0/spell";
    assert S1.broker.subs["0/spell" := VM] == TABLE;
    PopLast(S1.up, VM, Subscribe("s", SPELL));
    PushFirst(S1.down, VM, Respond("s", true));
  }

  lemma Subscribes()
    ensures Reachable(S2)
  {
    SendsSubscription();
    ReachableNext(S1, BrokerRecv(VM));
    RoutesSubscription();
  }

  /** A client connects and calls spell on "a"; the broker forwards the call. */
  const ASK := Execute("t", SPELL, "", TextMap("a"))
  const ASKING := Call(1, SPELL, "", TextMap("a"), Asked, [], None, [])
  const WAITING := RtState(map[], map[], map["t" := Iter(true, 0, false, [], None)])
  const S3 := S2.(broker := S2.broker.(sockets := {VM, 1}))
  const S4 := S3.(up := map[VM := [], 1 := [ASK]], used := {"s", "t"}, calls := map["t" := ASKING],
                  rts := map[1 := WAITING])
  const S5 := S4.(up := map[VM := [], 1 := []], down := map[VM := [Respond("s", true), ASK]],
                  broker := S4.broker.(trans := map["t" := 1]), calls := map["t" := ASKING.(phase := Routed)])

  lemma Asks()
    ensures Reachable(S4)
  {
    Subscribes();
    ReachableNext(S2, Accept(1));
    assert Apply(S2, Accept(1)) == S3;
    ReachableNext(S3, ClientCall(1, "t", SPELL, "", TextMap("a")));
    assert Open(FRESH, "t", true) == WAITING;
    PushFirst(S3.up, 1, ASK);
    assert Push(S3.up, 1, ASK) == S4.up && S3.used + {"t"} == S4.used;
    assert S3.calls["t" := ASKING] == S4.calls && S3.rts[1 := WAITING] == S4.rts;
  }

  lemma RoutesAsk()
    ensures Route(S4.broker, 1, ASK) == (S5.broker, Some(Send(VM, ASK)))
  {
    assert ChannelOf(SPELL) == "0/spell";
    assert S4.broker.trans["t" := 1] == S5.broker.trans;
  }

  lemma ForwardedMaps()
    ensures Pop(S4.up, 1) == S5.up && Push(S4.down, VM, ASK) == S5.down && NoteRouted(S4, ASK) == S5.calls
  {
    PopLast(S4.up, 1, ASK);
    assert [Respond("s", true)] + [ASK] == [Respond("s", true), ASK];
    assert ChannelOf(SPELL) == "0/spell";
  }

  lemma Forwards()
    ensures Reachable(S5)
  {
    Asks();
    ReachableNext(S4, BrokerRecv(1));
    RoutesAsk();
    ForwardedMaps();
  }

  /** The VM takes the broker's response, then the call, and steps the operator once. */
  const RUNNING := ASKING.(phase := Active, start := Some(Spelling("a", 0)))
  const ANSWER := Reply("t", 0, true, Out(TextMap("a")))
  const ANSWERED := RUNNING.(phase := Done, outs := [ANSWER], steps := [SpellStep("a", 0)])
  const S6 := S5.(down := map[VM := [ASK]], vm := S5.vm.(expected := {}))
  const S7 := S6.(down := map[VM := []], vm := S6.vm.(running := Some(Run("t", 0, Spelling("a", 0)))),
                  calls := map["t" := RUNNING])
  const S8 := S7.(vm := S6.vm.(pending := [ANSWER]), calls := map["t" := ANSWERED])

  lemma TakesResponse()
    ensures Reachable(S6)
  {
    Forwards();
    ReachableNext(S5, VmTake(InitError(""), NotMade(""), []));
    assert S5.down[VM][1..] == [ASK] && Pop(S5.down, VM) == S6.down;
    assert Handle(S5.vm, Respond("s", true), InitError(""), NotMade(""), []) == S6.vm;
    assert S5.used + SetOf([]) == S6.used;
  }

  const STARTED := Ready(Spelling("a", 0))

  lemma CallHandled()
    ensures SpellInit(TextMap("a")) == STARTED && Handle(S6.vm, ASK, STARTED, NotMade(""), []) == S7.vm
    ensures NoteTaken(S6, ASK, S7.vm, STARTED) == S7.calls
  {
  }

  lemma CallTaken()
    ensures Pop(S6.down, VM) == S7.down && S6.used + SetOf([]) == S7.used
  {
    PopLast(S6.down, VM, ASK);
  }

  lemma TakesCall()
    ensures Reachable(S7)
  {
    TakesResponse();
    CallHandled();
    ReachableNext(S6, VmTake(STARTED, NotMade(""), []));
    CallTaken();
  }

  lemma Steps()
    ensures Reachable(S8)
  {
    TakesCall();
    assert SpellStep("a", 0) == OkOutput(TextMap("a"), true, Spelling("a", 1));
    ReachableNext(S7, VmStep(SpellStep("a", 0)));
    assert Replies([ANSWER], "t") == [ANSWER] + Replies([ANSWER][1..], "t") == [ANSWER];
    assert Emits(S7.vm, SpellStep("a", 0)) == S8.vm;
    assert [] + [ANSWER] == [ANSWER] && [] + [SpellStep("a", 0)] == [SpellStep("a", 0)];
    assert StepNoted(RUNNING, S8.vm, "t", SpellStep("a", 0)) == ANSWERED;
    assert S7.calls["t" := ANSWERED] == S8.calls;
  }

  /** The reply reaches the client, which asks for it. */
  const S9 := S8.(vm := S6.vm, up := map[VM := [ANSWER], 1 := []])
  const S10 := S9.(up := map[VM := [], 1 := []], down := map[VM := [], 1 := [ANSWER]],
                   broker := S9.broker.(trans := map[]))
  const HOLDING := WAITING.(responses := map["t" := map[0 := ANSWER]])
  const S11 := S10.(down := map[VM := [], 1 := []], recvd := map[1 := [ANSWER]], rts := map[1 := HOLDING])

  lemma Flushes()
    ensures Reachable(S9)
  {
    Steps();
    ReachableNext(S8, VmFlush);
    PushFirst(S8.up, VM, ANSWER);
    assert S8.vm.pending[1..] == [] && Push(S8.up, VM, ANSWER) == S9.up;
  }

  lemma RelayedMaps()
    ensures Pop(S9.up, VM) == S10.up && Push(S9.down, 1, ANSWER) == S10.down
    ensures S9.broker.trans - {"t"} == S10.broker.trans
  {
    PopLast(S9.up, VM, ANSWER);
    PushFirst(S9.down, 1, ANSWER);
  }

  lemma Relays()
    ensures Reachable(S10)
  {
    Flushes();
    ReachableNext(S9, BrokerRecv(VM));
    assert S9.down == map[VM := []];
    RelayedMaps();
  }

  lemma HoldsAnswer()
    ensures Registered(WAITING, ANSWER) == HOLDING
  {
  }

  lemma ReceivedMaps()
    ensures Pop(S10.down, 1) == S11.down && Push(S10.recvd, 1, ANSWER) == S11.recvd
    ensures Rt(S10, 1) == WAITING && S10.rts[1 := HOLDING] == S11.rts
  {
    PopLast(S10.down, 1, ANSWER);
    PushFirst(S10.recvd, 1, ANSWER);
  }

  lemma Receives()
    ensures Reachable(S11)
  {
    Relays();
    ReachableNext(S10, ClientTake(1));
    HoldsAnswer();
    ReceivedMaps();
  }

  /** There is a run in which the call of spell comes back complete: the iterator is finished
      with the letters of the text. */
  lemma SpellComesBack() returns (s: Sys)
    ensures Reachable(s) && "t" in Rt(s, 1).iters
    ensures Rt(s, 1).iters["t"].finished && Rt(s, 1).iters["t"].values == Letters("a")
  {
    Receives();
    ReachableNext(S11, ClientNext(1, "t"));
    s := Apply(S11, ClientNext(1, "t"));
    YieldsAnswer();
  }

  lemma YieldsAnswer()
    ensures var rt := NextAsked(HOLDING, "t");
      "t" in rt.iters && rt.iters["t"].finished && rt.iters["t"].values == Letters("a")
  {
    assert HOLDING.responses["t"] - {0} == map[];
    assert [] + [TextMap("a")] == Letters("a");
  }
}
