/** Connecting and leaving: a client gets exactly one response to each of its connects and
    disconnects, and it says true. */
module ConnectTracking {
  import opened Packets
  import opened BrokerModel
  import opened SystemModel
  import opened CallTracking
  import opened ProtocolTheorems

  // Everything here is about the clients' mailboxes. That the VM's announcements are answered is
  // in ResponseTracking.

  function Asks(q: seq<Packet>, tx: Tx): nat {
    if q == [] then 0
    else (if (q[0].Connect? || q[0].Disconnect?) && q[0].tx == tx then 1 else 0) + Asks(q[1..], tx)
  }

  function Tells(q: seq<Packet>, tx: Tx): nat {
    if q == [] then 0 else (if q[0].Respond? && q[0].tx == tx then 1 else 0) + Tells(q[1..], tx)
  }

  lemma {:induction false} CountsAppend(a: seq<Packet>, b: seq<Packet>, tx: Tx)
    ensures Asks(a + b, tx) == Asks(a, tx) + Asks(b, tx) && Tells(a + b, tx) == Tells(a, tx) + Tells(b, tx)
  {
    if a == [] {
      assert a + b == b;
    } else {
      assert (a + b)[1..] == a[1..] + b;
      CountsAppend(a[1..], b, tx);
    }
  }

  lemma PushedCounts(m: Queues, k: Node, p: Packet, n: Node, tx: Tx)
    ensures Asks(Q(Push(m, k, p), n), tx)
         == Asks(Q(m, n), tx) + if k == n && (p.Connect? || p.Disconnect?) && p.tx == tx then 1 else 0
    ensures Tells(Q(Push(m, k, p), n), tx) == Tells(Q(m, n), tx) + if k == n && p.Respond? && p.tx == tx then 1 else 0
  {
    if k == n {
      CountsAppend(Q(m, n), [p], tx);
      assert [p][1..] == [];
    }
  }

  /** The request is in the client's mailbox, or the response is in it, or the client has taken
      the response. */
  ghost predicate Once(s: Sys, n: Node, tx: Tx) {
    Asks(Q(s.up, n), tx) + Tells(Q(s.down, n), tx) + Tells(Q(s.told, n), tx)
    == if tx in s.asked && s.asked[tx] == n then 1 else 0
  }

  ghost predicate AllTrue(q: seq<Packet>) {
    forall p | p in q && p.Respond? :: p.ok
  }

  ghost predicate ClientTold(s: Sys, n: Node) {
    AllTrue(Q(s.down, n)) && AllTrue(Q(s.told, n)) && forall tx: Tx :: Once(s, n, tx)
  }

  ghost predicate ConnectsInv(s: Sys) {
    s.asked.Keys <= s.used && forall n: Node | n != VM :: ClientTold(s, n)
  }

  /** What the broker does with a packet of a client or the VM, seen by a client. */
  lemma RecvTells(s: Sys, k: Node, n: Node)
    requires CallsInv(s) && Q(s.up, k) != [] && n != VM && ClientTold(s, n)
    ensures ClientTold(RecvStep(s, k), n)
  {
    BrokerTells(s, k);
    RoutedTells(s, k, Route(s.broker, k, Q(s.up, k)[0]).1, RecvStep(s, k), n);
  }

  lemma RoutedTells(s: Sys, k: Node, o: Option<Send>, s': Sys, n: Node)
    requires Q(s.up, k) != [] && n != VM && ClientTold(s, n) && Answer(k, Q(s.up, k)[0], o)
    requires s'.up == Pop(s.up, k) && s'.down == if o.Some? then Push(s.down, o.value.to, o.value.pkt) else s.down
    requires s'.told == s.told && s'.asked == s.asked
    ensures ClientTold(s', n)
  {
    forall tx: Tx ensures Once(s', n, tx) {
      assert Once(s, n, tx);
      if o.Some? {
        PushedCounts(s.down, o.value.to, o.value.pkt, n, tx);
      }
    }
  }

  /** To a client the broker sends a response exactly if it has sent a connect or a disconnect,
      and it says true. */
  ghost predicate Answer(k: Node, p: Packet, o: Option<Send>) {
    && (k != VM && (p.Connect? || p.Disconnect?) ==> o == Some(Send(k, Respond(p.tx, true))))
    && (k == VM || p.Execute? ==> o.Some? ==> o.value.to == VM || !o.value.pkt.Respond?)
    && (k != VM ==> p.Connect? || p.Disconnect? || p.Execute?)
  }

  lemma BrokerTells(s: Sys, k: Node)
    requires CallsInv(s) && Q(s.up, k) != []
    ensures Answer(k, Q(s.up, k)[0], Route(s.broker, k, Q(s.up, k)[0]).1)
  {
    var p := Q(s.up, k)[0];
    assert k == VM ==> p in VmOut(s);
  }

  lemma TakeTells(s: Sys, k: Node, n: Node)
    requires Q(s.down, k) != [] && k != VM && n != VM && ClientTold(s, n)
    ensures ClientTold(TakeStep(s, k), n)
  {
    var p := Q(s.down, k)[0];
    forall tx: Tx ensures Once(TakeStep(s, k), n, tx) {
      assert Once(s, n, tx);
      PushedCounts(s.told, k, p, n, tx);
    }
  }

  lemma AskTells(s: Sys, k: Node, p: Packet, s': Sys, n: Node)
    requires ConnectsInv(s) && n != VM && p.tx !in s.asked
    requires s'.up == Push(s.up, k, p) && s'.down == s.down && s'.told == s.told
    requires s'.asked == if p.Connect? || p.Disconnect? then s.asked[p.tx := k] else s.asked
    ensures ClientTold(s', n)
  {
    assert ClientTold(s, n);
    forall tx: Tx ensures Once(s', n, tx) {
      assert Once(s, n, tx);
      PushedCounts(s.up, k, p, n, tx);
    }
  }

  /** Every action keeps this for every client. */
  lemma ConnectsStep(s: Sys, a: Action)
    requires CallsInv(s) && ConnectsInv(s) && Enabled(s, a)
    ensures ConnectsInv(Apply(s, a))
  {
    forall n: Node | n != VM ensures ClientTold(Apply(s, a), n) {
      assert ClientTold(s, n);
      match a {
        case ClientConnect(k, tx) => AskTells(s, k, Connect(tx), Apply(s, a), n);
        case ClientDisconnect(k, tx) => AskTells(s, k, Disconnect(tx), Apply(s, a), n);
        case ClientCall(k, tx, instr, name, input) => AskTells(s, k, Execute(tx, instr, name, input), Apply(s, a), n);
        case BrokerRecv(k) => RecvTells(s, k, n);
        case ClientTake(k) => TakeTells(s, k, n);
        case _ => ElsewhereTells(s, a, n);
      }
    }
  }

  lemma ElsewhereTells(s: Sys, a: Action, n: Node)
    requires n != VM && ClientTold(s, n) && Enabled(s, a)
    requires !a.ClientConnect? && !a.ClientDisconnect? && !a.ClientCall? && !a.BrokerRecv? && !a.ClientTake?
    ensures ClientTold(Apply(s, a), n)
  {
    if a.VmDrain? {
      DrainFields(s);
    }
    forall tx: Tx ensures Once(Apply(s, a), n, tx) {
      assert Once(s, n, tx);
    }
  }

  lemma {:induction false} ConnectsRun(s: Sys, acts: seq<Action>, t: Sys)
    requires SysInv(s) && ConnectsInv(s) && Leads(s, acts, t)
    ensures ConnectsInv(t)
    decreases |acts|
  {
    if acts != [] {
      InvStep(s, acts[0]);
      ConnectsStep(s, acts[0]);
      ConnectsRun(Apply(s, acts[0]), acts[1..], t);
    }
  }

  /** In every run: no client is ever told false, and each connect or disconnect is unread, or
      its response is on the way, or its sender has taken it; exactly one of these, once. Nobody
      is told what it has not asked. */
  lemma ConnectIsAnswered(s: Sys, n: Node, tx: Tx)
    requires Reachable(s) && n != VM
    ensures forall p | (p in Q(s.down, n) || p in Q(s.told, n)) && p.Respond? :: p.ok
    ensures Asks(Q(s.up, n), tx) + Tells(Q(s.down, n), tx) + Tells(Q(s.told, n), tx)
         == if tx in s.asked && s.asked[tx] == n then 1 else 0
    ensures Q(s.up, n) == [] && Q(s.down, n) == [] && tx in s.asked && s.asked[tx] == n ==> Tells(Q(s.told, n), tx) == 1
  {
    var s0, acts :| Initial(s0) && Leads(s0, acts, s);
    InvInit(s0);
    ConnectsRun(s0, acts, s);
    assert ClientTold(s, n) && Once(s, n, tx);
  }

  /** A client that leaves is forgotten, and nothing else is. */
  lemma LeavingIsLocal(s: Sys, n: Node)
    requires Reachable(s) && n != VM && Enabled(s, BrokerRecv(n)) && Q(s.up, n)[0].Disconnect?
    ensures var b := Apply(s, BrokerRecv(n)).broker;
      b.sockets == s.broker.sockets - {n} && b.subs == s.broker.subs && b.trans == s.broker.trans
  {
    Holding(s);
    var b := Apply(s, BrokerRecv(n)).broker;
    forall ch ensures ch in b.subs <==> ch in s.broker.subs {}
  }
}
