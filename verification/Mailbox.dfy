/** Bounded mailboxes and wake-up signals. */
module MailboxModel {
  import opened Packets

  // core/src/inproc_socket.cpp and core/src/thread.cpp. A message is put in the mailbox under
  // one lock and announced under another, so the two queues are out of step in between.

  const LIMIT := 128

  datatype Signal = Signal(who: string, what: string)

  class Mailbox<T> {
    var q: seq<T>

    constructor ()
      ensures q == []
    {
      q := [];
    }

    method Set(mail: T) returns (ok: bool)
      modifies this
      ensures ok <==> |old(q)| < 128
      ensures q == Enqueued(old(q), mail)
    {
      if |q| >= LIMIT {
        return false;
      }
      q := q + [mail];
      return true;
    }

    method Get() returns (rv: Option<T>)
      modifies this
      ensures rv == First(old(q)) && q == Dequeued(old(q))
    {
      if |q| == 0 {
        return None;
      }
      rv := Some(q[0]);
      q := q[1..];
    }
  }

  class Monitor {
    var q: seq<Signal>

    constructor ()
      ensures q == []
    {
      q := [];
    }

    /** monitor(): the oldest signal; None stands for the wait that times out. */
    method TakeSignal() returns (rv: Option<Signal>)
      modifies this
      ensures rv == First(old(q)) && q == Dequeued(old(q))
    {
      if |q| > 0 {
        rv := Some(q[0]);
        q := q[1..];
      } else {
        rv := None;
      }
    }
  }

  class Socket<T> {
    const myname: string
    const myMailbox: Mailbox<T>
    var monitor: Monitor?
    var peer: Socket?<T>

    constructor (name: string)
      ensures myname == name && monitor == null && peer == null
      ensures fresh(myMailbox) && myMailbox.q == []
    {
      myname, monitor, peer := name, null, null;
      myMailbox := new Mailbox();
    }

    method SetMonitor(m: Monitor)
      modifies this`monitor
      ensures monitor == m
    {
      monitor := m;
    }

    method Attach(other: Socket<T>)
      modifies this`peer
      ensures peer == other
    {
      peer := other;
    }

    method Notify(what: string)
      modifies if monitor == null then {} else {monitor}
      ensures monitor != null ==> monitor.q == old(monitor.q) + [Signal(myname, what)]
    {
      if monitor != null {
        monitor.q := monitor.q + [Signal(myname, what)];
      }
    }

    /** send(): nothing happens without a peer or when its mailbox is full; else one message
        and, if the peer is monitored, one signal. */
    method Send(msg: T) returns (ok: bool)
      modifies if peer == null then {} else {peer.myMailbox} + if peer.monitor == null then {} else {peer.monitor}
      ensures ok <==> peer != null && |old(peer.myMailbox.q)| < LIMIT
      ensures peer != null ==> peer.myMailbox.q == Enqueued(old(peer.myMailbox.q), msg)
      ensures peer != null && peer.monitor != null ==>
        peer.monitor.q == old(peer.monitor.q) + if ok then [Signal(peer.myname, "recv")] else []
    {
      if peer == null {
        return false;
      }
      ok := peer.myMailbox.Set(msg);
      if ok {
        peer.Notify("recv");
      }
    }

    method Recv() returns (rv: Option<T>)
      modifies myMailbox
      ensures rv == First(old(myMailbox.q)) && myMailbox.q == Dequeued(old(myMailbox.q))
    {
      rv := myMailbox.Get();
    }
  }

  function Enqueued<T>(q: seq<T>, mail: T): seq<T> {
    if |q| >= LIMIT then q else q + [mail]
  }

  function First<T>(q: seq<T>): Option<T> {
    if q == [] then None else Some(q[0])
  }

  function Dequeued<T>(q: seq<T>): seq<T> {
    if q == [] then [] else q[1..]
  }

  // --------------------------------------- many sockets, senders and threads

  /** A socket's mailbox; the number of senders that have put a message in and not notified
      yet, and of receivers that have taken a signal and not called recv() yet; whether the
      socket has a monitor. The rest is history: notifications nobody was there to hear,
      messages accepted and messages received. */
  datatype Box<T> = Box(queue: seq<T>, entering: nat, taking: nat, monitored: bool,
                        lost: nat, accepted: seq<T>, received: seq<T>)

  /** All sockets that share one monitor, and that monitor's queue. */
  datatype Net<T> = Net(boxes: map<string, Box<T>>, signals: seq<Signal>)

  datatype Action<T> =
    | Enqueue(name: string, mail: T)
    | Notify(name: string)
    | SetMonitor(name: string)
    | OtherSignal(sig: Signal)
    | TakeSignal
    | Dequeue(name: string)

  ghost predicate Enabled<T>(net: Net<T>, a: Action<T>) {
    match a
    case Enqueue(k, _) => k in net.boxes
    case Notify(k) => k in net.boxes && net.boxes[k].entering > 0
    case SetMonitor(k) => k in net.boxes
    case OtherSignal(sig) => sig.what != "recv"
    case TakeSignal => net.signals != []
    case Dequeue(k) => k in net.boxes && net.boxes[k].taking > 0
  }

  ghost function AfterEnqueue<T>(b: Box<T>, mail: T): Box<T> {
    if |b.queue| >= LIMIT then b
    else b.(queue := Enqueued(b.queue, mail), entering := b.entering + 1, accepted := b.accepted + [mail])
  }

  ghost function AfterDequeue<T>(b: Box<T>): Box<T>
    requires b.taking > 0
  {
    b.(queue := Dequeued(b.queue), taking := b.taking - 1,
       received := b.received + match First(b.queue) case None => [] case Some(m) => [m])
  }

  ghost function Apply<T>(net: Net<T>, a: Action<T>): Net<T>
    requires Enabled(net, a)
  {
    match a
    case Enqueue(k, mail) => net.(boxes := net.boxes[k := AfterEnqueue(net.boxes[k], mail)])
    case Notify(k) =>
      var b := net.boxes[k];
      Net(net.boxes[k := b.(entering := b.entering - 1, lost := b.lost + if b.monitored then 0 else 1)],
          net.signals + if b.monitored then [Signal(k, "recv")] else [])
    case SetMonitor(k) => net.(boxes := net.boxes[k := net.boxes[k].(monitored := true)])
    case OtherSignal(sig) => net.(signals := net.signals + [sig])
    case TakeSignal =>
      var sig := net.signals[0];
      Net(if sig.what == "recv" && sig.who in net.boxes then
            net.boxes[sig.who := net.boxes[sig.who].(taking := net.boxes[sig.who].taking + 1)]
          else net.boxes, net.signals[1..])
    case Dequeue(k) => net.(boxes := net.boxes[k := AfterDequeue(net.boxes[k])])
  }

  ghost function Pending(signals: seq<Signal>, name: string): nat {
    multiset(signals)[Signal(name, "recv")]
  }

  /** Every message in the mailbox has a signal, a sender about to send one or a receiver that
      has taken one, except for as many as were notified without a monitor. */
  ghost predicate Balanced<T>(b: Box<T>, pending: nat) {
    && pending + b.entering + b.taking + b.lost == |b.queue|
    && |b.queue| <= LIMIT
    && b.accepted == b.received + b.queue
  }

  ghost predicate NetInv<T>(net: Net<T>) {
    && (forall k | k in net.boxes :: Balanced(net.boxes[k], Pending(net.signals, k)))
    && (forall k | k in net.boxes && !net.boxes[k].monitored :: Pending(net.signals, k) == 0)
  }

  lemma DequeueBalanced<T>(b: Box<T>, pending: nat)
    requires Balanced(b, pending) && b.taking > 0
    ensures Balanced(AfterDequeue(b), pending) && First(b.queue).Some?
  {
    assert b.received + b.queue == b.received + [b.queue[0]] + b.queue[1..];
  }

  lemma EnqueueBalanced<T>(b: Box<T>, pending: nat, mail: T)
    requires Balanced(b, pending)
    ensures Balanced(AfterEnqueue(b, mail), pending)
  {
    assert b.received + b.queue + [mail] == b.received + (b.queue + [mail]);
  }

  lemma TakenSignal(signals: seq<Signal>, name: string)
    requires signals != []
    ensures Pending(signals, name) == Pending(signals[1..], name) + if signals[0] == Signal(name, "recv") then 1 else 0
  {
    assert signals == [signals[0]] + signals[1..];
  }

  lemma NetStep<T>(net: Net<T>, a: Action<T>)
    requires NetInv(net) && Enabled(net, a)
    ensures NetInv(Apply(net, a))
  {
    var net' := Apply(net, a);
    forall k | k in net'.boxes
      ensures Balanced(net'.boxes[k], Pending(net'.signals, k))
      ensures !net'.boxes[k].monitored ==> Pending(net'.signals, k) == 0
    {
      assert Balanced(net.boxes[k], Pending(net.signals, k));
      match a {
        case Enqueue(n, mail) => if n == k { EnqueueBalanced(net.boxes[k], Pending(net.signals, k), mail); }
        case Dequeue(n) => if n == k { DequeueBalanced(net.boxes[k], Pending(net.signals, k)); }
        case TakeSignal => TakenSignal(net.signals, k);
        case _ =>
      }
    }
  }

  ghost predicate Leads<T>(net: Net<T>, acts: seq<Action<T>>, net': Net<T>)
    decreases |acts|
  {
    if acts == [] then net' == net else Enabled(net, acts[0]) && Leads(Apply(net, acts[0]), acts[1..], net')
  }

  /** Freshly attached sockets; some have their monitor already. */
  ghost predicate Start<T>(net: Net<T>) {
    && net.signals == []
    && forall k | k in net.boxes :: net.boxes[k] == Box([], 0, 0, net.boxes[k].monitored, 0, [], [])
  }

  /** The notifications of socket k that come before its monitor. */
  ghost function Early<T>(acts: seq<Action<T>>, k: string): nat {
    if acts == [] || acts[0] == SetMonitor(k) then 0
    else (if acts[0] == Notify(k) then 1 else 0) + Early(acts[1..], k)
  }

  lemma {:induction false} NetRun<T>(net: Net<T>, acts: seq<Action<T>>, net': Net<T>, k: string)
    requires NetInv(net) && Leads(net, acts, net') && k in net.boxes
    ensures NetInv(net') && k in net'.boxes
    ensures net'.boxes[k].lost == net.boxes[k].lost + if net.boxes[k].monitored then 0 else Early(acts, k)
    decreases |acts|
  {
    if acts != [] {
      NetStep(net, acts[0]);
      LostStep(net, acts[0], k, Early(acts[1..], k));
      NetRun(Apply(net, acts[0]), acts[1..], net', k);
    }
  }

  lemma LostStep<T>(net: Net<T>, a: Action<T>, k: string, later: nat)
    requires Enabled(net, a) && k in net.boxes
    ensures k in Apply(net, a).boxes
    ensures var b, b' := net.boxes[k], Apply(net, a).boxes[k];
      b'.lost + (if b'.monitored then 0 else later)
      == b.lost + if b.monitored || a == SetMonitor(k) then 0 else (if a == Notify(k) then 1 else 0) + later
  {
  }

  /** In every interleaving: recv signals waiting in the monitor, senders that have not notified
      yet and receivers that have not called recv() yet are as many as the messages in the
      mailbox, less the notifications that came before the monitor. The mailbox never exceeds
      its limit, and messages come out in the order they were accepted. */
  lemma Wakeups<T>(net: Net<T>, acts: seq<Action<T>>, net': Net<T>, k: string)
    requires Start(net) && Leads(net, acts, net') && k in net.boxes
    ensures k in net'.boxes
    ensures var b, early := net'.boxes[k], if net.boxes[k].monitored then 0 else Early(acts, k);
      && Pending(net'.signals, k) + b.entering + b.taking == |b.queue| - early
      && |b.queue| <= 128
      && b.accepted == b.received + b.queue
  {
    NetRun(net, acts, net', k);
  }

  /** recv() finds a message whenever it is called for a signal. */
  lemma NoEmptyRecv<T>(net: Net<T>, acts: seq<Action<T>>, net': Net<T>, k: string)
    requires Start(net) && Leads(net, acts, net') && k in net.boxes && k in net'.boxes && net'.boxes[k].taking > 0
    ensures First(net'.boxes[k].queue).Some?
  {
    Wakeups(net, acts, net', k);
  }

  /** When nobody is in the middle of send or recv and no signal waits, the mailbox is empty
      exactly if no notification came before the monitor. */
  lemma NoLostWakeupIff<T>(net: Net<T>, acts: seq<Action<T>>, net': Net<T>, k: string)
    requires Start(net) && Leads(net, acts, net') && k in net.boxes && k in net'.boxes
    requires net'.boxes[k].entering == 0 && net'.boxes[k].taking == 0 && Signal(k, "recv") !in net'.signals
    ensures net'.boxes[k].queue == [] <==> net.boxes[k].monitored || Early(acts, k) == 0
  {
    Wakeups(net, acts, net', k);
  }

  /** A message sent between attach() and set_monitor() stays unread. */
  lemma EarlyMessageIsStranded()
    ensures exists net: Net<int>, acts, net' ::
      && Start(net) && Leads(net, acts, net') && "a" in net'.boxes
      && net'.boxes["a"].monitored && net'.boxes["a"].queue == [7]
      && net'.boxes["a"].entering == net'.boxes["a"].taking == 0 && net'.signals == []
  {
    var net := Net(map["a" := Box([], 0, 0, false, 0, [], [])], []);
    var acts: seq<Action<int>> := [Enqueue("a", 7), Notify("a"), SetMonitor("a")];
    var n1 := Apply(net, acts[0]);
    var n2 := Apply(n1, acts[1]);
    var n3 := Apply(n2, acts[2]);
    LeadsInThree(net, acts);
    assert n3.boxes["a"] == Box([7], 0, 0, true, 1, [7], []) && n3.signals == [];
    assert Leads(net, acts, n3);
  }

  lemma LeadsInThree<T>(net: Net<T>, acts: seq<Action<T>>)
    requires |acts| == 3 && Enabled(net, acts[0]) && Enabled(Apply(net, acts[0]), acts[1])
    requires Enabled(Apply(Apply(net, acts[0]), acts[1]), acts[2])
    ensures Leads(net, acts, Apply(Apply(Apply(net, acts[0]), acts[1]), acts[2]))
  {
    var n1 := Apply(net, acts[0]);
    var n2 := Apply(n1, acts[1]);
    var n3 := Apply(n2, acts[2]);
    assert acts[1..][1..] == acts[2..] && acts[2..][1..] == [];
    assert Leads(n3, [], n3);
    assert Leads(n2, acts[2..], n3);
    assert Leads(n1, acts[1..], n3);
  }
}
