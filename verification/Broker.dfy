/** The router of broker/src/broker.cpp. A socket is named by the node behind it; the
    packets the broker sends are collected in the order of sending. */
module BrokerModel {
  import opened Packets

  datatype BrokerState = BrokerState(sockets: set<Node>, subs: map<Channel, Node>, trans: map<Tx, Node>)

  datatype Send = Send(to: Node, pkt: Packet)

  /** What the broker does with a packet from the mailbox of `who`. */
  function Route(b: BrokerState, who: Node, pkt: Packet): (BrokerState, Option<Send>) {
    match pkt
    case Connect(tx) => (b, Some(Send(who, Respond(tx, true))))
    case Disconnect(tx) =>
      (b.(subs := map ch | ch in b.subs && b.subs[ch] != who :: b.subs[ch], sockets := b.sockets - {who}),
       Some(Send(who, Respond(tx, true))))
    case Subscribe(tx, instr) =>
      var ch := ChannelOf(instr);
      if ch in b.subs then (b, Some(Send(who, Respond(tx, false))))
      else (b.(subs := b.subs[ch := who]), Some(Send(who, Respond(tx, true))))
    case Unsubscribe(tx, instr) =>
      var ch := ChannelOf(instr);
      if ch in b.subs && b.subs[ch] == who then
        (b.(subs := b.subs - {ch}), Some(Send(who, Respond(tx, true))))
      else (b, Some(Send(who, Respond(tx, false))))
    case Execute(tx, instr, _, _) =>
      var ch := ChannelOf(instr);
      if ch in b.subs then (b.(trans := b.trans[tx := who]), Some(Send(b.subs[ch], pkt)))
      else (b, Some(Send(who, FailReply(tx, 0, "There is no channel can handle this request"))))
    case Reply(tx, _, finish, _) =>
      if tx in b.trans then
        (if finish then b.(trans := b.trans - {tx}) else b, Some(Send(b.trans[tx], pkt)))
      else (b, None)
    case Respond(_, _) => (b, None)
  }

  /** Whoever sends what: nobody takes or drops a channel of another node, and only a subscribe
      adds one, for its sender. */
  lemma ChannelsHaveOwners(b: BrokerState, who: Node, pkt: Packet)
    ensures var subs := Route(b, who, pkt).0.subs;
      && (forall ch | ch in b.subs && b.subs[ch] != who :: ch in subs && subs[ch] == b.subs[ch])
      && (forall ch | ch in b.subs && ch !in subs ::
            pkt.Disconnect? || (pkt.Unsubscribe? && ChannelOf(pkt.instr) == ch))
      && (forall ch | ch in subs && (ch !in b.subs || subs[ch] != b.subs[ch]) ::
            pkt.Subscribe? && ChannelOf(pkt.instr) == ch && ch !in b.subs && subs[ch] == who)
  {
  }

  /** An announcement is answered to its sender, and with true exactly if the channel was free to
      subscribe, or the sender's to unsubscribe; then, and only then, the table has changed. */
  lemma AnnouncementIsAnswered(b: BrokerState, who: Node, pkt: Packet)
    requires pkt.Subscribe? || pkt.Unsubscribe?
    ensures var (b', out) := Route(b, who, pkt);
      && out.Some? && out.value.to == who && out.value.pkt.Respond? && out.value.pkt.tx == pkt.tx
      && var ch := ChannelOf(pkt.instr);
      && (out.value.pkt.ok <==> if pkt.Subscribe? then ch !in b.subs else ch in b.subs && b.subs[ch] == who)
      && (out.value.pkt.ok <==> b'.subs != b.subs)
      && (out.value.pkt.ok ==> (ch in b'.subs <==> pkt.Subscribe?))
  {
    var ch := ChannelOf(pkt.instr);
    assert ch in b.subs ==> b.subs - {ch} != b.subs;
  }

  function SendsOf(o: Option<Send>): seq<Send> {
    if o.None? then [] else [o.value]
  }

  class Broker {
    var sockets: set<Node>
    var subscriptions: map<Channel, Node>
    var transactions: map<Tx, Node>
    var sent: seq<Send>

    function State(): BrokerState
      reads this
    {
      BrokerState(sockets, subscriptions, transactions)
    }

    constructor ()
      ensures State() == BrokerState({}, map[], map[]) && sent == []
    {
      sockets, subscriptions, transactions, sent := {}, map[], map[], [];
    }

    method OnAccept(who: Node)
      modifies this
      ensures State() == old(State()).(sockets := old(sockets) + {who}) && sent == old(sent)
    {
      sockets := sockets + {who};
    }

    method Transmit(to: Node, pkt: Packet)
      modifies this`sent
      ensures sent == old(sent) + [Send(to, pkt)]
    {
      sent := sent + [Send(to, pkt)];
    }

    /** A recv signal of `who` with the packet found in its mailbox, if any. */
    method OnRecv(who: Node, msg: Option<Packet>)
      modifies this
      ensures if old(who in sockets) && msg.Some? then
          var (b, out) := Route(old(State()), who, msg.value);
          State() == b && sent == old(sent) + SendsOf(out)
        else State() == old(State()) && sent == old(sent)
    {
      if who !in sockets || msg.None? {
        return;
      }
      match msg.value {
        case Connect(tx) =>
          Transmit(who, Respond(tx, true));
        case Disconnect(tx) =>
          DropSubscriptions(who);
          sockets := sockets - {who};
          Transmit(who, Respond(tx, true));
        case Subscribe(tx, instr) =>
          var channel := ChannelOf(instr);
          if channel in subscriptions {
            Transmit(who, Respond(tx, false));
          } else {
            subscriptions := subscriptions[channel := who];
            Transmit(who, Respond(tx, true));
          }
        case Unsubscribe(tx, instr) =>
          var channel := ChannelOf(instr);
          if channel !in subscriptions {
            Transmit(who, Respond(tx, false));
          } else if subscriptions[channel] != who {
            Transmit(who, Respond(tx, false));
          } else {
            subscriptions := subscriptions - {channel};
            Transmit(who, Respond(tx, true));
          }
        case Execute(tx, instr, _, _) =>
          var channel := ChannelOf(instr);
          if channel !in subscriptions {
            Transmit(who, FailReply(tx, 0, "There is no channel can handle this request"));
          } else {
            transactions := transactions[tx := who];
            Transmit(subscriptions[channel], msg.value);
          }
        case Reply(tx, _, finish, _) =>
          if tx in transactions {
            Transmit(transactions[tx], msg.value);
            if finish {
              transactions := transactions - {tx};
            }
          }
        case Respond(_, _) =>
      }
    }

    /** The two loops of the disconnect branch: collect the channels of `who`, then erase them. */
    method DropSubscriptions(who: Node)
      modifies this`subscriptions
      ensures subscriptions ==
        map ch | ch in old(subscriptions) && old(subscriptions)[ch] != who :: old(subscriptions)[ch]
    {
      ghost var before := subscriptions;
      var channelsToBeDeleted: seq<Channel> := [];
      var todo := subscriptions.Keys;
      while todo != {}
        invariant todo <= before.Keys
        invariant forall ch | ch in before :: ch in channelsToBeDeleted <==> ch !in todo && before[ch] == who
        decreases todo
      {
        var ch :| ch in todo;
        todo := todo - {ch};
        if subscriptions[ch] == who {
          channelsToBeDeleted := channelsToBeDeleted + [ch];
        }
      }
      for i := 0 to |channelsToBeDeleted|
        invariant forall ch :: ch in subscriptions <==> ch in before && ch !in channelsToBeDeleted[..i]
        invariant forall ch | ch in subscriptions :: subscriptions[ch] == before[ch]
      {
        subscriptions := subscriptions - {channelsToBeDeleted[i]};
      }
    }
  }
}
