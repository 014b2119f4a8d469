/** The synchronous Python client, bindings/python/ailoy/runtime.py: a generator that pulls
    replies off the connection until the one it wants is there. */
module PythonRuntime {
  import opened Values
  import opened Packets

  type Buffered = map<Tx, map<nat, Packet>>

  /** What is buffered for tx; reading a missing key of a defaultdict gives {}. */
  function For(b: Buffered, tx: Tx): map<nat, Packet> {
    if tx in b then b[tx] else map[]
  }

  function Store(b: Buffered, p: Packet): Buffered {
    if p.Reply? then b[p.tx := For(b, p.tx)[p.index := p]] else b
  }

  function StoreAll(b: Buffered, ps: seq<Packet>): Buffered {
    if ps == [] then b else Store(StoreAll(b, ps[..|ps| - 1]), ps[|ps| - 1])
  }

  /** rs are replies to tx, the first ones or all: numbered from 0, none behind a finish. */
  ghost predicate Answer(tx: Tx, rs: seq<Packet>) {
    forall k: nat | k < |rs| ::
      && rs[k].Reply? && rs[k].tx == tx && rs[k].index == k
      && (rs[k].finish ==> k == |rs| - 1)
      && (rs[k].out.Fail? ==> rs[k].finish)
  }

  ghost predicate Complete(rs: seq<Packet>) {
    rs != [] && rs[|rs| - 1].Reply? && rs[|rs| - 1].finish
  }

  /** What is buffered for tx, or is to come, is from rs. */
  ghost predicate Agrees(b: Buffered, incoming: seq<Packet>, tx: Tx, rs: seq<Packet>) {
    && (forall k | k in For(b, tx) :: k < |rs| && For(b, tx)[k] == rs[k])
    && (forall p | p in incoming && p.Reply? && p.tx == tx :: p.index < |rs| && p == rs[p.index])
  }

  predicate IsReply(p: Packet, tx: Tx, k: nat) {
    p.Reply? && p.tx == tx && p.index == k
  }

  /** Reply k to tx is buffered or has been delivered to the connection, in whatever order. */
  ghost predicate Arriving(b: Buffered, incoming: seq<Packet>, tx: Tx, k: nat) {
    k in For(b, tx) || exists j | 0 <= j < |incoming| :: IsReply(incoming[j], tx, k)
  }

  lemma ListeningKeeps(b: Buffered, incoming: seq<Packet>, tx: Tx, k: nat)
    requires incoming != []
    ensures Arriving(Store(b, incoming[0]), incoming[1..], tx, k) <==> Arriving(b, incoming, tx, k)
  {
    var left := incoming[1..];
    forall j | 0 <= j < |left| ensures left[j] == incoming[j + 1] {}
    if Arriving(b, incoming, tx, k) && k !in For(b, tx) && !IsReply(incoming[0], tx, k) {
      var j :| 0 <= j < |incoming| && IsReply(incoming[j], tx, k);
      assert IsReply(left[j - 1], tx, k);
    }
    if Arriving(Store(b, incoming[0]), left, tx, k) && k !in For(Store(b, incoming[0]), tx) {
      var j :| 0 <= j < |left| && IsReply(left[j], tx, k);
      assert IsReply(incoming[j + 1], tx, k);
    }
  }

  lemma ListeningAgrees(b: Buffered, incoming: seq<Packet>, tx: Tx, rs: seq<Packet>)
    requires incoming != [] && Agrees(b, incoming, tx, rs)
    ensures Agrees(Store(b, incoming[0]), incoming[1..], tx, rs)
  {
    assert incoming[0] in incoming;
  }

  /** What the generator yields, and what it raises. */
  function Yields(rs: seq<Packet>): (seq<Value>, Option<string>) {
    if rs == [] || !rs[|rs| - 1].Reply? then ([], None)
    else
      var before := Yields(rs[..|rs| - 1]).0;
      match rs[|rs| - 1].out
      case Out(v) => (before + [v], None)
      case Fail(reason) => (before, Some(reason))
  }

  /** The other transactions have what they had, and what came for them meanwhile. */
  ghost predicate OthersKept(was: Buffered, came: seq<Packet>, b: Buffered, tx: Tx) {
    forall t | t != tx :: For(b, t) == For(StoreAll(was, came), t)
  }

  lemma OneMoreCame(was: Buffered, came: seq<Packet>, b: Buffered, p: Packet, tx: Tx)
    requires OthersKept(was, came, b, tx)
    ensures OthersKept(was, came + [p], Store(b, p), tx)
  {
    assert (came + [p])[..|came|] == came;
    assert StoreAll(was, came + [p]) == Store(StoreAll(was, came), p);
    forall t | t != tx ensures For(Store(b, p), t) == For(Store(StoreAll(was, came), p), t) {
      assert For(b, t) == For(StoreAll(was, came), t);
    }
  }

  lemma NextYield(rs: seq<Packet>, idx: nat, values: seq<Value>)
    requires idx < |rs| && rs[idx].Reply? && (values, None) == Yields(rs[..idx])
    ensures rs[idx].out.Out? ==> (values + [rs[idx].out.v], None) == Yields(rs[..idx + 1])
    ensures rs[idx].out.Fail? ==> (values, Some(rs[idx].out.reason)) == Yields(rs[..idx + 1])
  {
    assert rs[..idx + 1][..idx] == rs[..idx];
  }

  lemma FirstMoves<T>(a: seq<T>, b: seq<T>)
    requires b != []
    ensures a + b == (a + [b[0]]) + b[1..]
  {
  }

  function Popped(b: Buffered, tx: Tx, idx: nat): Buffered {
    b[tx := For(b, tx) - {idx}]
  }

  lemma PoppedAgrees(b: Buffered, incoming: seq<Packet>, tx: Tx, rs: seq<Packet>, idx: nat)
    requires Agrees(b, incoming, tx, rs)
    ensures Agrees(Popped(b, tx, idx), incoming, tx, rs)
    ensures forall t, k: nat | t != tx || k != idx ::
      Arriving(Popped(b, tx, idx), incoming, t, k) <==> Arriving(b, incoming, t, k)
  {
  }

  /** Each reply to tx comes once, and none of those before `from` again. */
  ghost predicate Once(b: Buffered, incoming: seq<Packet>, tx: Tx, from: nat) {
    && (forall k | k in For(b, tx) :: k >= from)
    && (forall j | 0 <= j < |incoming| && incoming[j].Reply? && incoming[j].tx == tx ::
          incoming[j].index >= from && incoming[j].index !in For(b, tx))
    && (forall i, j | 0 <= i < j < |incoming| && incoming[i].Reply? && incoming[j].Reply? &&
                      incoming[i].tx == tx == incoming[j].tx :: incoming[i].index != incoming[j].index)
  }

  lemma OnceListening(b: Buffered, incoming: seq<Packet>, tx: Tx, from: nat)
    requires incoming != [] && Once(b, incoming, tx, from)
    ensures Once(Store(b, incoming[0]), incoming[1..], tx, from)
  {
    assert forall j | 0 <= j < |incoming| - 1 :: incoming[1..][j] == incoming[j + 1];
  }

  lemma OncePopped(b: Buffered, incoming: seq<Packet>, tx: Tx, idx: nat)
    requires Once(b, incoming, tx, idx) && idx in For(b, tx)
    ensures Once(Popped(b, tx, idx), incoming, tx, idx + 1)
  {
  }

  // -------------------------------------------------------------- generators

  /** A generator of call_iter: its locals idx and finished, whether it has returned or raised,
      and what it has yielded and raised so far. */
  datatype Gen = Gen(idx: nat, finished: bool, closed: bool, yielded: seq<Value>, raised: Option<string>)

  const FRESH := Gen(0, false, false, [], None)

  datatype Resumption = Yielded(v: Value) | Raised(reason: string) | StopIteration | Blocked

  /** next() on a generator whose call is answered by rs so far. Without a further reply it is
      blocked, and stays as it is. */
  function Resume(g: Gen, rs: seq<Packet>): (Gen, Resumption) {
    if g.closed || g.finished then (g.(closed := true), StopIteration)
    else if g.idx >= |rs| || !rs[g.idx].Reply? then (g, Blocked)
    else
      match rs[g.idx].out
      case Out(v) => (g.(idx := g.idx + 1, finished := rs[g.idx].finish, yielded := g.yielded + [v]), Yielded(v))
      case Fail(reason) => (g.(closed := true, raised := Some(reason)), Raised(reason))
  }

  /** The locals of a generator that has followed rs. */
  ghost predicate FollowsAnswer(g: Gen, rs: seq<Packet>) {
    && g.idx <= |rs| && (g.finished <==> g.idx > 0 && rs[g.idx - 1].Reply? && rs[g.idx - 1].finish)
    && (g.yielded, None) == Yields(rs[..g.idx])
    && (if !g.closed || g.finished then g.raised.None?
        else g.idx < |rs| && rs[g.idx].Reply? && g.raised.Some? && rs[g.idx].out == Fail(g.raised.value))
  }

  /** The state of a generator; while it is open, everything about its call agrees with rs. */
  ghost predicate GenOk(b: Buffered, incoming: seq<Packet>, tx: Tx, g: Gen, rs: seq<Packet>) {
    Answer(tx, rs) && FollowsAnswer(g, rs) && (!g.closed ==> Agrees(b, incoming, tx, rs))
  }

  ghost predicate AllOk(b: Buffered, incoming: seq<Packet>, gens: map<Tx, Gen>, answers: map<Tx, seq<Packet>>) {
    forall tx | tx in gens :: tx in answers && GenOk(b, incoming, tx, gens[tx], answers[tx])
  }

  lemma ListeningKeepsAll(b: Buffered, incoming: seq<Packet>, gens: map<Tx, Gen>, answers: map<Tx, seq<Packet>>)
    requires AllOk(b, incoming, gens, answers) && incoming != []
    ensures AllOk(Store(b, incoming[0]), incoming[1..], gens, answers)
  {
    forall tx | tx in gens && !gens[tx].closed
      ensures Agrees(Store(b, incoming[0]), incoming[1..], tx, answers[tx])
    {
      ListeningAgrees(b, incoming, tx, answers[tx]);
    }
  }

  lemma Listened(b: Buffered, incoming: seq<Packet>, gens: map<Tx, Gen>, answers: map<Tx, seq<Packet>>,
                 tx: Tx, rs: seq<Packet>, idx: nat)
    requires AllOk(b, incoming, gens, answers) && incoming != [] && Agrees(b, incoming, tx, rs)
    ensures var b', left := Store(b, incoming[0]), incoming[1..];
      && AllOk(b', left, gens, answers) && Agrees(b', left, tx, rs)
      && (forall t, k: nat :: Arriving(b', left, t, k) <==> Arriving(b, incoming, t, k))
      && (Once(b, incoming, tx, idx) ==> Once(b', left, tx, idx))
  {
    ListeningKeepsAll(b, incoming, gens, answers);
    ListeningAgrees(b, incoming, tx, rs);
    forall t, k: nat ensures Arriving(Store(b, incoming[0]), incoming[1..], t, k) <==> Arriving(b, incoming, t, k) {
      ListeningKeeps(b, incoming, t, k);
    }
    if Once(b, incoming, tx, idx) {
      OnceListening(b, incoming, tx, idx);
    }
  }

  lemma ResumedFollows(tx: Tx, g: Gen, rs: seq<Packet>)
    requires Answer(tx, rs) && FollowsAnswer(g, rs)
    ensures FollowsAnswer(Resume(g, rs).0, rs)
  {
    if !g.closed && !g.finished && g.idx < |rs| {
      NextYield(rs, g.idx, g.yielded);
    }
  }

  /** A closed generator has had a complete answer, and given all of it. */
  lemma ClosedYieldsAll(tx: Tx, g: Gen, rs: seq<Packet>)
    requires Answer(tx, rs) && FollowsAnswer(g, rs) && g.closed
    ensures Complete(rs) && (g.yielded, g.raised) == Yields(rs)
  {
    assert rs[..|rs|] == rs;
    if !g.finished {
      NextYield(rs, g.idx, g.yielded);
    }
  }

  /** What happens to the buffer of tx concerns no other generator. */
  lemma OthersOk(b: Buffered, b': Buffered, incoming: seq<Packet>, gens: map<Tx, Gen>, answers: map<Tx, seq<Packet>>,
                 tx: Tx, g: Gen)
    requires AllOk(b, incoming, gens, answers) && tx in answers && GenOk(b', incoming, tx, g, answers[tx])
    requires forall t | t != tx :: For(b', t) == For(b, t)
    ensures AllOk(b', incoming, gens[tx := g], answers)
  {
    forall t | t in gens && t != tx ensures GenOk(b', incoming, t, gens[t], answers[t]) {
      assert GenOk(b, incoming, t, gens[t], answers[t]);
    }
  }

  lemma ResumedAllOk(b: Buffered, incoming: seq<Packet>, gens: map<Tx, Gen>, answers: map<Tx, seq<Packet>>, tx: Tx)
    requires AllOk(b, incoming, gens, answers) && tx in gens && !gens[tx].closed && !gens[tx].finished
    requires gens[tx].idx in For(b, tx)
    ensures var g, rs := gens[tx], answers[tx];
      && g.idx < |rs| && For(b, tx)[g.idx] == rs[g.idx]
      && AllOk(Popped(b, tx, g.idx), incoming, gens[tx := Resume(g, rs).0], answers)
  {
    var g, rs := gens[tx], answers[tx];
    assert GenOk(b, incoming, tx, g, rs);
    ResumedFollows(tx, g, rs);
    PoppedAgrees(b, incoming, tx, rs, g.idx);
    OthersOk(b, Popped(b, tx, g.idx), incoming, gens, answers, tx, Resume(g, rs).0);
  }

  lemma FinishedAllOk(b: Buffered, incoming: seq<Packet>, gens: map<Tx, Gen>, answers: map<Tx, seq<Packet>>, tx: Tx)
    requires AllOk(b, incoming, gens, answers) && tx in gens && gens[tx].finished
    ensures AllOk(b - {tx}, incoming, gens[tx := gens[tx].(closed := true)], answers)
  {
    OthersOk(b, b - {tx}, incoming, gens, answers, tx, gens[tx].(closed := true));
  }

  lemma Forgetting(b: Buffered, incoming: seq<Packet>, tx: Tx, idx: nat)
    ensures forall t, k: nat | t != tx :: Arriving(b - {tx}, incoming, t, k) <==> Arriving(b, incoming, t, k)
    ensures Once(b, incoming, tx, idx) ==> Once(b - {tx}, incoming, tx, idx)
  {
  }

  /** An error is the last reply, so the buffer is empty behind it. */
  lemma NothingLeft(b: Buffered, incoming: seq<Packet>, tx: Tx, g: Gen, rs: seq<Packet>)
    requires GenOk(b, incoming, tx, g, rs) && !g.closed && !g.finished && g.idx < |rs| && Once(b, incoming, tx, g.idx)
    ensures rs[g.idx].out.Fail? ==> Popped(b, tx, g.idx)[tx] == map[]
  {
  }

  /** The list comprehension of call() over one generator, after a resumption that gave r. */
  ghost predicate Calling(was: map<Tx, Gen>, gens: map<Tx, Gen>, tx: Tx, values: seq<Value>, r: Resumption) {
    && gens.Keys == was.Keys && tx in gens && (forall t | t in gens && t != tx :: gens[t] == was[t])
    && values == gens[tx].yielded
    && gens[tx].raised == (if r.Raised? then Some(r.reason) else None)
    && (gens[tx].closed <==> r.Raised? || r.StopIteration?)
  }

  /** What a resumption that gave r does to the generators. */
  ghost predicate Resumed(gens: map<Tx, Gen>, gens': map<Tx, Gen>, tx: Tx, rs: seq<Packet>, r: Resumption)
    requires tx in gens
  {
    if r.Blocked? then gens' == gens else (gens', r) == (gens[tx := Resume(gens[tx], rs).0], Resume(gens[tx], rs).1)
  }

  lemma CallingOn(was: map<Tx, Gen>, gens: map<Tx, Gen>, gens': map<Tx, Gen>, tx: Tx, rs: seq<Packet>,
                  values: seq<Value>, last: Resumption, r: Resumption)
    requires Calling(was, gens, tx, values, last) && last.Yielded? && Resumed(gens, gens', tx, rs, r)
    ensures Calling(was, gens', tx, if r.Yielded? then values + [r.v] else values, r)
    ensures r.Yielded? ==> gens'[tx].idx == gens[tx].idx + 1 <= |rs|
  {
  }

  class Client {
    var execResponses: Buffered
    /** What has been delivered to the connection and not been listened to, in order of arrival. */
    var incoming: seq<Packet>
    /** The generators of all calls, open or not. */
    var gens: map<Tx, Gen>
    /** The first replies to each call: at least those that have come so far. */
    ghost var answers: map<Tx, seq<Packet>>

    ghost predicate Valid()
      reads this
    {
      AllOk(execResponses, incoming, gens, answers)
    }

    ghost predicate Coming(tx: Tx, k: nat)
      reads this
    {
      Arriving(execResponses, incoming, tx, k)
    }

    /** A reply is delivered to the connection, at any time and in any order. `more` are the
        replies up to it that were not known before. */
    method Deliver(p: Packet, ghost more: seq<Packet>)
      requires Valid()
      requires p.Reply? && p.tx in gens ==>
        var rs := answers[p.tx] + more; Answer(p.tx, rs) && p.index < |rs| && p == rs[p.index]
      modifies this`incoming, this`answers
      ensures Valid() && incoming == old(incoming) + [p]
    {
      if p.Reply? && p.tx in gens {
        Longer(execResponses, incoming, gens, answers, p.tx, more);
        answers := answers[p.tx := answers[p.tx] + more];
      }
      incoming := incoming + [p];
    }

    /** _sync_listen(); listen() gives None when nothing comes. */
    method SyncListen()
      modifies this`execResponses, this`incoming
      ensures if old(incoming) == [] then execResponses == old(execResponses) && incoming == []
        else execResponses == Store(old(execResponses), old(incoming)[0]) && incoming == old(incoming)[1..]
    {
      if incoming == [] {
        return;
      }
      var packet := incoming[0];
      incoming := incoming[1..];
      if packet.Reply? {
        if packet.tx !in execResponses {
          execResponses := execResponses[packet.tx := map[]];
        }
        var mine: map<nat, Packet> := execResponses[packet.tx][packet.index := packet];
        execResponses := execResponses[packet.tx := mine];
      }
    }

    /** Listening until the reply with this index is here, or as long as anything comes: the
        source goes on listening then. What comes for other calls is filed; nothing is lost. */
    method Await(tx: Tx, idx: nat, ghost rs: seq<Packet>) returns (found: bool, ghost came: seq<Packet>)
      requires Valid() && Agrees(execResponses, incoming, tx, rs)
      modifies this`execResponses, this`incoming
      ensures Valid() && Agrees(execResponses, incoming, tx, rs)
      ensures found <==> idx in For(execResponses, tx)
      ensures found <==> old(Coming(tx, idx))
      ensures forall t, k: nat :: Coming(t, k) <==> old(Coming(t, k))
      ensures old(Once(execResponses, incoming, tx, idx)) ==> Once(execResponses, incoming, tx, idx)
      ensures old(incoming) == came + incoming && OthersKept(old(execResponses), came, execResponses, tx)
    {
      came := [];
      ghost var was, all := execResponses, incoming;
      ghost var once := Once(was, all, tx, idx);
      while idx !in For(execResponses, tx) && incoming != []
        invariant Valid() && Agrees(execResponses, incoming, tx, rs)
        invariant forall t, k: nat :: Arriving(execResponses, incoming, t, k) <==> Arriving(was, all, t, k)
        invariant once ==> Once(execResponses, incoming, tx, idx)
        invariant all == came + incoming && OthersKept(was, came, execResponses, tx)
        decreases |incoming|
      {
        Listened(execResponses, incoming, gens, answers, tx, rs, idx);
        OneMoreCame(was, came, execResponses, incoming[0], tx);
        FirstMoves(came, incoming);
        came := came + [incoming[0]];
        SyncListen();
      }
      found := idx in For(execResponses, tx);
      assert Arriving(execResponses, incoming, tx, idx) <==> Arriving(was, all, tx, idx);
    }

    /** call_iter() and call_iter_method(): the request goes out at once, the generator starts
        when it is first resumed. Replies may be filed by other generators in between. */
    method CallIter(tx: Tx, ghost rs: seq<Packet>)
      requires Valid() && tx !in gens && Answer(tx, rs) && Agrees(execResponses, incoming, tx, rs)
      modifies this`gens, this`answers
      ensures Valid() && gens == old(gens)[tx := FRESH] && answers == old(answers)[tx := rs]
    {
      gens := gens[tx := FRESH];
      answers := answers[tx := rs];
    }

    /** Resuming one generator, the others being anywhere. It yields the next value of its call,
        or raises its error, or stops; it is blocked exactly if the reply has not come. On
        stopping nothing of the call is left behind. No reply to another call is lost, nor any
        other reply to this one. */
    method Next(tx: Tx) returns (r: Resumption)
      requires Valid() && tx in gens
      modifies this`execResponses, this`incoming, this`gens
      ensures Valid()
      ensures r.Blocked? <==> !old(gens)[tx].closed && !old(gens)[tx].finished && !old(Coming(tx, gens[tx].idx))
      ensures r.Blocked? ==> !Coming(tx, old(gens)[tx].idx)
      ensures Resumed(old(gens), gens, tx, answers[tx], r)
      ensures r.StopIteration? && !old(gens)[tx].closed ==> tx !in execResponses
      ensures r.Raised? ==> tx in execResponses
      ensures r.Raised? && old(Once(execResponses, incoming, tx, gens[tx].idx)) ==> execResponses[tx] == map[]
      ensures old(Once(execResponses, incoming, tx, gens[tx].idx)) && !old(gens)[tx].closed ==>
        Once(execResponses, incoming, tx, gens[tx].idx)
      ensures forall t, k: nat | t != tx :: Coming(t, k) <==> old(Coming(t, k))
      ensures !r.StopIteration? ==> forall k: nat | k != old(gens)[tx].idx :: Coming(tx, k) <==> old(Coming(tx, k))
    {
      var g := gens[tx];
      if g.closed {
        gens := gens[tx := g];
        return StopIteration;
      }
      if g.finished {
        Finish(tx);
        return StopIteration;
      }
      r := NextOpen(tx);
    }

    /** Behind the loop of the generator. */
    method Finish(tx: Tx)
      requires Valid() && tx in gens && !gens[tx].closed && gens[tx].finished
      modifies this`execResponses, this`gens
      ensures Valid() && gens == old(gens)[tx := old(gens)[tx].(closed := true)]
      ensures execResponses == old(execResponses) - {tx}
      ensures forall t, k: nat | t != tx :: Coming(t, k) <==> old(Coming(t, k))
      ensures old(Once(execResponses, incoming, tx, gens[tx].idx)) ==>
        Once(execResponses, incoming, tx, gens[tx].idx)
    {
      FinishedAllOk(execResponses, incoming, gens, answers, tx);
      Forgetting(execResponses, incoming, tx, gens[tx].idx);
      execResponses := execResponses - {tx};
      gens := gens[tx := gens[tx].(closed := true)];
    }

    method NextOpen(tx: Tx) returns (r: Resumption)
      requires Valid() && tx in gens && !gens[tx].closed && !gens[tx].finished
      modifies this`execResponses, this`incoming, this`gens
      ensures Valid()
      ensures r.Blocked? <==> !old(Coming(tx, gens[tx].idx))
      ensures r.Blocked? ==> !Coming(tx, old(gens)[tx].idx)
      ensures Resumed(old(gens), gens, tx, answers[tx], r) && !r.StopIteration? && (r.Raised? ==> tx in execResponses)
      ensures r.Raised? && old(Once(execResponses, incoming, tx, gens[tx].idx)) ==> execResponses[tx] == map[]
      ensures old(Once(execResponses, incoming, tx, gens[tx].idx)) ==> Once(execResponses, incoming, tx, gens[tx].idx)
      ensures forall t, k: nat | t != tx || k != old(gens)[tx].idx :: Coming(t, k) <==> old(Coming(t, k))
    {
      var g := gens[tx];
      assert GenOk(execResponses, incoming, tx, g, answers[tx]);
      var found;
      ghost var came;
      found, came := Await(tx, g.idx, answers[tx]);
      if !found {
        return Blocked;
      }
      ghost var b := execResponses;
      PoppedAgrees(b, incoming, tx, answers[tx], g.idx);
      ResumedAllOk(b, incoming, gens, answers, tx);
      if Once(b, incoming, tx, g.idx) {
        OncePopped(b, incoming, tx, g.idx);
        NothingLeft(b, incoming, tx, g, answers[tx]);
      }
      r := TakeNext(tx);
    }

    /** The rest of the loop body, the reply being here. */
    method TakeNext(tx: Tx) returns (r: Resumption)
      requires Valid() && tx in gens && !gens[tx].closed && !gens[tx].finished
      requires gens[tx].idx in For(execResponses, tx)
      modifies this`execResponses, this`gens
      ensures Valid()
      ensures (gens, r) == (old(gens)[tx := Resume(old(gens)[tx], answers[tx]).0], Resume(old(gens)[tx], answers[tx]).1)
      ensures execResponses == Popped(old(execResponses), tx, old(gens)[tx].idx)
    {
      var g := gens[tx];
      var packet := For(execResponses, tx)[g.idx];
      ResumedAllOk(execResponses, incoming, gens, answers, tx);
      execResponses := Popped(execResponses, tx, g.idx);
      if packet.out.Fail? {
        gens := gens[tx := g.(closed := true, raised := Some(packet.out.reason))];
        r := Raised(packet.out.reason);
      } else {
        gens := gens[tx := g.(idx := g.idx + 1, finished := packet.finish, yielded := g.yielded + [packet.out.v])];
        r := Yielded(packet.out.v);
      }
    }

    /** call(): the whole generator. If it ends, the answer was complete: it gives the values in
        index order, and the error if the last reply is one. If it is blocked, the reply it waits
        for has not come, and the values so far are those of all replies before it. */
    method Call(tx: Tx) returns (values: seq<Value>, raised: Option<string>, blocked: bool)
      requires Valid() && tx in gens && gens[tx] == FRESH
      modifies this`execResponses, this`incoming, this`gens
      ensures Valid() && gens.Keys == old(gens.Keys) && forall t | t in gens && t != tx :: gens[t] == old(gens)[t]
      ensures !blocked ==> Complete(answers[tx]) && (values, raised) == Yields(answers[tx])
      ensures blocked ==> raised.None? && !gens[tx].closed && !Coming(tx, gens[tx].idx)
      ensures blocked ==> gens[tx].idx <= |answers[tx]| && (values, None) == Yields(answers[tx][..gens[tx].idx])
      ensures !blocked && raised.None? ==> tx !in execResponses
      ensures raised.Some? ==> tx in execResponses
      ensures raised.Some? && old(Once(execResponses, incoming, tx, 0)) ==> execResponses[tx] == map[]
    {
      values := [];
      ghost var rs := answers[tx];
      ghost var once := Once(execResponses, incoming, tx, 0);
      var r := Yielded(Null);
      while r.Yielded?
        invariant Valid() && Calling(old(gens), gens, tx, values, r) && (r.StopIteration? ==> tx !in execResponses)
        invariant once && !gens[tx].closed ==> Once(execResponses, incoming, tx, gens[tx].idx)
        invariant r.Raised? ==> tx in execResponses && (once ==> execResponses[tx] == map[])
        invariant r.Blocked? ==> !Coming(tx, gens[tx].idx)
        decreases r.Yielded?, |rs| - gens[tx].idx
      {
        ghost var before, last := gens, r;
        r := Next(tx);
        CallingOn(old(gens), before, gens, tx, rs, values, last, r);
        if r.Yielded? {
          values := values + [r.v];
        }
      }
      assert GenOk(execResponses, incoming, tx, gens[tx], rs);
      blocked := r.Blocked?;
      if !blocked {
        ClosedYieldsAll(tx, gens[tx], rs);
      }
      raised := if r.Raised? then Some(r.reason) else None;
    }

    /** define() and delete(): the first reply is the whole answer. It stays buffered when it is
        an error. Without it the call goes on listening. */
    method AwaitOnly(tx: Tx, ghost rs: seq<Packet>) returns (raised: Option<string>, blocked: bool)
      requires Valid() && tx !in gens && Answer(tx, rs) && |rs| == 1 && Agrees(execResponses, incoming, tx, rs)
      modifies this`execResponses, this`incoming
      ensures Valid() && (blocked <==> !old(Coming(tx, 0)))
      ensures !blocked ==> raised == Yields(rs).1
      ensures !blocked ==> if raised.None? then tx !in execResponses else For(execResponses, tx) == map[0 := rs[0]]
    {
      var found;
      ghost var came;
      found, came := Await(tx, 0, rs);
      if !found {
        return None, true;
      }
      var packet := For(execResponses, tx)[0];
      if packet.out.Fail? {
        return Some(packet.out.reason), false;
      }
      raised, blocked := None, false;
      ghost var b := execResponses;
      execResponses := execResponses - {tx};
      Forgotten(b, execResponses, incoming, gens, answers, tx);
    }
  }

  /** More replies become known. */
  lemma Longer(b: Buffered, incoming: seq<Packet>, gens: map<Tx, Gen>, answers: map<Tx, seq<Packet>>, tx: Tx,
               more: seq<Packet>)
    requires AllOk(b, incoming, gens, answers) && tx in gens && Answer(tx, answers[tx] + more)
    ensures AllOk(b, incoming, gens, answers[tx := answers[tx] + more])
  {
    var g, rs, all := gens[tx], answers[tx], answers[tx] + more;
    assert GenOk(b, incoming, tx, g, rs);
    assert all[..g.idx] == rs[..g.idx];
  }

  lemma Forgotten(b: Buffered, b': Buffered, incoming: seq<Packet>, gens: map<Tx, Gen>, answers: map<Tx, seq<Packet>>,
                  tx: Tx)
    requires AllOk(b, incoming, gens, answers) && tx !in gens && forall t | t != tx :: For(b', t) == For(b, t)
    ensures AllOk(b', incoming, gens, answers)
  {
    forall t | t in gens ensures GenOk(b', incoming, t, gens[t], answers[t]) {
      assert GenOk(b, incoming, t, gens[t], answers[t]);
    }
  }

  /** Resumed k times, with anything in between, a generator has yielded the first k values of
      its answer, or all there are, in order, each once. Behind a complete answer it is closed,
      and has yielded and raised all of it. */
  lemma {:induction false} ResumedTimes(tx: Tx, rs: seq<Packet>, k: nat)
    requires Answer(tx, rs)
    ensures var g := Times(rs, k);
      && FollowsAnswer(g, rs)
      && (!g.closed ==> g.idx == if k < |rs| then k else |rs|)
      && (g.closed ==> Complete(rs) && (g.yielded, g.raised) == Yields(rs))
      && (Complete(rs) && k > |rs| ==> g.closed)
  {
    if k > 0 {
      ResumedTimes(tx, rs, k - 1);
      ResumedFollows(tx, Times(rs, k - 1), rs);
    }
    if Times(rs, k).closed {
      ClosedYieldsAll(tx, Times(rs, k), rs);
    }
  }

  function Times(rs: seq<Packet>, k: nat): Gen {
    if k == 0 then FRESH else Resume(Times(rs, k - 1), rs).0
  }

  /** What an answer yields: the values of all replies, the last one's being an error instead if
      it is one. */
  lemma {:induction false} YieldsAll(tx: Tx, rs: seq<Packet>, n: nat)
    requires Answer(tx, rs) && rs != [] && n <= |rs|
    ensures n < |rs| || rs[|rs| - 1].out.Out? ==>
      Yields(rs[..n]).1.None? && |Yields(rs[..n]).0| == n
      && forall k: nat | k < n :: rs[k].out == Out(Yields(rs[..n]).0[k])
    ensures n == |rs| && rs[|rs| - 1].out.Fail? ==>
      Yields(rs) == (Yields(rs[..n - 1]).0, Some(rs[|rs| - 1].out.reason))
  {
    if n > 0 {
      YieldsAll(tx, rs, n - 1);
      assert rs[..n][..n - 1] == rs[..n - 1];
      assert n == |rs| ==> rs[..n] == rs;
    }
  }
}
