/** The Python client inside the whole system. */
module PythonTheorems {
  import opened Packets
  import opened VmModel
  import opened SystemModel
  import opened OperatorTracking
  import opened ClientTracking
  import opened ProtocolTheorems
  import Py = PythonRuntime

  // A client takes the same packets from its mailbox whichever language it is written in. What
  // the methods of PythonRuntime.Client ask of `incoming` holds of what any client has taken in
  // any reachable state, with the replies sent so far as the answer to each call.

  /** Replies to tx that carry the numbers from `base` on come in the order of these numbers. */
  lemma {:induction false} NumberedOnce(q: seq<Packet>, tx: Tx, base: nat)
    requires forall k: nat | k < |Replies(q, tx)| :: Replies(q, tx)[k].Reply? && Replies(q, tx)[k].index == base + k
    ensures forall j | 0 <= j < |q| && q[j].Reply? && q[j].tx == tx :: q[j].index >= base
    ensures forall i, j | 0 <= i < j < |q| && q[i].Reply? && q[j].Reply? && q[i].tx == tx == q[j].tx ::
      q[i].index != q[j].index
  {
    if q != [] {
      var here := q[0].Reply? && q[0].tx == tx;
      var rs, rest := Replies(q, tx), Replies(q[1..], tx);
      assert here ==> rs[0] == q[0];
      forall k: nat | k < |rest| ensures rest[k] == rs[if here then k + 1 else k] {}
      NumberedOnce(q[1..], tx, if here then base + 1 else base);
      assert forall j | 0 < j < |q| :: q[j] == q[1..][j - 1];
    }
  }

  lemma {:induction false} RepliesAreIn(q: seq<Packet>, tx: Tx, k: nat) returns (j: nat)
    requires k < |Replies(q, tx)|
    ensures j < |q| && q[j] == Replies(q, tx)[k] && q[j].Reply? && q[j].tx == tx
  {
    var here := q[0].Reply? && q[0].tx == tx;
    if here && k == 0 {
      j := 0;
    } else {
      j := RepliesAreIn(q[1..], tx, if here then k - 1 else k);
      j := j + 1;
    }
  }

  /** What a client has taken agrees with what was sent for its call, each reply once; and a
      reply has come exactly if it is among those taken. */
  lemma PythonSees(s: Sys, tx: Tx)
    requires Reachable(s) && tx in s.calls
    ensures var c := s.calls[tx]; var q := Q(s.recvd, c.origin);
      && Py.Answer(tx, c.outs) && Py.Agrees(map[], q, tx, c.outs) && Py.Once(map[], q, tx, 0)
      && Replies(q, tx) <= c.outs
      && forall k: nat :: Py.Arriving(map[], q, tx, k) <==> k < |Replies(q, tx)|
  {
    Holding(s);
    CallFacts(s, tx);
    var c := s.calls[tx];
    var q := Q(s.recvd, c.origin);
    SentInOrder(s, tx, c.origin);
    NumberedOnce(q, tx, 0);
    TakenAgrees(q, tx, c.outs);
    TakenArrives(q, tx);
  }

  lemma TakenAgrees(q: seq<Packet>, tx: Tx, outs: seq<Packet>)
    requires Replies(q, tx) <= outs && InOrder(Replies(q, tx))
    ensures Py.Agrees(map[], q, tx, outs)
  {
    forall p | p in q && p.Reply? && p.tx == tx ensures p.index < |outs| && p == outs[p.index] {
      HasReply(q, tx, p);
      var k :| 0 <= k < |Replies(q, tx)| && Replies(q, tx)[k] == p;
    }
  }

  lemma TakenArrives(q: seq<Packet>, tx: Tx)
    requires InOrder(Replies(q, tx))
    ensures forall k: nat :: Py.Arriving(map[], q, tx, k) <==> k < |Replies(q, tx)|
  {
    forall k: nat ensures Py.Arriving(map[], q, tx, k) <==> k < |Replies(q, tx)| {
      if k < |Replies(q, tx)| {
        var j := RepliesAreIn(q, tx, k);
        assert Py.IsReply(q[j], tx, k);
      }
      if Py.Arriving(map[], q, tx, k) {
        var j :| 0 <= j < |q| && Py.IsReply(q[j], tx, k);
        HasReply(q, tx, q[j]);
        var i :| 0 <= i < |Replies(q, tx)| && Replies(q, tx)[i] == q[j];
      }
    }
  }

  lemma {:induction false} YieldsOfSteps(tx: Tx, outs: seq<Packet>, steps: seq<StepResult>, n: nat)
    requires RepliesAreSteps(tx, outs, steps) && n <= |outs|
    requires forall i: nat | i < |steps| - 1 :: steps[i].OkOutput?
    ensures Py.Yields(outs[..n]) == (ValuesOf(steps[..n]), FailureOf(steps[..n]))
  {
    if n > 0 {
      var rs, done := outs[..n], steps[..n];
      YieldsOfSteps(tx, outs, steps, n - 1);
      NoFailure(steps, n - 1);
      assert rs[..n - 1] == outs[..n - 1] && done[..n - 1] == steps[..n - 1];
      assert rs[n - 1] == ReplyOf(tx, n - 1, done[n - 1]) && done[n - 1] == steps[n - 1];
      assert Py.Yields(rs).0 == ValuesOf(done);
      assert Py.Yields(rs).1 == FailureOf(done);
    }
  }

  lemma {:induction false} NoFailure(steps: seq<StepResult>, n: nat)
    requires n < |steps| && (forall i: nat | i < |steps| - 1 :: steps[i].OkOutput?)
    ensures FailureOf(steps[..n]).None?
  {
    if n > 0 {
      NoFailure(steps, n - 1);
      assert steps[..n][..n - 1] == steps[..n - 1];
    }
  }

  /** A call that reached its operator: what the Python generator gives for its first n replies are
      the values of the operator's first n steps in order, and its error if it is among them. When
      nothing is on the way and the VM is idle, the answer of a call that was not dropped is
      complete and has come, so the generator is not blocked any more. */
  lemma PythonEndToEnd(s: Sys, tx: Tx, n: nat)
    requires Reachable(s) && tx in s.calls && s.calls[tx].start.Some? && n <= |s.calls[tx].outs|
    ensures var c := s.calls[tx];
      && n <= |c.steps| && LegalRun(c.start.value, c.steps)
      && Py.Yields(c.outs[..n]) == (ValuesOf(c.steps[..n]), FailureOf(c.steps[..n]))
    ensures s.calls[tx].phase.Done? ==> Py.Complete(s.calls[tx].outs)
    ensures Idle(s.vm) && (forall m: Node :: Q(s.up, m) == [] && Q(s.down, m) == []) && !s.calls[tx].phase.Dropped? ==>
      Py.Complete(s.calls[tx].outs) && Replies(Q(s.recvd, s.calls[tx].origin), tx) == s.calls[tx].outs
  {
    Holding(s);
    CallFacts(s, tx);
    var c := s.calls[tx];
    YieldsOfSteps(tx, c.outs, c.steps, n);
    if Idle(s.vm) && (forall m: Node :: Q(s.up, m) == [] && Q(s.down, m) == []) {
      Quiescent(s, tx);
    }
  }
}
