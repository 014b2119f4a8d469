/** The token-mode machine of vm/src/mlc_llm/mlc_llm_engine.cpp: tool calls and reasoning are
    cut out of a stream of decoded tokens, one token at a time. */
module StreamModes {
  import opened Packets
  import opened StringUtil

  datatype Finish = Stop | Length | ToolCalls | Error

  /** What the engine decodes in one step, with the finish reason it may give. */
  datatype Token = Token(content: string, finish: Option<Finish>)

  datatype Mode = Text | ToolCall | Reasoning

  /** A choice that is sent on; `reasoning` is the flag of the message made from it. */
  datatype Delta = Delta(content: Option<string>, finish: Option<Finish>, reasoning: bool)

  const THINK := "<think>"
  const END_THINK := "</think>"

  /** The markers of a chat template, and what the JSON library accepts. */
  datatype Template = Template(botc: string, eotc: string, accepts: string -> bool) {

    predicate Begins(t: Token) {
      t.content == botc
    }

    /** The begin marker is tested first. */
    predicate Ends(t: Token) {
      t.content != botc && t.content == eotc
    }

    predicate Plain(t: Token) {
      !Begins(t) && !Ends(t)
    }
  }

  datatype State = State(mode: Mode, buffer: seq<string>)

  const START := State(Text, [])

  function JsonIfValid(m: Template, tokens: seq<string>): Option<string> {
    var s := Trimmed(Joined("", tokens));
    if m.accepts(s) then Some(s) else None
  }

  /** A choice without content is sent on for its finish reason only. */
  function Silent(t: Token): seq<Delta> {
    if t.finish.Some? then [Delta(None, t.finish, false)] else []
  }

  function Closing(m: Template, block: seq<string>, t: Token): seq<Delta> {
    match JsonIfValid(m, block)
    case Some(s) => [Delta(Some(s), Some(ToolCalls), false)]
    case None => Silent(t)
  }

  /** One token: the next state and what is sent on. */
  function Step(m: Template, st: State, t: Token): (State, seq<Delta>) {
    if m.Begins(t) then (st.(mode := ToolCall), Silent(t))
    else if m.Ends(t) then (START, Closing(m, st.buffer, t))
    else if st.mode == ToolCall then (st.(buffer := st.buffer + [t.content]), Silent(t))
    else if t.content == "" then (st, Silent(t))
    else if t.content == THINK then (st.(mode := Reasoning), Silent(t))
    else if t.content == END_THINK then (st.(mode := Text), Silent(t))
    else (st, [Delta(Some(t.content), t.finish, st.mode == Reasoning && t.finish.None?)])
  }

  class Engine {
    var mode: Mode
    var toolCallTokens: seq<string>

    function Now(): State
      reads this
    {
      State(mode, toolCallTokens)
    }

    constructor ()
      ensures Now() == START
    {
      mode, toolCallTokens := Text, [];
    }

    method GetJsonStrIfValid(m: Template) returns (rv: Option<string>)
      ensures rv == JsonIfValid(m, toolCallTokens)
      ensures forall b: nat, e: nat :: CoreOf(Joined("", toolCallTokens), b, e) ==>
        var x := Joined("", toolCallTokens)[b..e]; rv == if m.accepts(x) then Some(x) else None
    {
      var s := Join("", toolCallTokens);
      forall b: nat, e: nat | CoreOf(s, b, e) ensures Trimmed(s) == s[b..e] {
        TrimmedUnique(s, b, e);
      }
      s := Trim(s);
      rv := if m.accepts(s) then Some(s) else None;
    }

    method Feed(m: Template, t: Token) returns (sent: seq<Delta>)
      modifies this
      ensures (Now(), sent) == Step(m, old(Now()), t)
    {
      var content: Option<string>, finish, isContent := None, t.finish, false;
      if m.Begins(t) {
        mode := ToolCall;
      } else if m.Ends(t) {
        var json := GetJsonStrIfValid(m);
        if json.Some? {
          content, finish := json, Some(ToolCalls);
        }
        mode := Text;
        toolCallTokens := [];
      } else if mode == ToolCall {
        toolCallTokens := toolCallTokens + [t.content];
      } else if t.content != "" {
        if t.content == THINK {
          mode := Reasoning;
        } else if t.content == END_THINK {
          mode := Text;
        } else {
          content, isContent := Some(t.content), true;
        }
      }
      if content.Some? || finish.Some? {
        sent := [Delta(content, finish, isContent && finish.None? && mode == Reasoning)];
      } else {
        sent := [];
      }
    }

    method FeedAll(m: Template, ts: seq<Token>) returns (sent: seq<Delta>)
      modifies this
      ensures (Now(), sent) == Stream(m, old(Now()), ts)
    {
      sent := [];
      assert ts[..|ts|] == ts;
      for i := 0 to |ts|
        invariant (Now(), sent) == Stream(m, old(Now()), ts[..i])
      {
        var more := Feed(m, ts[i]);
        assert ts[..i + 1][..i] == ts[..i];
        sent := sent + more;
      }
    }
  }

  function Stream(m: Template, st: State, ts: seq<Token>): (State, seq<Delta>) {
    if ts == [] then (st, [])
    else
      var n := |ts| - 1;
      var before := Stream(m, st, ts[..n]);
      var last := Step(m, before.0, ts[n]);
      (last.0, before.1 + last.1)
  }

  /** Outside tool-call mode the token buffer is empty, whatever has been streamed. */
  lemma {:induction false} BufferOnlyInToolCall(m: Template, ts: seq<Token>)
    ensures Stream(m, START, ts).0.mode != ToolCall ==> Stream(m, START, ts).0.buffer == []
  {
    if ts != [] {
      BufferOnlyInToolCall(m, ts[..|ts| - 1]);
    }
  }

  /** It does not matter in how many pieces the tokens come. */
  lemma {:induction false} StreamAppend(m: Template, st: State, a: seq<Token>, b: seq<Token>)
    ensures var x := Stream(m, st, a); var y := Stream(m, x.0, b);
      Stream(m, st, a + b) == (y.0, x.1 + y.1)
  {
    if b == [] {
      assert a + b == a && Stream(m, st, a).1 + [] == Stream(m, st, a).1;
    } else {
      var n := |b| - 1;
      StreamAppend(m, st, a, b[..n]);
      assert a + b == (a + b[..n]) + [b[n]];
      OneMoreToken(m, st, a + b[..n], b[n]);
      var x := Stream(m, st, a);
      var y := Stream(m, x.0, b[..n]);
      Regroup(x.1, y.1, Step(m, y.0, b[n]).1);
    }
  }

  lemma OneMoreToken(m: Template, st: State, a: seq<Token>, t: Token)
    ensures var x := Stream(m, st, a); var y := Step(m, x.0, t);
      Stream(m, st, a + [t]) == (y.0, x.1 + y.1)
  {
    assert (a + [t])[..|a|] == a;
  }

  lemma OneToken(m: Template, st: State, t: Token)
    ensures Stream(m, st, [t]) == Step(m, st, t)
  {
    OneMoreToken(m, st, [], t);
    assert [] + [t] == [t] && [] + Step(m, st, t).1 == Step(m, st, t).1;
  }

  lemma Regroup<T>(a: seq<T>, b: seq<T>, c: seq<T>)
    ensures (a + b) + c == a + (b + c)
  {
  }

  // --------------------------------------------------- offline segmentation

  /** Where the first begin marker is, or the length. */
  function FirstBegin(m: Template, ts: seq<Token>): (r: nat)
    ensures r <= |ts| && (r < |ts| ==> m.Begins(ts[r]))
  {
    if ts == [] || m.Begins(ts[0]) then 0 else 1 + FirstBegin(m, ts[1..])
  }

  function FirstEnd(m: Template, ts: seq<Token>): (r: nat)
    ensures r <= |ts| && (r < |ts| ==> m.Ends(ts[r]))
  {
    if ts == [] || m.Ends(ts[0]) then 0 else 1 + FirstEnd(m, ts[1..])
  }

  lemma {:induction false} NothingBefore(m: Template, ts: seq<Token>)
    ensures forall k | 0 <= k < FirstBegin(m, ts) :: !m.Begins(ts[k])
    ensures forall k | 0 <= k < FirstEnd(m, ts) :: !m.Ends(ts[k])
  {
    if ts != [] {
      NothingBefore(m, ts[1..]);
    }
  }

  /** The position behind the last think tag that is a token of its own decides whether a
      plain token is reasoning. */
  function ReasoningAfter(ts: seq<Token>, before: bool): bool {
    if ts == [] then before
    else
      var last := ts[|ts| - 1].content;
      if last == THINK then true else if last == END_THINK then false
      else ReasoningAfter(ts[..|ts| - 1], before)
  }

  function PlainDelta(t: Token, reasoning: bool): seq<Delta> {
    if t.content == "" || t.content == THINK || t.content == END_THINK then Silent(t)
    else [Delta(Some(t.content), t.finish, reasoning && t.finish.None?)]
  }

  /** Tokens outside any tool call: all of them in order, but for empty ones and think tags. */
  function PlainDeltas(ts: seq<Token>, reasoning: bool): seq<Delta> {
    if ts == [] then []
    else
      var n := |ts| - 1;
      PlainDeltas(ts[..n], reasoning) + PlainDelta(ts[n], ReasoningAfter(ts[..n], reasoning))
  }

  function Silents(ts: seq<Token>): seq<Delta> {
    if ts == [] then [] else Silents(ts[..|ts| - 1]) + Silent(ts[|ts| - 1])
  }

  /** The contents of a block; begin markers inside do not count. */
  function BlockOf(m: Template, ts: seq<Token>): seq<string> {
    if ts == [] then []
    else
      var n := |ts| - 1;
      BlockOf(m, ts[..n]) + if m.Begins(ts[n]) then [] else [ts[n].content]
  }

  /** A piece without end marker is plain up to its first begin marker and a tool call from
      there on. */
  function PieceDeltas(m: Template, ts: seq<Token>): seq<Delta> {
    var b := FirstBegin(m, ts);
    PlainDeltas(ts[..b], false) + Silents(ts[b..])
  }

  function PieceBlock(m: Template, ts: seq<Token>): seq<string> {
    BlockOf(m, ts[FirstBegin(m, ts)..])
  }

  /** The whole token list, cut at its end markers. */
  function Offline(m: Template, ts: seq<Token>): seq<Delta>
    decreases |ts|
  {
    var e := FirstEnd(m, ts);
    PieceDeltas(m, ts[..e]) +
    if e == |ts| then [] else Closing(m, PieceBlock(m, ts[..e]), ts[e]) + Offline(m, ts[e + 1..])
  }

  lemma {:induction false} StreamPlain(m: Template, mode: Mode, ts: seq<Token>)
    requires mode != ToolCall && forall k | 0 <= k < |ts| :: m.Plain(ts[k])
    ensures var r := ReasoningAfter(ts, mode == Reasoning);
      Stream(m, State(mode, []), ts) == (State(if r then Reasoning else Text, []), PlainDeltas(ts, mode == Reasoning))
  {
    if ts != [] {
      var n := |ts| - 1;
      StreamPlain(m, mode, ts[..n]);
      assert m.Plain(ts[n]);
    }
  }

  lemma {:induction false} StreamBlock(m: Template, buffer: seq<string>, ts: seq<Token>)
    requires forall k | 0 <= k < |ts| :: !m.Ends(ts[k])
    ensures Stream(m, State(ToolCall, buffer), ts) == (State(ToolCall, buffer + BlockOf(m, ts)), Silents(ts))
  {
    if ts == [] {
      assert buffer + BlockOf(m, ts) == buffer;
    } else {
      var n := |ts| - 1;
      StreamBlock(m, buffer, ts[..n]);
      assert !m.Ends(ts[n]);
      Regroup(buffer, BlockOf(m, ts[..n]), if m.Begins(ts[n]) then [] else [ts[n].content]);
      assert m.Begins(ts[n]) ==> buffer + BlockOf(m, ts) == buffer + BlockOf(m, ts[..n]);
    }
  }

  lemma StreamPiece(m: Template, ts: seq<Token>)
    requires forall k | 0 <= k < |ts| :: !m.Ends(ts[k])
    ensures Stream(m, START, ts).1 == PieceDeltas(m, ts)
    ensures Stream(m, START, ts).0.buffer == PieceBlock(m, ts)
  {
    var b := FirstBegin(m, ts);
    NothingBefore(m, ts);
    assert ts == ts[..b] + ts[b..];
    StreamTwoParts(m, ts[..b], ts[b..]);
  }

  lemma StreamTwoParts(m: Template, plain: seq<Token>, block: seq<Token>)
    requires forall k | 0 <= k < |plain| :: m.Plain(plain[k])
    requires block != [] ==> m.Begins(block[0])
    requires forall k | 0 <= k < |block| :: !m.Ends(block[k])
    ensures Stream(m, START, plain + block).1 == PlainDeltas(plain, false) + Silents(block)
    ensures Stream(m, START, plain + block).0.buffer == BlockOf(m, block)
  {
    StreamPlain(m, Text, plain);
    StreamAppend(m, START, plain, block);
    if block != [] {
      StreamOpens(m, Stream(m, START, plain).0.mode, block);
    }
  }

  lemma StreamOpens(m: Template, mode: Mode, ts: seq<Token>)
    requires ts != [] && m.Begins(ts[0]) && forall k | 0 <= k < |ts| :: !m.Ends(ts[k])
    ensures Stream(m, State(mode, []), ts) == (State(ToolCall, BlockOf(m, ts)), Silents(ts))
  {
    assert ts == [ts[0]] + ts[1..];
    StreamAppend(m, State(mode, []), [ts[0]], ts[1..]);
    StreamAppend(m, State(ToolCall, []), [ts[0]], ts[1..]);
    OneToken(m, State(mode, []), ts[0]);
    OneToken(m, State(ToolCall, []), ts[0]);
    StreamBlock(m, [], ts);
    assert [] + BlockOf(m, ts) == BlockOf(m, ts);
  }

  /** The streaming machine sends exactly what segmenting the whole token list gives, for all
      markers, all token lists and all finish reasons. */
  lemma {:induction false} StreamIsOffline(m: Template, ts: seq<Token>)
    ensures Stream(m, START, ts).1 == Offline(m, ts)
    decreases |ts|
  {
    NothingBefore(m, ts);
    var e := FirstEnd(m, ts);
    if e == |ts| {
      StreamPiece(m, ts);
      OfflineLast(m, ts);
    } else {
      StreamIsOffline(m, ts[e + 1..]);
      OfflineCut(m, ts[..e], ts[e], ts[e + 1..]);
      ThreeParts(ts, e);
    }
  }

  lemma ThreeParts<T>(s: seq<T>, e: nat)
    requires e < |s|
    ensures s[..e] + [s[e]] + s[e + 1..] == s
  {
  }

  /** Both sides are cut in the same way at the first end marker. */
  lemma OfflineCut(m: Template, piece: seq<Token>, end: Token, rest: seq<Token>)
    requires m.Ends(end) && forall k | 0 <= k < |piece| :: !m.Ends(piece[k])
    requires Stream(m, START, rest).1 == Offline(m, rest)
    ensures Stream(m, START, piece + [end] + rest).1 == Offline(m, piece + [end] + rest)
  {
    var closing := Closing(m, PieceBlock(m, piece), end);
    StreamPiece(m, piece);
    StreamClosed(m, piece, end, rest);
    OfflineClosed(m, piece, end, rest);
    Regroup(PieceDeltas(m, piece), closing, Offline(m, rest));
  }

  lemma OfflineClosed(m: Template, piece: seq<Token>, end: Token, rest: seq<Token>)
    requires m.Ends(end) && forall k | 0 <= k < |piece| :: !m.Ends(piece[k])
    ensures Offline(m, piece + [end] + rest)
         == PieceDeltas(m, piece) + (Closing(m, PieceBlock(m, piece), end) + Offline(m, rest))
  {
    var ts := piece + [end] + rest;
    EndsAfter(m, piece, end, rest);
    assert ts[..|piece|] == piece && ts[|piece| + 1..] == rest;
  }

  lemma {:induction false} EndsAfter(m: Template, piece: seq<Token>, end: Token, rest: seq<Token>)
    requires m.Ends(end) && forall k | 0 <= k < |piece| :: !m.Ends(piece[k])
    ensures FirstEnd(m, piece + [end] + rest) == |piece|
  {
    if piece != [] {
      assert (piece + [end] + rest)[1..] == piece[1..] + [end] + rest;
      EndsAfter(m, piece[1..], end, rest);
    }
  }

  lemma OfflineLast(m: Template, ts: seq<Token>)
    requires FirstEnd(m, ts) == |ts|
    ensures Offline(m, ts) == PieceDeltas(m, ts)
  {
    assert ts[..|ts|] == ts;
    assert PieceDeltas(m, ts) + [] == PieceDeltas(m, ts);
  }

  lemma StreamEnd(m: Template, ts: seq<Token>, e: nat)
    requires e < |ts| && m.Ends(ts[e])
    ensures var before := Stream(m, START, ts[..e]);
      Stream(m, START, ts).1
      == before.1 + (Closing(m, before.0.buffer, ts[e]) + Stream(m, START, ts[e + 1..]).1)
  {
    assert ts == ts[..e + 1] + ts[e + 1..] && ts[..e + 1][..e] == ts[..e];
    StreamAppend(m, START, ts[..e + 1], ts[e + 1..]);
    Regroup(Stream(m, START, ts[..e]).1, Closing(m, Stream(m, START, ts[..e]).0.buffer, ts[e]),
            Stream(m, START, ts[e + 1..]).1);
  }

  // ------------------------------------------------------------ consequences

  /** One bracketed block among plain tokens. x is what is left of its contents, put together,
      once the outer blanks are gone. At the end marker one choice is sent: x as a tool call if
      that is JSON, else the end token's finish reason, if any. Before it come the plain tokens
      and the finish reasons of the block, after it whatever is sent from the start. */
  lemma OneBlock(m: Template, before: seq<Token>, begin: Token, block: seq<Token>, end: Token, after: seq<Token>,
                 x: string, b: nat, e: nat)
    requires begin.content == m.botc && end.content == m.eotc && m.botc != m.eotc
    requires forall t | t in before || t in block :: t.content != m.botc && t.content != m.eotc
    requires CoreOf(Joined("", Contents(block)), b, e) && x == Joined("", Contents(block))[b..e]
    ensures var sent :=
        if m.accepts(x) then [Delta(Some(x), Some(ToolCalls), false)]
        else if end.finish.Some? then [Delta(None, end.finish, false)] else [];
      Stream(m, START, before + [begin] + block + [end] + after).1
      == PlainDeltas(before, false) + Silents([begin] + block) + sent + Stream(m, START, after).1
  {
    var piece := before + ([begin] + block);
    assert before + [begin] + block + [end] + after == piece + [end] + after;
    PieceWithBlock(m, before, begin, block);
    StreamPiece(m, piece);
    StreamClosed(m, piece, end, after);
    TrimmedUnique(Joined("", Contents(block)), b, e);
  }

  lemma StreamClosed(m: Template, piece: seq<Token>, end: Token, after: seq<Token>)
    requires m.Ends(end)
    ensures var before := Stream(m, START, piece);
      Stream(m, START, piece + [end] + after).1
      == before.1 + Closing(m, before.0.buffer, end) + Stream(m, START, after).1
  {
    var ts := piece + [end] + after;
    assert ts[..|piece|] == piece && ts[|piece| + 1..] == after;
    StreamEnd(m, ts, |piece|);
  }

  lemma PieceWithBlock(m: Template, before: seq<Token>, begin: Token, block: seq<Token>)
    requires m.Begins(begin) && forall t | t in before || t in block :: m.Plain(t)
    ensures var piece := before + ([begin] + block);
      && (forall k | 0 <= k < |piece| :: !m.Ends(piece[k]))
      && PieceDeltas(m, piece) == PlainDeltas(before, false) + Silents([begin] + block)
      && PieceBlock(m, piece) == Contents(block)
  {
    var piece := before + ([begin] + block);
    forall k | 0 <= k < |piece| ensures !m.Ends(piece[k]) {
      assert piece[k] == begin || piece[k] in before || piece[k] in block;
    }
    BeginsAt(m, before, [begin] + block);
    BlockContents(m, begin, block);
    assert piece[..|before|] == before && piece[|before|..] == [begin] + block;
  }

  function Contents(ts: seq<Token>): seq<string> {
    seq(|ts|, i requires 0 <= i < |ts| => ts[i].content)
  }

  lemma {:induction false} BeginsAt(m: Template, before: seq<Token>, rest: seq<Token>)
    requires rest != [] && m.Begins(rest[0]) && forall t | t in before :: m.Plain(t)
    ensures FirstBegin(m, before + rest) == |before|
  {
    if before == [] {
      assert before + rest == rest;
    } else {
      assert before[0] in before;
      assert (before + rest)[1..] == before[1..] + rest;
      BeginsAt(m, before[1..], rest);
    }
  }

  lemma {:induction false} BlockContents(m: Template, begin: Token, block: seq<Token>)
    requires m.Begins(begin) && forall t | t in block :: m.Plain(t)
    ensures BlockOf(m, [begin] + block) == Contents(block)
  {
    var all := [begin] + block;
    if block == [] {
      assert all[..0] == [];
    } else {
      var n := |block| - 1;
      assert block[n] in block;
      BlockContents(m, begin, block[..n]);
      assert all[..|all| - 1] == [begin] + block[..n];
      assert Contents(block) == Contents(block[..n]) + [block[n].content];
    }
  }

  // ------------------------------------------------------- finish reasons

  function FinishOf(f: Option<Finish>): seq<Finish> {
    if f.Some? then [f.value] else []
  }

  /** The finish reasons the engine gave, and those that were sent on, in order. */
  function Given(ts: seq<Token>): seq<Finish> {
    if ts == [] then [] else Given(ts[..|ts| - 1]) + FinishOf(ts[|ts| - 1].finish)
  }

  function SentOn(ds: seq<Delta>): seq<Finish> {
    if ds == [] then [] else SentOn(ds[..|ds| - 1]) + FinishOf(ds[|ds| - 1].finish)
  }

  lemma SentOnAppend(a: seq<Delta>, b: seq<Delta>)
    requires |b| <= 1
    ensures SentOn(a + b) == SentOn(a) + SentOn(b)
  {
    if b == [] {
      assert a + b == a;
    } else {
      assert (a + b)[..|a + b| - 1] == a && b[..0] == [];
    }
  }

  lemma OneFinish(m: Template, st: State, t: Token)
    requires t.content == m.botc || t.content != m.eotc
    ensures var sent := Step(m, st, t).1; |sent| <= 1 && SentOn(sent) == FinishOf(t.finish)
  {
    var sent := Step(m, st, t).1;
    if sent != [] {
      assert sent[..0] == [];
    }
  }

  /** Every finish reason is sent on, once and in order, as long as no block is closed: a closed
      block may say tool_calls instead. */
  lemma {:induction false} FinishesAreSent(m: Template, st: State, ts: seq<Token>)
    requires forall t | t in ts :: t.content == m.botc || t.content != m.eotc
    ensures SentOn(Stream(m, st, ts).1) == Given(ts)
  {
    if ts != [] {
      var n := |ts| - 1;
      assert ts[n] in ts;
      FinishesAreSent(m, st, ts[..n]);
      var before := Stream(m, st, ts[..n]);
      OneFinish(m, before.0, ts[n]);
      SentOnAppend(before.1, Step(m, before.0, ts[n]).1);
    }
  }

  // ------------------------------------------------------------- reasoning

  /** Neither a marker nor a think tag nor empty. */
  predicate Ordinary(m: Template, t: Token) {
    t.content !in {m.botc, m.eotc, "<think>", "</think>", ""}
  }

  /** One choice for each token. */
  function Said(ts: seq<Token>, reasoning: bool): seq<Delta> {
    seq(|ts|, i requires 0 <= i < |ts| => Delta(Some(ts[i].content), ts[i].finish, reasoning && ts[i].finish.None?))
  }

  lemma {:induction false} StreamOrdinary(m: Template, mode: Mode, ts: seq<Token>)
    requires mode != ToolCall && forall t | t in ts :: Ordinary(m, t)
    ensures Stream(m, State(mode, []), ts) == (State(mode, []), Said(ts, mode == Reasoning))
  {
    if ts != [] {
      var n := |ts| - 1;
      assert Ordinary(m, ts[n]);
      StreamOrdinary(m, mode, ts[..n]);
      assert Said(ts, mode == Reasoning) == Said(ts[..n], mode == Reasoning) +
        [Delta(Some(ts[n].content), ts[n].finish, mode == Reasoning && ts[n].finish.None?)];
    }
  }

  /** What stands between the two think tags is sent as reasoning, unless it carries a finish
      reason; the tags are not sent; everything else is sent as it is. */
  lemma OneThought(m: Template, before: seq<Token>, open: Token, thought: seq<Token>, close: Token, after: seq<Token>)
    requires open == Token("<think>", None) && close == Token("</think>", None)
    requires forall t | t in [open, close] :: t.content !in {m.botc, m.eotc}
    requires forall t | t in before || t in thought || t in after :: Ordinary(m, t)
    ensures Stream(m, START, before + [open] + thought + [close] + after)
         == (START, Said(before, false) + Said(thought, true) + Said(after, false))
  {
    assert open in [open, close] && close in [open, close];
    StreamOrdinary(m, Text, before);
    TagFollows(m, before, open);
    OrdinaryFollow(m, Reasoning, before + [open], thought);
    TagFollows(m, before + [open] + thought, close);
    OrdinaryFollow(m, Text, before + [open] + thought + [close], after);
  }

  lemma TagFollows(m: Template, ts: seq<Token>, tag: Token)
    requires tag.content in {"<think>", "</think>"} && tag.finish.None? && tag.content !in {m.botc, m.eotc}
    requires Stream(m, START, ts).0.mode != ToolCall && Stream(m, START, ts).0.buffer == []
    ensures Stream(m, START, ts + [tag])
         == (State(if tag.content == "<think>" then Reasoning else Text, []), Stream(m, START, ts).1)
  {
    OneMoreToken(m, START, ts, tag);
    assert Stream(m, START, ts).1 + [] == Stream(m, START, ts).1;
    assert |"<think>"| != |"</think>"|;
  }

  lemma OrdinaryFollow(m: Template, mode: Mode, ts: seq<Token>, more: seq<Token>)
    requires mode != ToolCall && Stream(m, START, ts).0 == State(mode, []) && forall t | t in more :: Ordinary(m, t)
    ensures Stream(m, START, ts + more) == (State(mode, []), Stream(m, START, ts).1 + Said(more, mode == Reasoning))
  {
    StreamOrdinary(m, mode, more);
    StreamAppend(m, START, ts, more);
  }

  /** A template without markers leaves both empty. Then the first empty token opens a tool
      call that nothing ends: of everything behind it only finish reasons are sent on. */
  lemma EmptyMarkers(m: Template, ts: seq<Token>)
    requires m.botc == "" && m.eotc == ""
    ensures var b := FirstBegin(m, ts);
      && Stream(m, START, ts).1 == PlainDeltas(ts[..b], false) + Silents(ts[b..])
      && forall d | d in Silents(ts[b..]) :: d.content.None?
  {
    StreamPiece(m, ts);
    SilentsSaySo(ts[FirstBegin(m, ts)..]);
  }

  lemma {:induction false} SilentsSaySo(ts: seq<Token>)
    ensures forall d | d in Silents(ts) :: d.content.None?
  {
    if ts != [] {
      SilentsSaySo(ts[..|ts| - 1]);
    }
  }
}
