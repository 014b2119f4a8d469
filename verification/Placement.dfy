/** Where the chunks of a text lie in that text. */
module Placement {
  import opened StringUtil

  datatype Span = Span(b: nat, e: nat)

  /** Every chunk is the substring of text at its span, and neither the starts
      nor the ends of the spans ever go back. */
  ghost predicate Layout(text: string, chunks: seq<string>, spans: seq<Span>) {
    && |spans| == |chunks|
    && (forall k | 0 <= k < |spans| ::
          spans[k].b <= spans[k].e <= |text| && text[spans[k].b..spans[k].e] == chunks[k])
    && (forall j, k | 0 <= j < k < |spans| :: spans[j].b <= spans[k].b && spans[j].e <= spans[k].e)
  }

  ghost predicate Covered(spans: seq<Span>, p: nat) {
    exists k | 0 <= k < |spans| :: spans[k].b <= p < spans[k].e
  }

  /** Every non-blank position of text lies in some span. */
  ghost predicate Covers(text: string, spans: seq<Span>) {
    forall p: nat | p < |text| && !IsSpace(text[p]) :: Covered(spans, p)
  }

  /** No two spans have more than ov characters in common. */
  ghost predicate OverlapAtMost(spans: seq<Span>, ov: nat) {
    forall j, k | 0 <= j < k < |spans| :: spans[j].e <= spans[k].b + ov
  }

  /** A layout that covers the text when cov holds and overlaps by at most ov. */
  ghost predicate Faithful(text: string, chunks: seq<string>, spans: seq<Span>, cov: bool, ov: nat) {
    && Layout(text, chunks, spans)
    && (cov ==> Covers(text, spans))
    && OverlapAtMost(spans, ov)
  }

  // -------------------------------------------------- side by side placement

  function Shifted(spans: seq<Span>, delta: nat): (r: seq<Span>)
    ensures |r| == |spans|
    ensures forall k | 0 <= k < |r| :: r[k] == Span(spans[k].b + delta, spans[k].e + delta)
  {
    seq(|spans|, k requires 0 <= k < |spans| => Span(spans[k].b + delta, spans[k].e + delta))
  }

  /** The layouts of text[..a] and text[c..] make one of the whole text. */
  lemma Beside(text: string, a: nat, c: nat, cs: seq<string>, ct: seq<string>,
               ps: seq<Span>, pt: seq<Span>, cov: bool, ov: nat) returns (spans: seq<Span>)
    requires a <= c <= |text|
    requires Faithful(text[..a], cs, ps, cov, ov) && Faithful(text[c..], ct, pt, cov, ov)
    requires cov ==> Blank(text[a..c])
    ensures Faithful(text, cs + ct, spans, cov, ov)
  {
    spans := ps + Shifted(pt, c);
    BesideLayout(text, a, c, cs, ct, ps, pt);
    if cov {
      BesideCovers(text, a, c, ps, pt);
    }
    BesideOverlap(text, a, c, cs, ct, ps, pt, ov);
  }

  lemma BesideLayout(text: string, a: nat, c: nat, cs: seq<string>, ct: seq<string>, ps: seq<Span>, pt: seq<Span>)
    requires a <= c <= |text|
    requires Layout(text[..a], cs, ps) && Layout(text[c..], ct, pt)
    ensures Layout(text, cs + ct, ps + Shifted(pt, c))
  {
    PrefixLayout(text, a, cs, ps);
    SuffixLayout(text, c, ct, pt);
    forall k | 0 <= k < |ps| ensures ps[k].e <= a {
      assert ps[k].e <= |text[..a]|;
    }
    ChainLayout(text, c, cs, ct, ps, Shifted(pt, c));
  }

  lemma ChainLayout(text: string, c: nat, cs: seq<string>, ct: seq<string>, ps: seq<Span>, qt: seq<Span>)
    requires Layout(text, cs, ps) && Layout(text, ct, qt)
    requires forall k | 0 <= k < |ps| :: ps[k].e <= c
    requires forall k | 0 <= k < |qt| :: c <= qt[k].b
    ensures Layout(text, cs + ct, ps + qt)
  {
  }

  lemma PrefixLayout(text: string, a: nat, cs: seq<string>, ps: seq<Span>)
    requires a <= |text| && Layout(text[..a], cs, ps)
    ensures Layout(text, cs, ps)
  {
    forall k | 0 <= k < |ps| ensures text[ps[k].b..ps[k].e] == cs[k] {
      assert text[ps[k].b..ps[k].e] == text[..a][ps[k].b..ps[k].e];
    }
  }

  lemma SuffixLayout(text: string, c: nat, ct: seq<string>, pt: seq<Span>)
    requires c <= |text| && Layout(text[c..], ct, pt)
    ensures Layout(text, ct, Shifted(pt, c))
  {
    var qt := Shifted(pt, c);
    forall k | 0 <= k < |qt| ensures qt[k].b <= qt[k].e <= |text| && text[qt[k].b..qt[k].e] == ct[k] {
      assert pt[k].e <= |text[c..]|;
      assert text[c..][pt[k].b..pt[k].e] == text[qt[k].b..qt[k].e];
    }
    forall j, k | 0 <= j < k < |qt| ensures qt[j].b <= qt[k].b && qt[j].e <= qt[k].e {
      assert pt[j].b <= pt[k].b && pt[j].e <= pt[k].e;
    }
  }

  lemma BesideCovers(text: string, a: nat, c: nat, ps: seq<Span>, pt: seq<Span>)
    requires a <= c <= |text|
    requires Covers(text[..a], ps) && Covers(text[c..], pt) && Blank(text[a..c])
    ensures Covers(text, ps + Shifted(pt, c))
  {
    var qt := Shifted(pt, c);
    forall p | a <= p < c ensures IsSpace(text[p]) {
      assert IsSpace(text[a..c][p - a]);
    }
    forall p: nat | p < |text| && !IsSpace(text[p]) ensures Covered(ps + qt, p) {
      if p < a {
        assert text[..a][p] == text[p];
        var k :| 0 <= k < |ps| && ps[k].b <= p < ps[k].e;
        assert (ps + qt)[k] == ps[k];
      } else {
        assert text[c..][p - c] == text[p];
        var k :| 0 <= k < |pt| && pt[k].b <= p - c < pt[k].e;
        assert (ps + qt)[|ps| + k] == qt[k];
      }
    }
  }

  lemma BesideOverlap(text: string, a: nat, c: nat, cs: seq<string>, ct: seq<string>, ps: seq<Span>, pt: seq<Span>,
                      ov: nat)
    requires a <= c <= |text|
    requires Layout(text[..a], cs, ps) && Layout(text[c..], ct, pt)
    requires OverlapAtMost(ps, ov) && OverlapAtMost(pt, ov)
    ensures OverlapAtMost(ps + Shifted(pt, c), ov)
  {
    var qt := Shifted(pt, c);
    forall j, k | 0 <= j < k < |qt| ensures qt[j].e <= qt[k].b + ov {
      assert pt[j].e <= pt[k].b + ov;
    }
  }

  lemma WholeText(text: string, cov: bool, ov: nat)
    ensures Faithful(text, [text], [Span(0, |text|)], cov, ov)
  {
    assert text[0..|text|] == text;
    forall p: nat | p < |text| ensures Covered([Span(0, |text|)], p) {
      assert [Span(0, |text|)][0].e == |text|;
    }
  }

  // ------------------------------------------------------ window by window

  function DocOf(x: string): seq<string> {
    if Trimmed(x) != "" then [Trimmed(x)] else []
  }

  /** State of a left-to-right placement of trimmed windows: the next window begins
      at `from`, no window so far reached beyond `upto`. */
  ghost predicate Frontier(text: string, docs: seq<string>, spans: seq<Span>,
                           from: nat, upto: nat, cov: bool, ov: nat) {
    && Layout(text, docs, spans)
    && (forall k | 0 <= k < |spans| ::
          spans[k].b < spans[k].e <= upto && !IsSpace(text[spans[k].e - 1]))
    && (forall k, p: nat | 0 <= k < |spans| && from <= p < |text| && !IsSpace(text[p]) :: spans[k].b <= p)
    && (cov ==> forall p: nat | p < from && p < |text| && !IsSpace(text[p]) :: Covered(spans, p))
    && OverlapAtMost(spans, ov)
    && (forall k | 0 <= k < |spans| :: spans[k].e <= from + ov)
  }

  /** Placing the trimmed window text[b..e] moves the frontier to any `next` that leaves
      no visible text behind (cov) and goes back into the window by at most ov. */
  lemma PlaceWindow(text: string, docs: seq<string>, spans: seq<Span>, b: nat, upto: nat, e: nat, next: nat,
                    cov: bool, ov: nat) returns (spans': seq<Span>)
    requires Frontier(text, docs, spans, b, upto, cov, ov)
    requires b <= e <= |text| && upto <= e && b <= next
    requires cov ==> forall p: nat | e <= p < next && p < |text| :: IsSpace(text[p])
    requires e <= next + ov
    ensures Frontier(text, docs + DocOf(text[b..e]), spans', next, e, cov, ov)
  {
    var d, empty := WindowCore(text, b, e);
    if empty {
      spans' := spans;
      assert docs + DocOf(text[b..e]) == docs;
      MoveFrontier(text, docs, spans, b, upto, e, next, cov, ov);
    } else {
      spans' := spans + [d];
      PlaceCore(text, docs, spans, b, upto, e, next, d, cov, ov);
    }
  }

  lemma PlaceCore(text: string, docs: seq<string>, spans: seq<Span>, b: nat, upto: nat, e: nat, next: nat,
                  d: Span, cov: bool, ov: nat)
    requires Frontier(text, docs, spans, b, upto, cov, ov)
    requires upto <= e <= next + ov && b <= next && Core(text, b, e, d)
    requires cov ==> forall p: nat | e <= p < next && p < |text| :: IsSpace(text[p])
    ensures Frontier(text, docs + [text[d.b..d.e]], spans + [d], next, e, cov, ov)
  {
    PlaceCoreOrder(text, docs, spans, b, upto, e, d, cov, ov);
    PlaceCoreLayout(text, docs, spans, d);
    PlaceCoreEnds(text, docs, spans, b, upto, e, next, d, cov, ov);
    PlaceCoreStarts(text, docs, spans, b, upto, e, next, d, cov, ov);
    PlaceCoreOverlap(spans, b, d, ov);
    if cov {
      PlaceCoreCovers(text, docs, spans, b, upto, e, next, d, ov);
    }
  }

  /** The new span ends within the window, and goes back into no later one by more than ov. */
  lemma PlaceCoreEnds(text: string, docs: seq<string>, spans: seq<Span>, b: nat, upto: nat, e: nat, next: nat,
                      d: Span, cov: bool, ov: nat)
    requires Frontier(text, docs, spans, b, upto, cov, ov)
    requires upto <= e <= next + ov && b <= next && Core(text, b, e, d)
    ensures forall k | 0 <= k < |spans + [d]| ::
      (spans + [d])[k].b < (spans + [d])[k].e <= e && !IsSpace(text[(spans + [d])[k].e - 1])
    ensures forall k | 0 <= k < |spans + [d]| :: (spans + [d])[k].e <= next + ov
  {
    forall k | 0 <= k < |spans + [d]|
      ensures (spans + [d])[k].b < (spans + [d])[k].e <= e && !IsSpace(text[(spans + [d])[k].e - 1])
      ensures (spans + [d])[k].e <= next + ov
    {
      assert (spans + [d])[k] == if k < |spans| then spans[k] else d;
    }
  }

  lemma PlaceCoreStarts(text: string, docs: seq<string>, spans: seq<Span>, b: nat, upto: nat, e: nat, next: nat,
                        d: Span, cov: bool, ov: nat)
    requires Frontier(text, docs, spans, b, upto, cov, ov) && b <= next && Core(text, b, e, d)
    ensures forall k, p: nat | 0 <= k < |spans + [d]| && next <= p < |text| && !IsSpace(text[p]) ::
      (spans + [d])[k].b <= p
  {
    forall k, p: nat | 0 <= k < |spans + [d]| && next <= p < |text| && !IsSpace(text[p])
      ensures (spans + [d])[k].b <= p
    {
      assert (spans + [d])[k] == if k < |spans| then spans[k] else d;
    }
  }

  lemma PlaceCoreOverlap(spans: seq<Span>, b: nat, d: Span, ov: nat)
    requires OverlapAtMost(spans, ov) && b <= d.b && forall k | 0 <= k < |spans| :: spans[k].e <= b + ov
    ensures OverlapAtMost(spans + [d], ov)
  {
  }

  /** A frontier moves on over blanks. */
  lemma MoveFrontier(text: string, docs: seq<string>, spans: seq<Span>, b: nat, upto: nat, e: nat, next: nat,
                     cov: bool, ov: nat)
    requires Frontier(text, docs, spans, b, upto, cov, ov)
    requires upto <= e && b <= next
    requires cov ==> forall p: nat | b <= p < next && p < |text| :: IsSpace(text[p])
    ensures Frontier(text, docs, spans, next, e, cov, ov)
  {
  }

  /** d holds the visible part of text[b..e]. */
  ghost predicate Core(text: string, b: nat, e: nat, d: Span) {
    && b <= d.b < d.e <= e <= |text|
    && !IsSpace(text[d.b]) && !IsSpace(text[d.e - 1])
    && (forall p | b <= p < d.b :: IsSpace(text[p]))
    && (forall p | d.e <= p < e :: IsSpace(text[p]))
  }

  lemma WindowCore(text: string, b: nat, e: nat) returns (d: Span, empty: bool)
    requires b <= e <= |text|
    ensures empty ==> DocOf(text[b..e]) == [] && forall p | b <= p < e :: IsSpace(text[p])
    ensures !empty ==> Core(text, b, e, d) && DocOf(text[b..e]) == [text[d.b..d.e]]
  {
    var x := text[b..e];
    var i, j := TrimmedIsCore(x);
    d, empty := Span(b + i, b + j), i == j;
    assert forall p | b <= p < e :: text[p] == x[p - b];
    assert text[d.b..d.e] == x[i..j];
  }

  /** The new span lies behind all others. */
  lemma PlaceCoreOrder(text: string, docs: seq<string>, spans: seq<Span>, b: nat, upto: nat, e: nat, d: Span,
                       cov: bool, ov: nat)
    requires Frontier(text, docs, spans, b, upto, cov, ov)
    requires upto <= e && Core(text, b, e, d)
    ensures forall k | 0 <= k < |spans| :: spans[k].b <= d.b && spans[k].e <= d.e
  {
    forall k | 0 <= k < |spans| ensures spans[k].b <= d.b && spans[k].e <= d.e {
      assert !IsSpace(text[spans[k].e - 1]);
    }
  }

  lemma PlaceCoreLayout(text: string, docs: seq<string>, spans: seq<Span>, d: Span)
    requires Layout(text, docs, spans) && d.b <= d.e <= |text|
    requires forall k | 0 <= k < |spans| :: spans[k].b <= d.b && spans[k].e <= d.e
    ensures Layout(text, docs + [text[d.b..d.e]], spans + [d])
  {
  }

  lemma PlaceCoreCovers(text: string, docs: seq<string>, spans: seq<Span>, b: nat, upto: nat, e: nat, next: nat,
                        d: Span, ov: nat)
    requires Frontier(text, docs, spans, b, upto, true, ov)
    requires Core(text, b, e, d)
    requires forall p: nat | e <= p < next && p < |text| :: IsSpace(text[p])
    ensures forall p: nat | p < next && p < |text| && !IsSpace(text[p]) :: Covered(spans + [d], p)
  {
    forall p: nat | p < next && p < |text| && !IsSpace(text[p]) ensures Covered(spans + [d], p) {
      if p < b {
        var k :| 0 <= k < |spans| && spans[k].b <= p < spans[k].e;
        assert (spans + [d])[k] == spans[k];
      } else {
        assert (spans + [d])[|spans|] == d;
      }
    }
  }

  // ------------------------------------------------------------ nothing lost

  function Visible(s: string): string {
    if s == "" then "" else (if IsSpace(s[0]) then "" else [s[0]]) + Visible(s[1..])
  }

  function Concat(chunks: seq<string>): string {
    if chunks == [] then "" else Concat(chunks[..|chunks| - 1]) + chunks[|chunks| - 1]
  }

  lemma {:induction false} VisibleAppend(s: string, t: string)
    ensures Visible(s + t) == Visible(s) + Visible(t)
  {
    if s == "" {
      assert s + t == t;
    } else {
      assert (s + t)[1..] == s[1..] + t;
      VisibleAppend(s[1..], t);
    }
  }

  lemma {:induction false} VisibleBlank(s: string)
    requires Blank(s)
    ensures Visible(s) == ""
  {
    if s != "" {
      VisibleBlank(s[1..]);
    }
  }

  /** Chunks that cover the text without overlapping carry its visible characters,
      each once and in order. */
  lemma NothingLost(text: string, chunks: seq<string>, spans: seq<Span>)
    requires Faithful(text, chunks, spans, true, 0)
    ensures Visible(Concat(chunks)) == Visible(text)
  {
    VisibleUpTo(text, chunks, spans, |chunks|, |text|);
    assert chunks[..|chunks|] == chunks && text[..|text|] == text;
  }

  lemma {:induction false} VisibleUpTo(text: string, chunks: seq<string>, spans: seq<Span>, k: nat, to: nat)
    requires Faithful(text, chunks, spans, true, 0)
    requires k <= |chunks| && to <= |text|
    requires forall j | 0 <= j < k :: spans[j].e <= to
    requires forall j | k <= j < |chunks| :: to <= spans[j].b
    ensures Visible(Concat(chunks[..k])) == Visible(text[..to])
  {
    if k == 0 {
      BlankBetween(text, chunks, spans, k, 0, to);
      assert text[0..to] == text[..to];
    } else {
      var b, e := spans[k - 1].b, spans[k - 1].e;
      SpansBefore(text, chunks, spans, k - 1);
      BlankBetween(text, chunks, spans, k, e, to);
      VisibleUpTo(text, chunks, spans, k - 1, b);
      OneMoreSpan(text, chunks, k, b, e, to);
    }
  }

  lemma SpansBefore(text: string, chunks: seq<string>, spans: seq<Span>, k: nat)
    requires Faithful(text, chunks, spans, true, 0) && k < |chunks|
    ensures |spans| == |chunks| && spans[k].b <= spans[k].e <= |text| && chunks[k] == text[spans[k].b..spans[k].e]
    ensures forall j | 0 <= j < k :: spans[j].e <= spans[k].b && spans[j].e <= spans[k].e
    ensures forall j | k <= j < |chunks| :: spans[k].b <= spans[j].b
  {
  }

  lemma OneMoreSpan(text: string, chunks: seq<string>, k: nat, b: nat, e: nat, to: nat)
    requires 0 < k <= |chunks| && b <= e <= to <= |text| && chunks[k - 1] == text[b..e]
    requires Visible(Concat(chunks[..k - 1])) == Visible(text[..b]) && Visible(text[e..to]) == ""
    ensures Visible(Concat(chunks[..k])) == Visible(text[..to])
  {
    OneMoreChunk(chunks, k);
    Stretch(text, b, e);
    Stretch(text, e, to);
  }

  lemma OneMoreChunk(chunks: seq<string>, k: nat)
    requires 0 < k <= |chunks|
    ensures Visible(Concat(chunks[..k])) == Visible(Concat(chunks[..k - 1])) + Visible(chunks[k - 1])
  {
    assert chunks[..k][..k - 1] == chunks[..k - 1];
    VisibleAppend(Concat(chunks[..k - 1]), chunks[k - 1]);
  }

  lemma Stretch(text: string, b: nat, e: nat)
    requires b <= e <= |text|
    ensures Visible(text[..e]) == Visible(text[..b]) + Visible(text[b..e])
  {
    VisibleAppend(text[..b], text[b..e]);
    assert text[..b] + text[b..e] == text[..e];
  }

  lemma BlankBetween(text: string, chunks: seq<string>, spans: seq<Span>, k: nat, b: nat, to: nat)
    requires Faithful(text, chunks, spans, true, 0)
    requires k <= |chunks| && b <= to <= |text|
    requires forall j | 0 <= j < k :: spans[j].e <= b
    requires forall j | k <= j < |chunks| :: to <= spans[j].b
    ensures Visible(text[b..to]) == ""
  {
    var tail := text[b..to];
    forall p: nat | p < |tail| ensures IsSpace(tail[p]) {
      assert text[b + p] == tail[p];
      var c := Covered(spans, b + p);
    }
    VisibleBlank(tail);
  }
}
