/** Where the chunks of one merge lie in the joined text. */
module MergePlacement {
  import opened StringUtil
  import opened Placement
  import opened MergeWindows

  /** The separator follows every split but the last. */
  lemma SeparatorAfter(m: Merge, i: nat)
    requires 0 < i < |m.splits|
    ensures m.Beg(i) <= |m.Text()| && m.Text()[m.End(i)..m.Beg(i)] == m.sep
  {
    assert m.splits == m.splits[..i] + m.splits[i..];
    JoinedAppend(m.sep, m.splits[..i], m.splits[i..]);
  }

  lemma GapIsBlank(m: Merge, i: nat, next: nat)
    requires 0 < i < |m.splits| && next <= i && Blank(m.sep)
    ensures forall p: nat | m.End(i) <= p < m.Beg(next) && p < |m.Text()| :: IsSpace(m.Text()[p])
  {
    SeparatorAfter(m, i);
    BegMonotone(m, next, i);
    forall p: nat | m.End(i) <= p < m.Beg(next) ensures IsSpace(m.Text()[p]) {
      assert m.Text()[m.End(i)..m.Beg(i)][p - m.End(i)] == m.Text()[p];
    }
  }

  lemma SharedLength(m: Merge, next: nat, i: nat)
    requires next <= i < |m.splits| && 0 < i && m.Len(next, i) <= m.overlap
    ensures m.End(i) <= m.Beg(next) + m.overlap
  {
    if next < i {
      WindowInText(m, next, i);
    }
  }

  lemma {:induction false} PlaceDocs(m: Merge, i: nat) returns (spans: seq<Span>)
    requires i <= |m.splits|
    ensures Placed(m, i, spans)
  {
    if i == 0 {
      spans := [];
    } else {
      spans := PlaceDocs(m, i - 1);
      if m.Cuts(i - 1) {
        spans := PlaceCut(m, i - 1, spans);
      } else {
        PlaceOn(m, i - 1, spans);
      }
    }
  }

  /** The chunks completed before split i are placed, and the window goes on from there. */
  ghost predicate Placed(m: Merge, i: nat, spans: seq<Span>)
    requires i <= |m.splits|
  {
    Frontier(m.Text(), m.Docs(i), spans, m.Beg(m.Lo(i)), m.End(i), Blank(m.sep), m.overlap)
  }

  /** A split that goes into the window without a cut. */
  lemma PlaceOn(m: Merge, i: nat, spans: seq<Span>)
    requires i < |m.splits| && !m.Cuts(i) && Placed(m, i, spans)
    ensures Placed(m, i + 1, spans)
  {
    BegMonotone(m, i, i + 1);
    NoGroup(m, i);
    NoDoc(m, i);
    RaiseFrontier(m.Text(), m.Docs(i), spans, m.Beg(m.Lo(i)), m.End(i), m.End(i + 1), Blank(m.sep), m.overlap);
  }

  lemma NoDoc(m: Merge, i: nat)
    requires i < |m.splits| && !m.Cuts(i)
    ensures m.Docs(i + 1) == m.Docs(i)
  {
  }

  lemma RaiseFrontier(text: string, docs: seq<string>, spans: seq<Span>, from: nat, upto: nat, upto': nat,
                      cov: bool, ov: nat)
    requires Frontier(text, docs, spans, from, upto, cov, ov) && upto <= upto'
    ensures Frontier(text, docs, spans, from, upto', cov, ov)
  {
  }

  lemma PlaceCut(m: Merge, i: nat, spans: seq<Span>) returns (spans': seq<Span>)
    requires i < |m.splits| && m.Cuts(i) && Placed(m, i, spans)
    ensures Placed(m, i + 1, spans')
  {
    var b, e, next := m.Beg(m.Lo(i)), m.End(i), m.Beg(m.Lo(i + 1));
    CutDoc(m, i);
    CutMoves(m, i);
    spans' := PlaceWindow(m.Text(), m.Docs(i), spans, b, e, e, next, Blank(m.sep), m.overlap);
    RaiseFrontier(m.Text(), m.Docs(i + 1), spans', next, e, m.End(i + 1), Blank(m.sep), m.overlap);
  }

  /** The document a cut completes, in the joined text. */
  lemma CutDoc(m: Merge, i: nat)
    requires i < |m.splits| && m.Cuts(i)
    ensures m.Beg(m.Lo(i)) <= m.End(i) <= |m.Text()|
    ensures m.Docs(i + 1) == m.Docs(i) + DocOf(m.Text()[m.Beg(m.Lo(i))..m.End(i)])
  {
    WindowInText(m, m.Lo(i), i);
  }

  /** Where the next window begins: with nothing visible in between, and not too far back. */
  lemma CutMoves(m: Merge, i: nat)
    requires i < |m.splits| && m.Cuts(i)
    ensures m.Beg(m.Lo(i)) <= m.Beg(m.Lo(i + 1)) && m.End(i) <= m.Beg(m.Lo(i + 1)) + m.overlap
    ensures m.End(i) <= m.End(i + 1)
    ensures Blank(m.sep) ==>
      forall p: nat | m.End(i) <= p < m.Beg(m.Lo(i + 1)) && p < |m.Text()| :: IsSpace(m.Text()[p])
  {
    var next := m.Lo(i + 1);
    BegMonotone(m, m.Lo(i), next);
    BegMonotone(m, i, i + 1);
    SharedLength(m, next, i);
    if Blank(m.sep) {
      GapIsBlank(m, i, next);
    }
  }

  /** The chunks of a merge are substrings of the joined text, in order; they cover its
      visible characters when the separator is blank and share at most `overlap` characters. */
  lemma MergeIsFaithful(m: Merge) returns (spans: seq<Span>)
    ensures Faithful(m.Text(), m.Chunks(), spans, Blank(m.sep), m.overlap)
  {
    var n := |m.splits|;
    spans := PlaceDocs(m, n);
    var lo, e := m.Lo(n), m.End(n);
    assert m.splits[..n] == m.splits;
    assert e == |m.Text()|;
    if n > 0 {
      WindowInText(m, lo, n);
    }
    spans := PlaceWindow(m.Text(), m.Docs(n), spans, m.Beg(lo), e, e, e, Blank(m.sep), m.overlap);
    assert m.Chunks() == m.Docs(n) + DocOf(m.Window(lo, n));
  }
}
