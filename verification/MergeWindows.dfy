/** The sliding window of `_merge_splits` (vm/src/split_text.cpp), described by index
    windows of the splits instead of a deque and a running total. */
module MergeWindows {
  import opened StringUtil
  import opened Placement

  /** The splits lo..hi, completed together. */
  datatype Group = Group(lo: nat, hi: nat)

  /** One call of `_merge_splits`. */
  datatype Merge = Merge(splits: seq<string>, sep: string, size: nat, overlap: nat) {

    function Text(): string {
      Joined(sep, splits)
    }

    function Window(lo: nat, hi: nat): string
      requires lo <= hi <= |splits|
    {
      Joined(sep, splits[lo..hi])
    }

    function Len(lo: nat, hi: nat): nat
      requires lo <= hi <= |splits|
    {
      |Window(lo, hi)|
    }

    /** The two conditions on which the pop loop stops, with splits[k..i] in the window
        and splits[i] waiting. */
    predicate Fits(k: nat, i: nat)
      requires k <= i < |splits|
    {
      && Len(k, i) <= overlap
      && (Len(k, i + 1) <= size || Len(k, i) == 0)
    }

    function FirstFit(k: nat, i: nat): (r: nat)
      requires k <= i < |splits|
      ensures k <= r <= i
      ensures Len(r, i) <= overlap && (Len(r, i + 1) <= size || Len(r, i) == 0)
      ensures forall j | k <= j < r :: Len(j, i) > overlap || (Len(j, i + 1) > size && Len(j, i) > 0)
      decreases i - k
    {
      if k == i || Fits(k, i) then k else FirstFit(k + 1, i)
    }

    /** Where the window begins once i splits are in: the window is splits[Lo(i)..i]. */
    function Lo(i: nat): (r: nat)
      requires i <= |splits|
      ensures r <= i && (i > 0 ==> r < i)
    {
      if i == 0 then 0
      else
        var lo := Lo(i - 1);
        if lo < i - 1 && Len(lo, i) > size then FirstFit(lo, i - 1) else lo
    }

    /** Whether the window is completed before splits[i] goes in. */
    predicate Cuts(i: nat)
      requires i < |splits|
    {
      Lo(i) < i && Len(Lo(i), i + 1) > size
    }

    function Groups(i: nat): seq<Group>
      requires i <= |splits|
    {
      if i == 0 then []
      else Groups(i - 1) + if Cuts(i - 1) then [Group(Lo(i - 1), i - 1)] else []
    }

    function Docs(i: nat): seq<string>
      requires i <= |splits|
    {
      if i == 0 then []
      else Docs(i - 1) + if Cuts(i - 1) then DocOf(Window(Lo(i - 1), i - 1)) else []
    }

    function AllGroups(): seq<Group> {
      Groups(|splits|) + [Group(Lo(|splits|), |splits|)]
    }

    /** The chunks of the merge. */
    function Chunks(): seq<string> {
      Docs(|splits|) + DocOf(Window(Lo(|splits|), |splits|))
    }

    // -------------------------------------------------- positions in the text

    function End(k: nat): nat
      requires k <= |splits|
    {
      |Joined(sep, splits[..k])|
    }

    function Beg(k: nat): nat
      requires k <= |splits|
    {
      if k == 0 then 0 else End(k) + |sep|
    }
  }

  /** A window is the part of the joined text between two positions. */
  lemma WindowInText(m: Merge, lo: nat, hi: nat)
    requires lo < hi <= |m.splits|
    ensures m.Beg(lo) <= m.End(hi) <= |m.Text()|
    ensures m.Text()[m.Beg(lo)..m.End(hi)] == m.Window(lo, hi)
    ensures m.Len(lo, hi) == m.End(hi) - m.Beg(lo)
  {
    var t, before := m.Text(), Joined(m.sep, m.splits[..hi]);
    if hi < |m.splits| {
      assert m.splits == m.splits[..hi] + m.splits[hi..];
      JoinedAppend(m.sep, m.splits[..hi], m.splits[hi..]);
    } else {
      assert m.splits[..hi] == m.splits;
    }
    assert t[..m.End(hi)] == before;
    if lo > 0 {
      assert m.splits[..hi] == m.splits[..lo] + m.splits[lo..hi];
      JoinedAppend(m.sep, m.splits[..lo], m.splits[lo..hi]);
    } else {
      assert m.splits[lo..hi] == m.splits[..hi];
    }
    assert before[m.Beg(lo)..] == m.Window(lo, hi);
    assert t[m.Beg(lo)..m.End(hi)] == t[..m.End(hi)][m.Beg(lo)..];
  }

  /** Dropping the first split and appending one at the end, as the loop does. */
  lemma LenStep(m: Merge, lo: nat, hi: nat)
    requires lo <= hi < |m.splits|
    ensures m.Len(lo, hi + 1) == m.Len(lo, hi) + |m.splits[hi]| + if lo < hi then |m.sep| else 0
    ensures lo < hi ==>
      m.Len(lo, hi) == m.Len(lo + 1, hi) + |m.splits[lo]| + if lo + 1 < hi then |m.sep| else 0
  {
    if lo < hi {
      assert m.splits[lo..hi + 1] == m.splits[lo..hi] + [m.splits[hi]];
      JoinedAppend(m.sep, m.splits[lo..hi], [m.splits[hi]]);
      assert m.splits[lo..hi][1..] == m.splits[lo + 1..hi];
    } else {
      assert m.splits[lo..hi + 1] == [m.splits[hi]];
    }
  }

  /** Shrinking a window from the left or growing it to the right changes its length
      the way one expects. */
  lemma {:induction false} LenMonotone(m: Merge, lo: nat, lo': nat, hi: nat, hi': nat)
    requires lo <= lo' <= hi <= hi' <= |m.splits|
    ensures m.Len(lo', hi) <= m.Len(lo, hi')
    decreases hi' - hi + lo' - lo
  {
    if hi < hi' {
      LenStep(m, lo, hi' - 1);
      LenMonotone(m, lo, lo', hi, hi' - 1);
    } else if lo < lo' {
      LenMonotone(m, lo + 1, lo', hi, hi);
      if hi < |m.splits| {
        LenStep(m, lo, hi);
      } else {
        assert m.splits[lo..hi][1..] == m.splits[lo + 1..hi];
      }
    }
  }

  lemma {:induction false} BegMonotone(m: Merge, k: nat, l: nat)
    requires k <= l <= |m.splits|
    ensures m.Beg(k) <= m.Beg(l) && m.End(k) <= m.End(l)
    decreases l - k
  {
    LenMonotone(m, 0, 0, k, l);
    assert m.splits[0..k] == m.splits[..k] && m.splits[0..l] == m.splits[..l];
  }

  // ------------------------------------------------- the shape of the groups

  /** `next` is a correct start of the window after group g, which was closed because the next
      split would have made it longer than size: what the window shares with g is no longer than
      the overlap and leaves room for that split, or is empty; and it is as long as can be, for
      every longer suffix of g is longer than the overlap or leaves no room. */
  ghost predicate Succeeds(m: Merge, g: Group, next: nat) {
    && g.lo < g.hi < |m.splits|
    && g.lo <= next <= g.hi
    && m.Len(g.lo, g.hi + 1) > m.size
    && m.Len(next, g.hi) <= m.overlap
    && (m.Len(next, g.hi + 1) <= m.size || m.Len(next, g.hi) == 0)
    && forall k | g.lo <= k < next :: m.Len(k, g.hi) > m.overlap || (m.Len(k, g.hi + 1) > m.size && m.Len(k, g.hi) > 0)
  }

  /** gs is a chain of windows that begins at split 0 and leaves no gap. */
  ghost predicate Chain(m: Merge, gs: seq<Group>) {
    && (gs != [] ==> gs[0].lo == 0)
    && (forall j | 0 <= j < |gs| - 1 :: gs[j].hi < gs[j + 1].hi && Succeeds(m, gs[j], gs[j + 1].lo))
  }

  lemma {:induction false} GroupsUpTo(m: Merge, i: nat)
    requires i <= |m.splits|
    ensures Chain(m, m.Groups(i)) && EndsAt(m, m.Groups(i), i)
  {
    if i > 0 {
      GroupsUpTo(m, i - 1);
      OneMoreGroup(m, i - 1);
    }
  }

  ghost predicate EndsAt(m: Merge, gs: seq<Group>, i: nat)
    requires i <= |m.splits|
  {
    if gs == [] then m.Lo(i) == 0 else var g := gs[|gs| - 1]; g.hi < i && Succeeds(m, g, m.Lo(i))
  }

  lemma OneMoreGroup(m: Merge, i: nat)
    requires i < |m.splits| && Chain(m, m.Groups(i)) && EndsAt(m, m.Groups(i), i)
    ensures Chain(m, m.Groups(i + 1)) && EndsAt(m, m.Groups(i + 1), i + 1)
  {
    if m.Cuts(i) {
      CutGroup(m, i);
    } else {
      NoGroup(m, i);
    }
  }

  lemma NoGroup(m: Merge, i: nat)
    requires i < |m.splits| && !m.Cuts(i)
    ensures m.Groups(i + 1) == m.Groups(i) && m.Lo(i + 1) == m.Lo(i)
  {
  }

  lemma CutGroup(m: Merge, i: nat)
    requires i < |m.splits| && m.Cuts(i) && Chain(m, m.Groups(i)) && EndsAt(m, m.Groups(i), i)
    ensures Chain(m, m.Groups(i + 1)) && EndsAt(m, m.Groups(i + 1), i + 1)
  {
    var g := Group(m.Lo(i), i);
    ExtendChain(m, m.Groups(i), g);
    CutSucceeds(m, i);
    assert m.Groups(i + 1) == m.Groups(i) + [g];
  }

  lemma CutSucceeds(m: Merge, i: nat)
    requires i < |m.splits| && m.Cuts(i)
    ensures Succeeds(m, Group(m.Lo(i), i), m.Lo(i + 1))
  {
  }

  lemma ExtendChain(m: Merge, gs: seq<Group>, g: Group)
    requires Chain(m, gs)
    requires if gs == [] then g.lo == 0 else var last := gs[|gs| - 1]; last.hi < g.hi && Succeeds(m, last, g.lo)
    ensures Chain(m, gs + [g])
  {
  }

  /** The groups `_merge_splits` completes: contiguous windows with strictly increasing
      right ends and no gap, from the first split to the last; each was closed because the
      next split would have made it too long, and shares with its successor the longest
      suffix that is no longer than the overlap and leaves room for that split (or is empty). */
  lemma GroupsAreWindows(m: Merge)
    requires m.splits != []
    ensures Chain(m, m.AllGroups())
    ensures var last := m.AllGroups()[|m.AllGroups()| - 1]; last.lo < last.hi == |m.splits|
  {
    GroupsUpTo(m, |m.splits|);
    CloseChain(m, m.Groups(|m.splits|), Group(m.Lo(|m.splits|), |m.splits|));
  }

  lemma CloseChain(m: Merge, gs: seq<Group>, g: Group)
    requires Chain(m, gs) && EndsAt(m, gs, |m.splits|) && g == Group(m.Lo(|m.splits|), |m.splits|)
    ensures Chain(m, gs + [g])
  {
    ExtendChain(m, gs, g);
  }

  ghost predicate InRange(m: Merge, gs: seq<Group>) {
    forall j | 0 <= j < |gs| :: gs[j].lo <= gs[j].hi <= |m.splits|
  }

  /** The joined splits of each group, trimmed, without those that are blank. */
  ghost function Documents(m: Merge, gs: seq<Group>): seq<string>
    requires InRange(m, gs)
  {
    if gs == [] then []
    else
      var g := gs[|gs| - 1];
      var doc := Trimmed(Joined(m.sep, m.splits[g.lo..g.hi]));
      Documents(m, gs[..|gs| - 1]) + if Blank(doc) then [] else [doc]
  }

  lemma OneMoreDocument(m: Merge, gs: seq<Group>, g: Group)
    requires InRange(m, gs) && g.lo <= g.hi <= |m.splits|
    ensures InRange(m, gs + [g]) && Documents(m, gs + [g]) == Documents(m, gs) + DocOf(m.Window(g.lo, g.hi))
  {
    assert (gs + [g])[..|gs|] == gs;
    var b, e := TrimmedIsCore(m.Window(g.lo, g.hi));
    if b < e {
      assert !Blank(m.Window(g.lo, g.hi)[b..e]);
    }
  }

  lemma {:induction false} DocsAreDocuments(m: Merge, i: nat)
    requires i <= |m.splits|
    ensures InRange(m, m.Groups(i)) && m.Docs(i) == Documents(m, m.Groups(i))
  {
    if i > 0 {
      DocsAreDocuments(m, i - 1);
      OneMoreSplit(m, i - 1);
      if m.Cuts(i - 1) {
        OneMoreDocument(m, m.Groups(i - 1), Group(m.Lo(i - 1), i - 1));
      }
    }
  }

  lemma OneMoreSplit(m: Merge, i: nat)
    requires i < |m.splits|
    ensures m.Groups(i + 1) == if m.Cuts(i) then m.Groups(i) + [Group(m.Lo(i), i)] else m.Groups(i)
    ensures m.Docs(i + 1) == if m.Cuts(i) then m.Docs(i) + DocOf(m.Window(m.Lo(i), i)) else m.Docs(i)
  {
  }

  /** The chunks are these groups, joined and trimmed, in order; only blank ones are left out. */
  lemma ChunksAreGroups(m: Merge)
    ensures InRange(m, m.AllGroups()) && m.Chunks() == Documents(m, m.AllGroups())
  {
    DocsAreDocuments(m, |m.splits|);
    OneMoreDocument(m, m.Groups(|m.splits|), Group(m.Lo(|m.splits|), |m.splits|));
  }

  /** A window longer than size is one split preceded by splits that join to nothing. */
  lemma {:induction false} WindowSize(m: Merge, i: nat)
    requires 0 < i <= |m.splits|
    ensures m.Len(m.Lo(i), i) <= m.size || m.Len(m.Lo(i), i - 1) == 0
  {
    var lo := m.Lo(i - 1);
    if lo == i - 1 {
      assert m.splits[lo..i - 1] == [];
    }
  }

  // ---------------------------------------------------------- chunk lengths

  /** What _merge_splits is stuck with at split i: the split, and the separator in front of
      it when the split before is empty. */
  function Stuck(m: Merge, i: nat): string
    requires i < |m.splits|
  {
    if i > 0 && m.splits[i - 1] == "" then m.sep + m.splits[i] else m.splits[i]
  }

  lemma TrimmedNotLonger(x: string)
    ensures |Trimmed(x)| <= |x|
  {
    var b, e := TrimmedIsCore(x);
  }

  lemma {:induction false} EmptyWindow(m: Merge, lo: nat, hi: nat)
    requires lo <= hi <= |m.splits| && m.Len(lo, hi) == 0
    ensures forall k | lo <= k < hi :: m.splits[k] == ""
    ensures hi - lo <= 1 || m.sep == ""
    decreases hi - lo
  {
    if lo < hi {
      assert m.splits[lo..hi][1..] == m.splits[lo + 1..hi];
      EmptyWindow(m, lo + 1, hi);
    }
  }

  /** A window that is too long joins to Stuck. */
  lemma LongWindowIsStuck(m: Merge, i: nat)
    requires i < |m.splits| && m.Len(m.Lo(i + 1), i + 1) > m.size
    ensures m.Window(m.Lo(i + 1), i + 1) == Stuck(m, i)
  {
    var lo := m.Lo(i + 1);
    WindowSize(m, i + 1);
    if lo < i {
      EmptyWindow(m, lo, i);
      AfterEmptyWindow(m, lo, i);
    } else {
      assert m.splits[lo..i + 1] == [m.splits[i]];
      if i > 0 && m.splits[i - 1] == "" {
        EmptyPredecessorStays(m, i);
      }
    }
  }

  lemma AfterEmptyWindow(m: Merge, lo: nat, i: nat)
    requires lo < i < |m.splits| && m.Window(lo, i) == ""
    ensures m.Window(lo, i + 1) == m.sep + m.splits[i]
  {
    assert m.splits[lo..i + 1] == m.splits[lo..i] + [m.splits[i]];
    JoinedAppend(m.sep, m.splits[lo..i], [m.splits[i]]);
  }

  /** An empty split is never popped on its own account. */
  lemma EmptyPredecessorStays(m: Merge, i: nat)
    requires 0 < i < |m.splits| && m.splits[i - 1] == ""
    ensures m.Lo(i + 1) < i
  {
    assert m.splits[i - 1..i] == [""];
    assert m.Fits(i - 1, i);
    assert m.Lo(i) < i;
  }

  /** Stuck is a window itself, and the window that ends with split i contains it. */
  lemma StuckIsWindow(m: Merge, i: nat) returns (k: nat)
    requires i < |m.splits|
    ensures m.Lo(i + 1) <= k <= i && m.Window(k, i + 1) == Stuck(m, i)
  {
    if i > 0 && m.splits[i - 1] == "" {
      k := i - 1;
      EmptyPredecessorStays(m, i);
      TwoSplits(m, k);
    } else {
      k := i;
      assert m.splits[k..i + 1] == [m.splits[i]];
    }
  }

  lemma TwoSplits(m: Merge, k: nat)
    requires k + 1 < |m.splits| && m.splits[k] == ""
    ensures m.Window(k, k + 2) == m.sep + m.splits[k + 1]
  {
    assert m.splits[k..k + 2] == [""] + [m.splits[k + 1]];
    JoinedAppend(m.sep, [""], [m.splits[k + 1]]);
    assert "" + m.sep == m.sep;
  }

  /** If Stuck is too long at i, so is the window that ends with split i. */
  lemma StuckIsLongWindow(m: Merge, i: nat)
    requires i < |m.splits| && |Stuck(m, i)| > m.size
    ensures m.Len(m.Lo(i + 1), i + 1) > m.size
  {
    var k := StuckIsWindow(m, i);
    LenMonotone(m, m.Lo(i + 1), k, i + 1, i + 1);
  }

  ghost predicate TooLong(m: Merge, i: nat)
    requires i < |m.splits|
  {
    |Trimmed(Stuck(m, i))| > m.size
  }

  ghost predicate HasLong(docs: seq<string>, size: nat) {
    exists x | x in docs :: |x| > size
  }

  /** The window that ends with split i contributes a chunk that is too long exactly when
      Stuck, trimmed, is too long at i. */
  lemma LongDoc(m: Merge, i: nat)
    requires i < |m.splits|
    ensures HasLong(DocOf(m.Window(m.Lo(i + 1), i + 1)), m.size) <==> TooLong(m, i)
    ensures TooLong(m, i) && i + 1 < |m.splits| ==> m.Cuts(i + 1)
  {
    var w := m.Window(m.Lo(i + 1), i + 1);
    TrimmedNotLonger(w);
    TrimmedNotLonger(Stuck(m, i));
    if |w| > m.size {
      LongWindowIsStuck(m, i);
      assert TooLong(m, i) ==> Trimmed(w) in DocOf(w);
      if i + 1 < |m.splits| {
        LenMonotone(m, m.Lo(i + 1), m.Lo(i + 1), i + 1, i + 2);
      }
    } else if TooLong(m, i) {
      StuckIsLongWindow(m, i);
    }
  }

  lemma HasLongAppend(a: seq<string>, b: seq<string>, size: nat)
    ensures HasLong(a + b, size) <==> HasLong(a, size) || HasLong(b, size)
  {
    if HasLong(a, size) {
      var x :| x in a && |x| > size;
      assert x in a + b;
    }
    if HasLong(b, size) {
      var x :| x in b && |x| > size;
      assert x in a + b;
    }
  }

  ghost predicate AnyTooLong(m: Merge, upto: nat)
    requires upto <= |m.splits|
  {
    exists i: nat | i < upto :: TooLong(m, i)
  }

  lemma AnyTooLongNext(m: Merge, i: nat)
    requires i < |m.splits|
    ensures AnyTooLong(m, i + 1) <==> AnyTooLong(m, i) || TooLong(m, i)
  {
  }

  lemma {:induction false} LongDocsUpTo(m: Merge, i: nat)
    requires 0 < i <= |m.splits|
    ensures HasLong(m.Docs(i), m.size) <==> AnyTooLong(m, i - 1)
  {
    if i == 1 {
      assert m.Docs(1) == [];
    } else {
      LongDocsUpTo(m, i - 1);
      LongDoc(m, i - 2);
      AnyTooLongNext(m, i - 2);
      var w := DocOf(m.Window(m.Lo(i - 1), i - 1));
      HasLongAppend(m.Docs(i - 1), w, m.size);
      assert m.Docs(i) == m.Docs(i - 1) + if m.Cuts(i - 1) then w else [];
    }
  }

  /** Exactly when a merge yields a chunk longer than size: some split, together with the
      separator if the split before it is empty, is still too long after trimming. */
  lemma ChunkTooLong(m: Merge)
    ensures HasLong(m.Chunks(), m.size) <==> AnyTooLong(m, |m.splits|)
  {
    var n := |m.splits|;
    if n == 0 {
      assert m.Chunks() == [];
    } else {
      LongDocsUpTo(m, n);
      LongDoc(m, n - 1);
      AnyTooLongNext(m, n - 1);
      LastChunk(m);
    }
  }

  lemma LastChunk(m: Merge)
    ensures var n := |m.splits|; HasLong(m.Chunks(), m.size) <==>
      HasLong(m.Docs(n), m.size) || HasLong(DocOf(m.Window(m.Lo(n), n)), m.size)
  {
    HasLongAppend(m.Docs(|m.splits|), DocOf(m.Window(m.Lo(|m.splits|), |m.splits|)), m.size);
  }
}
