/** When chunks respect chunk_size, and exactly which separators break it. */
module SizeBound {
  import opened StringUtil
  import opened Placement
  import opened MergeWindows
  import opened SplitText
  import opened SplitTheorems

  ghost predicate AllWithin(chunks: seq<string>, size: nat) {
    forall x | x in chunks :: |x| <= size
  }

  /** A separator that adds at most one character to what follows it in a chunk. With
      chunk_size 1 nothing can follow it. */
  predicate Slim(sep: string, size: nat) {
    if size == 1 then |Trimmed(sep)| <= 1 else |LTrimmed(sep)| <= 1
  }

  /** A separator is never reached when an earlier one occurs in it: a text in which it occurs
      is split by the earlier one first. The empty string occurs in every separator. */
  predicate Reached(separators: seq<string>, i: nat)
    requires i < |separators|
  {
    forall j: nat | j < i :: !Contains(separators[i], separators[j])
  }

  ghost predicate Bounded(separators: seq<string>, size: nat) {
    && "" in separators
    && forall i: nat | i < |separators| && Reached(separators, i) :: Slim(separators[i], size)
  }

  lemma TrimmedSum(x: string, y: string)
    ensures |Trimmed(x + y)| <= |LTrimmed(x)| + |y|
  {
    var b, e := TrimmedIsCore(x + y);
    var c := LTrimmedDrops(x);
    if c < |x| {
      assert (x + y)[c] == x[c];
    }
    if b < c {
      assert (x + y)[b] == x[b];
    }
  }

  /** Splits that are all shorter than size merge into chunks that are no longer than size
      when the separator is slim. */
  lemma SlimMerge(m: Merge)
    requires forall s | s in m.splits :: |s| < m.size
    requires Slim(m.sep, m.size)
    ensures AllWithin(m.Chunks(), m.size)
  {
    forall i: nat | i < |m.splits| ensures !TooLong(m, i) {
      assert m.splits[i] in m.splits;
      if m.size == 1 {
        assert m.splits[i] == "" && m.sep + "" == m.sep;
        assert Trimmed("") == "";
      } else {
        TrimmedSum(m.sep, m.splits[i]);
        TrimmedNotLonger(m.splits[i]);
      }
    }
    ChunkTooLong(m);
  }

  lemma {:induction false} CharsAreSingle(s: string)
    ensures forall x | x in Chars(s) :: |x| == 1
  {
    if s != "" {
      CharsAreSingle(s[1..]);
    }
  }

  // -------------------------------------------------- what a level hands down

  /** s contains none of the separators before k. */
  ghost predicate Clean(s: string, all: seq<string>, k: nat)
    requires k <= |all|
  {
    forall j: nat | j < k :: !Contains(s, all[j])
  }

  lemma PartContains(s: string, x: string, y: string, at: nat)
    requires OccursAt(s, x, at) && Contains(x, y)
    ensures Contains(s, y)
  {
    var i: nat :| i <= |x| && OccursAt(x, y, i);
    var part := s[at + i..at + i + |y|];
    forall k | 0 <= k < |y| ensures part[k] == y[k] {
      assert part[k] == s[at..at + |x|][i + k] && y[k] == x[i..i + |y|][k];
    }
    assert OccursAt(s, y, at + i);
  }

  /** The pieces of a clean text are clean, and hold no separator themselves. */
  lemma {:induction false} PiecesAreClean(s: string, d: string, all: seq<string>, k: nat)
    requires d != "" && k <= |all| && Clean(s, all, k)
    ensures forall x | x in Pieces(s, d) :: Clean(x, all, k)
    decreases |s|
  {
    var i := Search(s, d);
    if i < |s| {
      PartIsClean(s, 0, i, all, k);
      PartIsClean(s, i + |d|, |s|, all, k);
      assert s[0..i] == s[..i] && s[i + |d|..|s|] == s[i + |d|..];
      PiecesAreClean(s[i + |d|..], d, all, k);
    }
  }

  lemma PartIsClean(s: string, a: nat, b: nat, all: seq<string>, k: nat)
    requires a <= b <= |s| && k <= |all| && Clean(s, all, k)
    ensures Clean(s[a..b], all, k)
  {
    forall j: nat | j < k ensures !Contains(s[a..b], all[j]) {
      if Contains(s[a..b], all[j]) {
        PartContains(s, s[a..b], all[j], a);
      }
    }
  }

  /** Which separator a clean text is split by: one that is reached. */
  lemma {:induction false} FirstFound(text: string, all: seq<string>, i: nat) returns (at: nat)
    requires i < |all| && "" in all[i..] && Clean(text, all, i)
    ensures i <= at < |all| && Clean(text, all, at) && (all[at] == "" || Contains(text, all[at]))
    ensures all[at] != "" ==> "" in all[at + 1..]
    decreases |all| - i
  {
    assert all[i..][1..] == all[i + 1..];
    if all[i] == "" || Contains(text, all[i]) {
      at := i;
    } else {
      at := FirstFound(text, all, i + 1);
    }
  }

  lemma FoundIsReached(text: string, all: seq<string>, at: nat)
    requires at < |all| && Clean(text, all, at) && (all[at] == "" || Contains(text, all[at]))
    ensures Reached(all, at)
  {
    forall j: nat | j < at ensures !Contains(all[at], all[j]) {
      if Contains(all[at], all[j]) {
        FoundIn(text, all[at], all[j]);
      }
    }
  }

  lemma FoundIn(text: string, x: string, y: string)
    requires (x == "" || Contains(text, x)) && Contains(x, y)
    ensures Contains(text, y)
  {
    if x == "" {
      assert OccursAt(text, y, 0);
    } else {
      var i: nat :| i <= |text| && OccursAt(text, x, i);
      PartContains(text, x, y, i);
    }
  }

  /** One level: its own separator is slim, and so are the later ones that are reached. */
  ghost predicate Within(l: Level, all: seq<string>, k: nat) {
    && l.size >= 1 && Slim(l.sep, l.size) && Bounded(all, l.size) && k <= |all|
    && (if l.sep == "" then l.rest == [] else l.rest == all[k..] && "" in all[k..])
  }

  /** With the empty separator on the list, no chunk is longer than chunk_size when every
      separator that can be reached is slim. */
  lemma RecursiveWithin(text: string, size: nat, overlap: nat, separators: seq<string>)
    requires size >= 1 && Bounded(separators, size)
    ensures AllWithin(Recursive(text, size, overlap, separators), size)
  {
    assert separators[0..] == separators;
    LevelWithin(text, size, overlap, separators, 0);
  }

  lemma {:induction false} LevelWithin(text: string, size: nat, overlap: nat, all: seq<string>, k: nat)
    requires size >= 1 && Bounded(all, size) && k < |all| && "" in all[k..] && Clean(text, all, k)
    ensures AllWithin(Recursive(text, size, overlap, all[k..]), size)
    decreases 2 * (|all| - k), 0
  {
    var at := FirstFound(text, all, k);
    FoundIsReached(text, all, at);
    FoundIsPicked(text, all, k, at, size, overlap);
    PickedWithin(text, size, overlap, all, at);
  }

  lemma {:induction false} PickedWithin(text: string, size: nat, overlap: nat, all: seq<string>, at: nat)
    requires size >= 1 && Bounded(all, size) && at < |all| && Reached(all, at) && Clean(text, all, at)
    requires all[at] != "" ==> "" in all[at + 1..]
    ensures var rest := if all[at] == "" then [] else all[at + 1..];
      AllWithin(Gather(Splits(text, all[at]), [], Level(all[at], rest, size, overlap)), size)
    decreases 2 * (|all| - at) - 1, 1
  {
    assert Slim(all[at], size);
    if all[at] == "" {
      CharsAreSingle(text);
      GatherWithin(Splits(text, ""), [], Level("", [], size, overlap), all, at);
    } else {
      SplitsAreClean(text, all, at);
      GatherWithin(Splits(text, all[at]), [], Level(all[at], all[at + 1..], size, overlap), all, at + 1);
    }
  }

  lemma FoundIsPicked(text: string, all: seq<string>, k: nat, at: nat, size: nat, overlap: nat)
    requires k <= at < |all| && Clean(text, all, at) && (all[at] == "" || Contains(text, all[at]))
    ensures var rest := if all[at] == "" then [] else all[at + 1..];
      Recursive(text, size, overlap, all[k..]) == Gather(Splits(text, all[at]), [], Level(all[at], rest, size, overlap))
  {
    PicksAt(text, all[k..], 0, at - k);
    assert all[k..][at - k + 1..] == all[at + 1..];
  }

  lemma SplitsAreClean(text: string, all: seq<string>, at: nat)
    requires at < |all| && all[at] != "" && Clean(text, all, at)
    ensures forall x | x in Splits(text, all[at]) :: Clean(x, all, at + 1)
  {
    PiecesAreClean(text, all[at], all, at);
    SplitsAreFree(text, all[at]);
  }

  lemma {:induction false} GatherWithin(splits: seq<string>, good: seq<string>, l: Level, all: seq<string>, k: nat)
    requires Within(l, all, k)
    requires if l.sep == "" then forall x | x in splits :: |x| == 1 else forall x | x in splits :: Clean(x, all, k)
    requires forall s | s in good :: |s| < l.size
    ensures AllWithin(Gather(splits, good, l), l.size)
    decreases if l.sep == "" then 0 else 2 * (|all| - k) + 1, 0, |splits|
  {
    SlimMerge(Merge(good, l.sep, l.size, l.overlap));
    if splits == [] {
    } else if |splits[0]| < l.size {
      GatherWithin(splits[1..], good + [splits[0]], l, all, k);
    } else {
      assert splits[0] in splits;
      GatherWithin(splits[1..], [], l, all, k);
      if l.sep != "" {
        LevelWithin(splits[0], l.size, l.overlap, all, k);
      }
    }
  }

  /** The defaults of split_text are bounded and blank: chunks are short and complete. */
  lemma DefaultsAreSafe(text: string, size: nat, overlap: nat) returns (spans: seq<Span>)
    requires size >= 1
    ensures AllWithin(Recursive(text, size, overlap, ["\n\n", "\n", " ", ""]), size)
    ensures Faithful(text, Recursive(text, size, overlap, ["\n\n", "\n", " ", ""]), spans, true, overlap)
  {
    var separators := ["\n\n", "\n", " ", ""];
    forall sep | sep in separators ensures Blank(sep) && Slim(sep, size) {
      BlankIsSlim(sep, size);
    }
    assert separators[3] == "";
    RecursiveWithin(text, size, overlap, separators);
    spans := RecursiveSplitIsFaithful(text, size, overlap, separators);
  }

  lemma BlankIsSlim(sep: string, size: nat)
    requires Blank(sep)
    ensures Slim(sep, size)
  {
    var b := LTrimmedDrops(sep);
    var x, y := TrimmedIsCore(sep);
  }

  // ------------------------------------------ separators that break the bound

  function Fill(c: char, n: nat): (r: string)
    ensures |r| == n && forall i | 0 <= i < n :: r[i] == c
  {
    seq(n, _ => c)
  }

  /** A separator that holds no c is not found in what c is appended to, unless it was. */
  lemma NotInFilled(s: string, c: char, n: nat, d: string)
    requires c !in d && !Contains(s, d)
    ensures !Contains(s + Fill(c, n), d)
  {
    assert OccursAt(s, "", 0);
    var x := s + Fill(c, n);
    forall i: nat | i <= |x| ensures !OccursAt(x, d, i) {
      if i + |d| <= |s| {
        assert x[i..i + |d|] == s[i..i + |d|];
        assert !OccursAt(s, d, i);
      } else if i + |d| <= |x| {
        assert x[i..i + |d|][|d| - 1] == c;
      }
    }
  }

  /** Nothing before k is found, and k is. */
  lemma {:induction false} PicksAt(text: string, separators: seq<string>, i: nat, k: nat)
    requires i <= k < |separators| && Clean(text, separators, k)
    requires separators[k] == "" || Contains(text, separators[k])
    ensures BestFrom(text, separators, i) == (separators[k], if separators[k] == "" then [] else separators[k + 1..])
    decreases k - i
  {
    if i < k {
      assert OccursAt(text, "", 0);
      assert !Contains(text, separators[i]);
      PicksAt(text, separators, i + 1, k);
    }
  }

  /** With size 2 or more, the separator followed by size - 1 further characters makes one
      chunk that is too long. */
  lemma LongChunk(sep: string, c: char, rest: seq<string>, size: nat, overlap: nat)
    requires |LTrimmed(sep)| >= 2 && size >= 2 && !IsSpace(c) && sep[0] != c
    ensures !AllWithin(Gather(Splits(sep + Fill(c, size - 1), sep), [], Level(sep, rest, size, overlap)), size)
  {
    var fill := Fill(c, size - 1);
    ExampleSplits(sep, fill, c);
    var splits, m, l := ["", fill], Merge(["", fill], sep, size, overlap), Level(sep, rest, size, overlap);
    assert splits[1..] == [fill] && [fill][1..] == [];
    assert [] + [""] + [fill] == splits;
    assert Gather(splits, [], l) == Gather([fill], [""], l) == Gather([], splits, l) == m.Chunks();
    ExampleTooLong(sep, fill);
    assert Stuck(m, 1) == sep + fill && TooLong(m, 1);
    ChunkTooLong(m);
  }

  /** With size 1, the separator alone does. */
  lemma LongChunkOfOne(sep: string, rest: seq<string>, overlap: nat)
    requires |Trimmed(sep)| >= 2
    ensures !AllWithin(Gather(Splits(sep, sep), [], Level(sep, rest, 1, overlap)), 1)
  {
    var splits, m, l := ["", ""], Merge(["", ""], sep, 1, overlap), Level(sep, rest, 1, overlap);
    assert Trimmed("") == "";
    TwoEmpties(sep);
    assert splits[1..] == [""] && [""][1..] == [] && [] + [""] + [""] == splits;
    assert Gather(splits, [], l) == Gather([""], [""], l) == Gather([], splits, l) == m.Chunks();
    assert sep + "" == sep;
    assert Stuck(m, 1) == sep && TooLong(m, 1);
    ChunkTooLong(m);
  }

  lemma TwoEmpties(sep: string)
    requires sep != ""
    ensures Splits(sep, sep) == ["", ""]
  {
    var xs := ["", ""];
    assert xs[1..] == [""];
    assert "" + sep == sep && "" + sep + "" == sep;
    assert OccursAt(sep, sep, 0);
    assert Search("" + sep, sep) == 0;
    forall i: nat | i <= 0 ensures !OccursAt("", sep, i) {}
    assert Separable([""], sep);
    assert Joined(sep, xs) == "" + sep + Joined(sep, [""]) == sep;
    SplitsOfJoined(xs, sep);
  }

  lemma ExampleSplits(sep: string, fill: string, c: char)
    requires sep != "" && sep[0] != c && forall i | 0 <= i < |fill| :: fill[i] == c
    ensures Splits(sep + fill, sep) == ["", fill]
  {
    forall i: nat | i + |sep| <= |fill| ensures !OccursAt(fill, sep, i) {
      assert fill[i..i + |sep|][0] == fill[i];
    }
    var xs := ["", fill];
    assert xs[1..] == [fill];
    assert "" + sep == sep;
    assert OccursAt(sep, sep, 0);
    assert Search("" + sep, sep) == 0;
    assert Separable([fill], sep);
    assert Joined(sep, xs) == "" + sep + Joined(sep, [fill]) == sep + fill;
    SplitsOfJoined(xs, sep);
  }

  lemma ExampleTooLong(sep: string, fill: string)
    requires fill != "" && LTrimmed(sep) != "" && !IsSpace(fill[|fill| - 1])
    ensures |Trimmed(sep + fill)| == |LTrimmed(sep)| + |fill|
  {
    var b := LTrimmedDrops(sep);
    var x := sep + fill;
    assert forall i | 0 <= i < |sep| :: x[i] == sep[i];
    TrimmedUnique(x, b, |x|);
  }

  /** A separator that is reached and not slim breaks the bound. */
  lemma NotSlimBreaks(separators: seq<string>, k: nat, size: nat, overlap: nat, c: char) returns (text: string)
    requires size >= 1 && k < |separators| && Reached(separators, k) && !Slim(separators[k], size)
    requires !IsSpace(c) && forall sep | sep in separators :: c !in sep
    ensures !AllWithin(Recursive(text, size, overlap, separators), size)
  {
    var sep := separators[k];
    text := sep + Fill(c, size - 1);
    NotSlimIsVisible(sep, size);
    PicksFilled(separators, k, c, size - 1);
    RecursiveFrom(text, size, overlap, separators, sep, separators[k + 1..]);
    assert sep in separators && sep[0] in sep;
    NotSlimIsLong(sep, c, separators[k + 1..], size, overlap);
  }

  lemma RecursiveFrom(text: string, size: nat, overlap: nat, separators: seq<string>, sep: string, rest: seq<string>)
    requires separators != [] && Best(text, separators) == (sep, rest)
    ensures Recursive(text, size, overlap, separators) == Gather(Splits(text, sep), [], Level(sep, rest, size, overlap))
  {
  }

  /** A separator that is reached is picked for itself, followed by any number of c. */
  lemma PicksFilled(separators: seq<string>, k: nat, c: char, n: nat)
    requires k < |separators| && separators[k] != "" && Reached(separators, k)
    requires forall sep | sep in separators :: c !in sep
    ensures Best(separators[k] + Fill(c, n), separators) == (separators[k], separators[k + 1..])
  {
    var sep := separators[k];
    var text := sep + Fill(c, n);
    assert text[0..|sep|] == sep;
    assert OccursAt(text, sep, 0);
    forall j: nat | j < k ensures !Contains(text, separators[j]) {
      NotInFilled(sep, c, n, separators[j]);
    }
    PicksAt(text, separators, 0, k);
  }

  lemma NotSlimIsLong(sep: string, c: char, rest: seq<string>, size: nat, overlap: nat)
    requires size >= 1 && sep != "" && !Slim(sep, size) && !IsSpace(c) && sep[0] != c
    ensures !AllWithin(Gather(Splits(sep + Fill(c, size - 1), sep), [], Level(sep, rest, size, overlap)), size)
  {
    if size == 1 {
      assert sep + Fill(c, 0) == sep;
      LongChunkOfOne(sep, rest, overlap);
    } else {
      LongChunk(sep, c, rest, size, overlap);
    }
  }

  lemma NotSlimIsVisible(sep: string, size: nat)
    requires !Slim(sep, size)
    ensures sep != ""
  {
    assert Trimmed("") == "" && LTrimmed("") == "";
  }

  /** So does the lack of the empty separator: nothing splits a run of one character. */
  lemma NoEmptyBreaks(separators: seq<string>, size: nat, overlap: nat, c: char) returns (text: string)
    requires separators != [] && "" !in separators && forall sep | sep in separators :: c !in sep
    ensures !AllWithin(Recursive(text, size, overlap, separators), size)
  {
    text := Fill(c, size + 1);
    forall sep | sep in separators ensures !Contains(text, sep) {
      forall i: nat | i <= |text| ensures !OccursAt(text, sep, i) {
        if i + |sep| <= |text| {
          assert text[i..i + |sep|][0] == c;
        }
      }
    }
    NothingPicked(text, separators, 0);
    var sep := separators[|separators| - 1];
    assert sep in separators;
    assert Search(text, sep) == |text|;
    var l := Level(sep, [], size, overlap);
    assert Splits(text, sep) == [text] && [text][1..] == [];
    assert Gather([text], [], l) == Flush([], l) + [text] + Gather([], [], l);
    assert text in Gather([text], [], l);
  }

  lemma {:induction false} NothingPicked(text: string, separators: seq<string>, i: nat)
    requires separators != [] && i <= |separators|
    requires forall sep | sep in separators :: sep != "" && !Contains(text, sep)
    ensures BestFrom(text, separators, i) == (separators[|separators| - 1], [])
    decreases |separators| - i
  {
    if i < |separators| {
      assert separators[i] in separators;
      NothingPicked(text, separators, i + 1);
    }
  }

  /** For every list of separators, as long as some visible character occurs in none of them:
      chunk_size is respected on every text exactly when the list has the empty separator and
      every separator that can be reached is slim. */
  lemma BoundIff(separators: seq<string>, size: nat, overlap: nat, c: char)
    requires separators != [] && size >= 1 && !IsSpace(c) && forall sep | sep in separators :: c !in sep
    ensures (forall text :: AllWithin(Recursive(text, size, overlap, separators), size)) <==> Bounded(separators, size)
  {
    if Bounded(separators, size) {
      forall text ensures AllWithin(Recursive(text, size, overlap, separators), size) {
        RecursiveWithin(text, size, overlap, separators);
      }
    } else if "" !in separators {
      var text := NoEmptyBreaks(separators, size, overlap, c);
    } else {
      var k: nat :| k < |separators| && Reached(separators, k) && !Slim(separators[k], size);
      var text := NotSlimBreaks(separators, k, size, overlap, c);
    }
  }

  /** For a list [sep, ""] no such character is needed. */
  lemma BoundHoldsIffSlim(sep: string, size: nat, overlap: nat)
    requires size >= 1
    ensures (forall text :: AllWithin(Recursive(text, size, overlap, [sep, ""]), size)) <==> Slim(sep, size)
  {
    if Slim(sep, size) {
      assert [sep, ""][1] == "";
      BlankIsSlim("", size);
      forall text ensures AllWithin(Recursive(text, size, overlap, [sep, ""]), size) {
        RecursiveWithin(text, size, overlap, [sep, ""]);
      }
    } else {
      var text := LongChunkExample(sep, [""], size, overlap);
      assert [sep] + [""] == [sep, ""];
    }
  }

  /** A first separator that is not slim always breaks the bound. */
  lemma LongChunkExample(sep: string, rest: seq<string>, size: nat, overlap: nat) returns (text: string)
    requires size >= 1 && !Slim(sep, size)
    ensures !AllWithin(Recursive(text, size, overlap, [sep] + rest), size)
  {
    NotSlimIsVisible(sep, size);
    var c, separators := if sep[0] == 'a' then 'b' else 'a', [sep] + rest;
    text := sep + Fill(c, size - 1);
    assert text[0..|sep|] == sep;
    assert OccursAt(text, sep, 0);
    PicksAt(text, separators, 0, 0);
    assert separators[1..] == rest;
    NotSlimIsLong(sep, c, rest, size, overlap);
  }
}
