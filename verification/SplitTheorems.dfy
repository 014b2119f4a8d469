/** What both text splitters promise, on every text. */
module SplitTheorems {
  import opened StringUtil
  import opened Placement
  import opened MergeWindows
  import opened MergePlacement
  import opened SplitText

  // ---------------------------------------------- which separator, which runs

  /** Whether sep can be used on the text: it is empty or occurs. */
  ghost predicate Usable(text: string, sep: string) {
    sep == "" || exists a, b :: text == a + sep + b
  }

  /** The separator picked is the first that can be used, and those behind it are left, none
      behind the empty one; if none can be used it is the last, and none is left. */
  lemma BestIsFirstUsable(text: string, separators: seq<string>) returns (i: nat)
    requires separators != []
    ensures i <= |separators| && (i < |separators| ==> Usable(text, separators[i]))
    ensures forall j | 0 <= j < i :: !Usable(text, separators[j])
    ensures i < |separators| ==>
      Best(text, separators) == (separators[i], if separators[i] == "" then [] else separators[i + 1..])
    ensures i == |separators| ==> Best(text, separators) == (separators[|separators| - 1], [])
  {
    i := FirstUsable(text, separators, 0);
  }

  lemma {:induction false} FirstUsable(text: string, separators: seq<string>, from: nat) returns (i: nat)
    requires separators != [] && from <= |separators|
    requires forall j | 0 <= j < from :: !Usable(text, separators[j])
    ensures i <= |separators| && (i < |separators| ==> Usable(text, separators[i]))
    ensures forall j | 0 <= j < i :: !Usable(text, separators[j])
    ensures i < |separators| ==>
      BestFrom(text, separators, from) == (separators[i], if separators[i] == "" then [] else separators[i + 1..])
    ensures i == |separators| ==> BestFrom(text, separators, from) == (separators[|separators| - 1], [])
    decreases |separators| - from
  {
    if from == |separators| {
      i := from;
    } else {
      UsableIff(text, separators[from]);
      if Usable(text, separators[from]) {
        i := from;
      } else {
        i := FirstUsable(text, separators, from + 1);
      }
    }
  }

  lemma UsableIff(text: string, sep: string)
    ensures Usable(text, sep) <==> sep == "" || Contains(text, sep)
  {
    if a, b :| text == a + sep + b {
      assert OccursAt(text, sep, |a|);
    }
    if Contains(text, sep) {
      var k: nat :| k <= |text| && OccursAt(text, sep, k);
      assert text == text[..k] + sep + text[k + |sep|..];
    }
  }

  /** A maximal run of splits shorter than chunk_size is merged as a whole; the split behind it,
      which is not shorter, is split further with the separators left, or kept as it is. */
  lemma RunsAreMerged(run: seq<string>, more: seq<string>, l: Level)
    requires forall s | s in run :: |s| < l.size
    requires more != [] ==> |more[0]| >= l.size
    ensures var merged := Merge(run, l.sep, l.size, l.overlap).Chunks();
      && (more == [] ==> Gather(run + more, [], l) == merged)
      && (more != [] ==>
            var further := if l.rest == [] then [more[0]] else Recursive(more[0], l.size, l.overlap, l.rest);
            Gather(run + more, [], l) == merged + further + Gather(more[1..], [], l))
  {
    assert [] + run == run;
    RunGathered(run, [], more, l);
  }

  lemma {:induction false} RunGathered(run: seq<string>, good: seq<string>, more: seq<string>, l: Level)
    requires forall s | s in run :: |s| < l.size
    requires more != [] ==> |more[0]| >= l.size
    ensures Gather(run + more, good, l) ==
      if more == [] then Flush(good + run, l)
      else Flush(good + run, l) + Oversize(more[0], l) + Gather(more[1..], [], l)
    decreases |run|
  {
    if run == [] {
      assert run + more == more && good + run == good;
    } else {
      assert (run + more)[1..] == run[1..] + more && run[0] in run;
      assert good + [run[0]] + run[1..] == good + run;
      RunGathered(run[1..], good + [run[0]], more, l);
    }
  }

  /** When no piece of the text between the separators is as long as chunk_size, the recursive
      splitter is the plain one with the separator picked. */
  lemma ShortPiecesAreMerged(text: string, size: nat, overlap: nat, separators: seq<string>)
    requires separators != []
    requires forall s | s in Splits(text, Best(text, separators).0) :: |s| < size
    ensures var sep := Best(text, separators).0;
      Recursive(text, size, overlap, separators) == Merge(Splits(text, sep), sep, size, overlap).Chunks()
  {
    var (sep, rest) := Best(text, separators);
    var splits := Splits(text, sep);
    assert splits + [] == splits;
    RunsAreMerged(splits, [], Level(sep, rest, size, overlap));
  }

  // ------------------------------------------------------- order and coverage

  /** Chunks of the single-separator splitter are substrings of the text, in order, sharing
      at most chunk_overlap characters; a blank separator leaves no visible character out. */
  lemma SeparatorSplitIsFaithful(text: string, sep: string, size: nat, overlap: nat) returns (spans: seq<Span>)
    ensures Faithful(text, Merge(Splits(text, sep), sep, size, overlap).Chunks(), spans, Blank(sep), overlap)
  {
    JoinSplits(text, sep);
    spans := MergeIsFaithful(Merge(Splits(text, sep), sep, size, overlap));
  }

  ghost predicate AllBlank(separators: seq<string>) {
    forall sep | sep in separators :: Blank(sep)
  }

  lemma {:induction false} BestIsMember(text: string, separators: seq<string>, i: nat)
    requires separators != [] && i <= |separators|
    ensures BestFrom(text, separators, i).0 in separators
    ensures forall sep | sep in BestFrom(text, separators, i).1 :: sep in separators
    decreases |separators| - i
  {
    if i < |separators| && separators[i] != "" && !Contains(text, separators[i]) {
      BestIsMember(text, separators, i + 1);
    }
  }

  /** The same for the recursive splitter, whatever the separators. */
  lemma {:induction false} RecursiveSplitIsFaithful(text: string, size: nat, overlap: nat, separators: seq<string>)
    returns (spans: seq<Span>)
    requires separators != []
    ensures Faithful(text, Recursive(text, size, overlap, separators), spans, AllBlank(separators), overlap)
    decreases |separators|, 0, 0
  {
    var (sep, rest) := Best(text, separators);
    BestIsMember(text, separators, 0);
    JoinSplits(text, sep);
    var splits, l := Splits(text, sep), Level(sep, rest, size, overlap);
    assert [] + splits == splits;
    spans := GatherIsFaithful(splits, [], l, AllBlank(separators));
  }

  lemma {:induction false} GatherIsFaithful(splits: seq<string>, good: seq<string>, l: Level, cov: bool)
    returns (spans: seq<Span>)
    requires cov ==> Blank(l.sep) && AllBlank(l.rest)
    ensures Faithful(Joined(l.sep, good + splits), Gather(splits, good, l), spans, cov, l.overlap)
    decreases |l.rest|, 1, |splits|
  {
    if splits == [] {
      assert good + splits == good;
      spans := MergeIsFaithful(Merge(good, l.sep, l.size, l.overlap));
    } else if |splits[0]| < l.size {
      assert good + splits == (good + [splits[0]]) + splits[1..];
      spans := GatherIsFaithful(splits[1..], good + [splits[0]], l, cov);
    } else {
      var front := FrontIsFaithful(splits[0], good, l, cov);
      assert good + splits == (good + [splits[0]]) + splits[1..];
      assert [] + splits[1..] == splits[1..];
      var back := GatherIsFaithful(splits[1..], [], l, cov);
      var cf := Flush(good, l) + Oversize(splits[0], l);
      spans := BesideJoined(good + [splits[0]], splits[1..], l.sep, cf, Gather(splits[1..], [], l), front, back,
                            cov, l.overlap);
    }
  }

  /** The good splits so far and the oversize split that follows them. */
  lemma {:induction false} FrontIsFaithful(s: string, good: seq<string>, l: Level, cov: bool) returns (spans: seq<Span>)
    requires cov ==> Blank(l.sep) && AllBlank(l.rest)
    ensures Faithful(Joined(l.sep, good + [s]), Flush(good, l) + Oversize(s, l), spans, cov, l.overlap)
    decreases |l.rest|, 1, 0
  {
    if l.rest == [] {
      WholeText(s, cov, l.overlap);
      spans := [Span(0, |s|)];
    } else {
      spans := RecursiveSplitIsFaithful(s, l.size, l.overlap, l.rest);
    }
    assert Joined(l.sep, [s]) == s;
    var before := MergeIsFaithful(Merge(good, l.sep, l.size, l.overlap));
    spans := BesideJoined(good, [s], l.sep, Flush(good, l), Oversize(s, l), before, spans, cov, l.overlap);
  }

  /** Joined lists lie side by side in the join of their concatenation. */
  lemma BesideJoined(xs: seq<string>, ys: seq<string>, sep: string, cx: seq<string>, cy: seq<string>,
                     px: seq<Span>, py: seq<Span>, cov: bool, ov: nat) returns (spans: seq<Span>)
    requires Faithful(Joined(sep, xs), cx, px, cov, ov) && Faithful(Joined(sep, ys), cy, py, cov, ov)
    requires cov ==> Blank(sep)
    ensures Faithful(Joined(sep, xs + ys), cx + cy, spans, cov, ov)
  {
    var s, t, text := Joined(sep, xs), Joined(sep, ys), Joined(sep, xs + ys);
    var gap := "";
    if xs == [] {
      assert xs + ys == ys && text == s + gap + t;
    } else if ys == [] {
      assert xs + ys == xs && text == s + gap + t;
    } else {
      JoinedAppend(sep, xs, ys);
      gap := sep;
    }
    var a, c := |s|, |s| + |gap|;
    assert text == s + gap + t;
    assert text[..a] == s && text[a..c] == gap && text[c..] == t;
    spans := Beside(text, a, c, cx, cy, px, py, cov, ov);
  }

  /** Blank separators and no overlap: the visible characters of the chunks are those of
      the text, each once and in order. */
  lemma RecursiveSplitLosesNothing(text: string, size: nat, separators: seq<string>)
    requires separators != [] && AllBlank(separators)
    ensures Visible(Concat(Recursive(text, size, 0, separators))) == Visible(text)
  {
    var spans := RecursiveSplitIsFaithful(text, size, 0, separators);
    NothingLost(text, Recursive(text, size, 0, separators), spans);
  }

  lemma SeparatorSplitLosesNothing(text: string, sep: string, size: nat)
    requires Blank(sep)
    ensures Visible(Concat(Merge(Splits(text, sep), sep, size, 0).Chunks())) == Visible(text)
  {
    var spans := SeparatorSplitIsFaithful(text, sep, size, 0);
    NothingLost(text, Merge(Splits(text, sep), sep, size, 0).Chunks(), spans);
  }
}
