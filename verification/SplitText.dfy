/** The text splitters of vm/src/split_text.cpp. Both length functions the source knows
    ("default" and "string") are the byte count, written |s| here. */
module SplitText {
  import opened StringUtil
  import opened Placement
  import opened MergeWindows

  datatype Result<T> = Ok(value: T) | Exception(reason: string)

  // ------------------------------------------------------- the running total

  function SumLens(xs: seq<string>): nat {
    if xs == [] then 0 else |xs[0]| + SumLens(xs[1..])
  }

  function DirectTotal(current: seq<string>, separatorLen: nat, newLen: nat): nat {
    if current == [] then newLen
    else SumLens(current) + (|current| - 1) * separatorLen + if newLen != 0 then separatorLen + newLen else 0
  }

  lemma {:induction false} SumLensAppend(xs: seq<string>, x: string)
    ensures SumLens(xs + [x]) == SumLens(xs) + |x|
  {
    if xs != [] {
      assert (xs + [x])[1..] == xs[1..] + [x];
      SumLensAppend(xs[1..], x);
    }
  }

  lemma SumLensNext(xs: seq<string>, i: nat)
    requires i < |xs|
    ensures SumLens(xs[..i + 1]) == SumLens(xs[..i]) + |xs[i]|
  {
    SumLensAppend(xs[..i], xs[i]);
    assert xs[..i + 1] == xs[..i] + [xs[i]];
  }

  method CalculateTotalDirect(current: seq<string>, separatorLen: nat, newLen: nat) returns (res: nat)
    ensures res == DirectTotal(current, separatorLen, newLen)
  {
    res := 0;
    if current == [] {
      return newLen;
    }
    for i := 0 to |current|
      invariant res == SumLens(current[..i])
    {
      SumLensNext(current, i);
      res := res + |current[i]|;
    }
    assert current[..|current|] == current;
    assert res == SumLens(current);
    res := res + (|current| - 1) * separatorLen;
    res := res + if newLen != 0 then separatorLen + newLen else 0;
  }

  lemma {:induction false} JoinedLength(d: string, xs: seq<string>)
    requires xs != []
    ensures |Joined(d, xs)| == SumLens(xs) + (|xs| - 1) * |d|
  {
    if |xs| > 1 {
      JoinedLength(d, xs[1..]);
    } else {
      assert xs[1..] == [];
    }
  }

  /** The slow reference for the running total: it is the joined length of the window, and
      with the waiting split exactly when that split is not empty (or adds no separator). */
  lemma RunningTotalIsDirect(m: Merge, lo: nat, i: nat)
    requires lo <= i < |m.splits|
    ensures m.Len(lo, i) == DirectTotal(m.splits[lo..i], |m.sep|, 0)
    ensures m.Len(lo, i + 1) == DirectTotal(m.splits[lo..i], |m.sep|, |m.splits[i]|)
       <==> m.splits[i] != "" || lo == i || m.sep == ""
    ensures m.Len(lo, i + 1) <= |m.Text()|
  {
    LenStep(m, lo, i);
    if lo < i {
      JoinedLength(m.sep, m.splits[lo..i]);
    }
    WindowInText(m, lo, i + 1);
  }

  // ------------------------------------------------------------------ merging

  method CompleteDocument(docs: seq<string>, separator: string, current: seq<string>) returns (docs': seq<string>)
    ensures docs' == docs + DocOf(Joined(separator, current))
  {
    docs' := docs;
    var doc := Join(separator, current);
    doc := Trim(doc);
    if doc != "" {
      docs' := docs' + [doc];
    }
  }

  /** All lengths are `nat`, so the verifier also proves that no subtraction wraps, and no
      sum exceeds the length of the joined splits (RunningTotalIsDirect). */
  method MergeSplits(splits: seq<string>, separator: string, chunkSize: nat, chunkOverlap: nat)
    returns (docs: seq<string>)
    ensures docs == Merge(splits, separator, chunkSize, chunkOverlap).Chunks()
  {
    ghost var m := Merge(splits, separator, chunkSize, chunkOverlap);
    var separatorLen := |separator|;
    docs := [];
    var current: seq<string> := [];
    var total: nat := 0;
    for i := 0 to |splits|
      invariant Merging(m, i, docs, current, total)
    {
      var s := splits[i];
      docs, current, total :=
        MakeRoom(m, i, docs, current, total, separator, |s|, separatorLen, chunkSize, chunkOverlap);
      PushSplit(m, i, docs, current, total);
      current := current + [s];
    }
    LastWindow(m, docs, current, total);
    docs := CompleteDocument(docs, separator, current);
  }

  /** With i splits in: the chunks completed, the window and the running total. */
  ghost predicate Merging(m: Merge, i: nat, docs: seq<string>, current: seq<string>, total: nat)
    requires i <= |m.splits|
  {
    docs == m.Docs(i) && current == m.splits[m.Lo(i)..i] && total == m.Len(m.Lo(i), i)
  }

  /** The part of the loop body before the split is pushed: when it would make the window too
      long, the window is completed and popped. `total` becomes that with the split in it. */
  method MakeRoom(ghost m: Merge, ghost i: nat, docs: seq<string>, window: seq<string>, total: nat, separator: string,
                  newLen: nat, separatorLen: nat, chunkSize: nat, chunkOverlap: nat)
    returns (docs': seq<string>, current: seq<string>, totalIfMerge: nat)
    requires i < |m.splits| && Merging(m, i, docs, window, total)
    requires newLen == |m.splits[i]| && separatorLen == |m.sep| && separator == m.sep
    requires chunkSize == m.size && chunkOverlap == m.overlap
    ensures docs' == m.Docs(i + 1) && m.Lo(i + 1) <= i
    ensures current == m.splits[m.Lo(i + 1)..i] && totalIfMerge == m.Len(m.Lo(i + 1), i + 1)
  {
    ghost var lo := m.Lo(i);
    Grows(m, lo, i);
    docs', current := docs, window;
    totalIfMerge := total + newLen + if current != [] then separatorLen else 0;
    ghost var next := Advance(m, i, lo);
    if totalIfMerge > chunkSize {
      if current != [] {
        docs' := CompleteDocument(docs, separator, current);
        var popped: nat;
        current, popped, totalIfMerge :=
          PopWindow(m, lo, i, current, total, totalIfMerge, newLen, separatorLen, chunkSize, chunkOverlap);
      }
    }
  }

  /** What one round of the loop over the splits does to the window and the documents. */
  lemma Grows(m: Merge, lo: nat, i: nat)
    requires lo <= i < |m.splits|
    ensures m.Len(lo, i + 1) == m.Len(lo, i) + |m.splits[i]| + if lo < i then |m.sep| else 0
  {
    LenStep(m, lo, i);
  }

  lemma Advance(m: Merge, i: nat, lo: nat) returns (next: nat)
    requires i < |m.splits| && lo == m.Lo(i)
    ensures next <= i && next == m.Lo(i + 1)
    ensures lo < i && m.Len(lo, i + 1) > m.size ==>
      next == m.FirstFit(lo, i) && m.Docs(i + 1) == m.Docs(i) + DocOf(m.Window(lo, i))
    ensures !(lo < i && m.Len(lo, i + 1) > m.size) ==> next == lo && m.Docs(i + 1) == m.Docs(i)
  {
    next := m.Lo(i + 1);
    AdvanceDocs(m, i);
  }

  lemma PushSplit(m: Merge, i: nat, docs: seq<string>, current: seq<string>, total: nat)
    requires i < |m.splits| && m.Lo(i + 1) <= i && docs == m.Docs(i + 1)
    requires current == m.splits[m.Lo(i + 1)..i] && total == m.Len(m.Lo(i + 1), i + 1)
    ensures Merging(m, i + 1, docs, current + [m.splits[i]], total)
  {
    SliceSnoc(m.splits, m.Lo(i + 1), i);
  }

  lemma SliceSnoc<T>(xs: seq<T>, lo: nat, i: nat)
    requires lo <= i < |xs|
    ensures xs[lo..i] + [xs[i]] == xs[lo..i + 1]
  {
  }

  lemma LastWindow(m: Merge, docs: seq<string>, current: seq<string>, total: nat)
    requires Merging(m, |m.splits|, docs, current, total)
    ensures m.Chunks() == docs + DocOf(Joined(m.sep, current))
  {
  }

  lemma AdvanceDocs(m: Merge, i: nat)
    requires i < |m.splits|
    ensures m.Docs(i + 1) == if m.Cuts(i) then m.Docs(i) + DocOf(m.Window(m.Lo(i), i)) else m.Docs(i)
  {
  }

  /** What one round of the pop loop does to the window and to its two lengths. */
  lemma PopStep(m: Merge, lo: nat, i: nat)
    requires lo <= i < |m.splits| && !m.Fits(lo, i)
    ensures lo < i && m.splits[lo..i][0] == m.splits[lo] && m.splits[lo..i][1..] == m.splits[lo + 1..i]
    ensures m.Len(lo, i) == m.Len(lo + 1, i) + |m.splits[lo]| + if lo + 1 < i then |m.sep| else 0
    ensures m.Len(lo + 1, i + 1) == m.Len(lo + 1, i) + |m.splits[i]| + if lo + 1 < i then |m.sep| else 0
    ensures m.FirstFit(lo, i) == m.FirstFit(lo + 1, i)
  {
    EmptyFits(m, lo, i);
    LenStep(m, lo, i);
    LenStep(m, lo + 1, i);
  }

  lemma FitHere(m: Merge, lo: nat, i: nat)
    requires lo <= i < |m.splits| && m.Fits(lo, i)
    ensures m.FirstFit(lo, i) == lo
  {
  }

  lemma EmptyFits(m: Merge, lo: nat, i: nat)
    requires lo <= i < |m.splits|
    ensures lo == i ==> m.Fits(lo, i)
  {
    assert m.splits[i..i] == [];
  }

  /** The pop loop of `_merge_splits`: drops splits from the front until what is left is no
      longer than the overlap and leaves room for the next split (or is empty). */
  method PopWindow(ghost m: Merge, ghost from: nat, ghost i: nat, window: seq<string>, windowTotal: nat, withNext: nat,
                   newLen: nat, separatorLen: nat, chunkSize: nat, chunkOverlap: nat)
    returns (current: seq<string>, total: nat, totalIfMerge: nat)
    requires from < i < |m.splits| && window == m.splits[from..i]
    requires windowTotal == m.Len(from, i) && withNext == m.Len(from, i + 1)
    requires newLen == |m.splits[i]| && separatorLen == |m.sep| && chunkSize == m.size && chunkOverlap == m.overlap
    ensures current == m.splits[m.FirstFit(from, i)..i]
    ensures total == m.Len(m.FirstFit(from, i), i) && totalIfMerge == m.Len(m.FirstFit(from, i), i + 1)
  {
    current, total, totalIfMerge := window, windowTotal, withNext;
    ghost var lo: nat := from;
    while total > chunkOverlap || (totalIfMerge > chunkSize && total > 0)
      invariant lo <= i && current == m.splits[lo..i]
      invariant total == m.Len(lo, i) && totalIfMerge == m.Len(lo, i + 1)
      invariant m.FirstFit(lo, i) == m.FirstFit(from, i)
      decreases |current|
    {
      assert !m.Fits(lo, i);
      PopStep(m, lo, i);
      var first := current[0];
      current := current[1..];
      total := total - (|first| + if current != [] then separatorLen else 0);
      totalIfMerge := total + newLen + if current != [] then separatorLen else 0;
      lo := lo + 1;
    }
    FitHere(m, lo, i);
  }

  method SplitTextBySeparator(text: string, chunkSize: nat, chunkOverlap: nat, separator: string,
                              lengthFunction: string) returns (r: Result<seq<string>>)
    ensures r.Ok? <==> chunkOverlap <= chunkSize && lengthFunction in {"default", "string"}
    ensures r.Ok? ==> r.value == Merge(Splits(text, separator), separator, chunkSize, chunkOverlap).Chunks()
  {
    if chunkOverlap > chunkSize {
      return Exception("chunk_overlap should be smaller than chunk size.");
    }
    if lengthFunction !in {"default", "string"} {
      return Exception("out_of_range");
    }
    var splits := SplitText(text, separator);
    var chunks := MergeSplits(splits, separator, chunkSize, chunkOverlap);
    return Ok(chunks);
  }

  // ---------------------------------------------------------------- recursion

  /** The first separator that is empty or occurs in the text, and the separators left for
      the next level: none after an empty one. The last separator if there is no such. */
  function Best(text: string, separators: seq<string>): (r: (string, seq<string>))
    requires separators != []
    ensures |r.1| < |separators|
  {
    BestFrom(text, separators, 0)
  }

  function BestFrom(text: string, separators: seq<string>, i: nat): (r: (string, seq<string>))
    requires separators != [] && i <= |separators|
    ensures |r.1| < |separators|
    decreases |separators| - i
  {
    if i == |separators| then (separators[|separators| - 1], [])
    else if separators[i] == "" then ("", [])
    else if Contains(text, separators[i]) then (separators[i], separators[i + 1..])
    else BestFrom(text, separators, i + 1)
  }

  method PickBestSeparator(text: string, separators: seq<string>)
    returns (rvSep: string, newSeparators: seq<string>)
    requires separators != []
    ensures (rvSep, newSeparators) == Best(text, separators)
  {
    newSeparators := [];
    rvSep := separators[|separators| - 1];
    var push := false;
    ghost var at := 0;
    for i := 0 to |separators|
      invariant !push ==> newSeparators == [] && rvSep == separators[|separators| - 1]
      invariant !push ==> BestFrom(text, separators, i) == Best(text, separators)
      invariant push ==> at < i && newSeparators == separators[at + 1..i]
      invariant push ==> Best(text, separators) == (rvSep, separators[at + 1..])
    {
      var sep := separators[i];
      if push {
        newSeparators := newSeparators + [sep];
      } else if sep == "" {
        rvSep := sep;
        break;
      } else if Contains(text, sep) {
        rvSep := sep;
        push := true;
        at := i;
      }
    }
    assert push ==> separators[at + 1..|separators|] == separators[at + 1..];
  }

  /** The settings that stay the same through one level of the recursion. */
  datatype Level = Level(sep: string, rest: seq<string>, size: nat, overlap: nat)

  function Recursive(text: string, size: nat, overlap: nat, separators: seq<string>): seq<string>
    requires separators != []
    decreases |separators|, 0, 0
  {
    var (sep, rest) := Best(text, separators);
    Gather(Splits(text, sep), [], Level(sep, rest, size, overlap))
  }

  /** Chunks of the good splits collected so far and of the splits still to come. */
  function Gather(splits: seq<string>, good: seq<string>, l: Level): seq<string>
    decreases |l.rest|, 1, |splits|
  {
    if splits == [] then Flush(good, l)
    else if |splits[0]| < l.size then Gather(splits[1..], good + [splits[0]], l)
    else Flush(good, l) + Oversize(splits[0], l) + Gather(splits[1..], [], l)
  }

  function Flush(good: seq<string>, l: Level): seq<string> {
    Merge(good, l.sep, l.size, l.overlap).Chunks()
  }

  function Oversize(s: string, l: Level): seq<string>
    decreases |l.rest|, 1, 0
  {
    if l.rest == [] then [s] else Recursive(s, l.size, l.overlap, l.rest)
  }

  method Append(chunks: seq<string>, more: seq<string>) returns (chunks': seq<string>)
    ensures chunks' == chunks + more
  {
    chunks' := chunks;
    for i := 0 to |more|
      invariant chunks' == chunks + more[..i]
    {
      chunks' := chunks' + [more[i]];
    }
  }

  method MergeSplitsAndPut(chunks: seq<string>, splits: seq<string>, separator: string,
                           chunkSize: nat, chunkOverlap: nat) returns (chunks': seq<string>)
    ensures chunks' == chunks + Merge(splits, separator, chunkSize, chunkOverlap).Chunks()
  {
    var mergedChunks := MergeSplits(splits, separator, chunkSize, chunkOverlap);
    chunks' := Append(chunks, mergedChunks);
  }

  method SplitTextRecursive(text: string, chunkSize: nat, chunkOverlap: nat, separators: seq<string>)
    returns (finalChunks: seq<string>)
    requires separators != []
    ensures finalChunks == Recursive(text, chunkSize, chunkOverlap, separators)
    decreases |separators|
  {
    var separator, newSeparators := PickBestSeparator(text, separators);
    var splits := SplitText(text, separator);
    ghost var l := Level(separator, newSeparators, chunkSize, chunkOverlap);
    var goodSplits: seq<string> := [];
    finalChunks := [];
    assert splits[0..] == splits;
    for i := 0 to |splits|
      invariant finalChunks + Gather(splits[i..], goodSplits, l) == Gather(splits, [], l)
    {
      var s := splits[i];
      GatherStep(splits, i, goodSplits, l, finalChunks);
      if |s| < chunkSize {
        goodSplits := goodSplits + [s];
      } else {
        if goodSplits != [] {
          finalChunks := MergeSplitsAndPut(finalChunks, goodSplits, separator, chunkSize, chunkOverlap);
          goodSplits := [];
        }
        if newSeparators == [] {
          finalChunks := finalChunks + [s];
        } else {
          var chunksFromNextSteps := SplitTextRecursive(s, chunkSize, chunkOverlap, newSeparators);
          finalChunks := Append(finalChunks, chunksFromNextSteps);
        }
      }
    }
    FlushNothing(l, finalChunks);
    if goodSplits != [] {
      finalChunks := MergeSplitsAndPut(finalChunks, goodSplits, separator, chunkSize, chunkOverlap);
    }
  }

  lemma FlushNothing(l: Level, before: seq<string>)
    ensures Flush([], l) == [] && before + Flush([], l) == before
  {
    assert Merge([], l.sep, l.size, l.overlap).Chunks() == [];
  }

  lemma GatherStep(splits: seq<string>, i: nat, good: seq<string>, l: Level, before: seq<string>)
    requires i < |splits|
    ensures |splits[i]| < l.size ==>
      before + Gather(splits[i..], good, l) == before + Gather(splits[i + 1..], good + [splits[i]], l)
    ensures |splits[i]| >= l.size ==>
      before + Gather(splits[i..], good, l)
      == before + Flush(good, l) + Oversize(splits[i], l) + Gather(splits[i + 1..], [], l)
    ensures good == [] ==> before + Flush(good, l) == before
  {
    FlushNothing(l, before);
    assert splits[i..][1..] == splits[i + 1..];
    var a, b, c := Flush(good, l), Oversize(splits[i], l), Gather(splits[i + 1..], [], l);
    assert before + (a + b + c) == before + a + b + c;
  }

  method SplitTextBySeparatorsRecursively(text: string, chunkSize: nat, chunkOverlap: nat, separators: seq<string>,
                                          lengthFunction: string) returns (r: Result<seq<string>>)
    requires separators != []
    ensures r.Ok? <==> chunkOverlap <= chunkSize && lengthFunction in {"default", "string"}
    ensures r.Ok? ==> r.value == Recursive(text, chunkSize, chunkOverlap, separators)
  {
    if chunkOverlap > chunkSize {
      return Exception("chunk_overlap should be smaller than chunk size.");
    }
    if lengthFunction !in {"default", "string"} {
      return Exception("out_of_range");
    }
    var chunks := SplitTextRecursive(text, chunkSize, chunkOverlap, separators);
    return Ok(chunks);
  }
}
