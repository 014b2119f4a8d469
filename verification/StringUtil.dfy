/** Splitting, joining and trimming of byte strings (vm/src/string_util.*).
    A `char` stands for one byte of a std::string. */
module StringUtil {

  // ---------------------------------------------------------------- trimming

  /** std::isspace in the "C" locale: tab, LF, VT, FF, CR and blank. */
  predicate IsSpace(c: char) {
    c == ' ' || '\t' <= c <= '\r'
  }

  lemma SpacesAre(c: char)
    ensures IsSpace(c) <==> c in "\t\n\U{000B}\U{000C}\r "
  {
    var spaces := "\t\n\U{000B}\U{000C}\r ";
    assert spaces[0] == '\t' && spaces[1] == '\n' && spaces[2] == '\U{000B}' && spaces[3] == '\U{000C}';
    assert spaces[4] == '\r' && spaces[5] == ' ';
    if IsSpace(c) && c != ' ' {
      assert '\t' as int <= c as int <= '\r' as int;
    }
  }

  predicate Blank(s: string) {
    forall i | 0 <= i < |s| :: IsSpace(s[i])
  }

  function LTrimmed(s: string): string {
    if s != "" && IsSpace(s[0]) then LTrimmed(s[1..]) else s
  }

  function RTrimmed(s: string): string {
    if s != "" && IsSpace(s[|s| - 1]) then RTrimmed(s[..|s| - 1]) else s
  }

  function Trimmed(s: string): string {
    LTrimmed(RTrimmed(s))
  }

  /** x[b..e] is what is left of x once every outer blank is gone. */
  ghost predicate CoreOf(x: string, b: nat, e: nat) {
    && b <= e <= |x|
    && (forall i | 0 <= i < b :: IsSpace(x[i]))
    && (forall i | e <= i < |x| :: IsSpace(x[i]))
    && (b < e ==> !IsSpace(x[b]) && !IsSpace(x[e - 1]))
  }

  lemma {:induction false} LTrimmedDrops(s: string) returns (b: nat)
    ensures b <= |s| && LTrimmed(s) == s[b..]
    ensures forall i | 0 <= i < b :: IsSpace(s[i])
    ensures b < |s| ==> !IsSpace(s[b])
  {
    if s != "" && IsSpace(s[0]) {
      var b' := LTrimmedDrops(s[1..]);
      b := b' + 1;
      assert s[b..] == s[1..][b'..];
      assert forall i | 1 <= i < b :: s[i] == s[1..][i - 1];
    } else {
      b := 0;
    }
  }

  lemma {:induction false} RTrimmedDrops(s: string) returns (e: nat)
    ensures e <= |s| && RTrimmed(s) == s[..e]
    ensures forall i | e <= i < |s| :: IsSpace(s[i])
    ensures e > 0 ==> !IsSpace(s[e - 1])
  {
    if s != "" && IsSpace(s[|s| - 1]) {
      e := RTrimmedDrops(s[..|s| - 1]);
      assert s[..e] == s[..|s| - 1][..e];
    } else {
      e := |s|;
      assert s[..e] == s;
    }
  }

  /** Trimming cuts exactly the outer blanks. */
  lemma TrimmedIsCore(x: string) returns (b: nat, e: nat)
    ensures CoreOf(x, b, e) && Trimmed(x) == x[b..e]
    ensures b == e <==> Blank(x)
  {
    e := RTrimmedDrops(x);
    b := LTrimmedDrops(x[..e]);
    assert x[..e][b..] == x[b..e];
    assert forall i | 0 <= i < b :: x[i] == x[..e][i];
    if b < e {
      assert x[..e][b] == x[b];
    }
  }

  /** The core is unique, so trimming is the only function that meets TrimmedIsCore. */
  lemma TrimmedUnique(x: string, b: nat, e: nat)
    requires CoreOf(x, b, e)
    ensures Trimmed(x) == x[b..e]
  {
    var b', e' := TrimmedIsCore(x);
    assert b < e ==> !IsSpace(x[b]) && !IsSpace(x[e - 1]);
    assert b' < e' ==> !IsSpace(x[b']) && !IsSpace(x[e' - 1]);
  }

  method LTrim(s: string) returns (t: string)
    ensures t == LTrimmed(s)
  {
    var first := 0;
    while first < |s| && IsSpace(s[first])
      invariant first <= |s|
      invariant LTrimmed(s[first..]) == LTrimmed(s)
    {
      assert s[first..][1..] == s[first + 1..];
      first := first + 1;
    }
    t := s[first..];
  }

  method RTrim(s: string) returns (t: string)
    ensures t == RTrimmed(s)
  {
    var base := |s|;
    assert s[..base] == s;
    while base > 0 && IsSpace(s[base - 1])
      invariant base <= |s|
      invariant RTrimmed(s[..base]) == RTrimmed(s)
    {
      assert s[..base][..base - 1] == s[..base - 1];
      base := base - 1;
    }
    t := s[..base];
  }

  method Trim(s: string) returns (t: string)
    ensures t == Trimmed(s)
  {
    t := RTrim(s);
    t := LTrim(t);
  }

  // ----------------------------------------------------------------- joining

  function Joined(d: string, xs: seq<string>): string {
    if |xs| == 0 then "" else if |xs| == 1 then xs[0] else xs[0] + d + Joined(d, xs[1..])
  }

  lemma {:induction false} JoinedAppend(d: string, xs: seq<string>, ys: seq<string>)
    requires xs != [] && ys != []
    ensures Joined(d, xs + ys) == Joined(d, xs) + d + Joined(d, ys)
  {
    if |xs| == 1 {
      assert (xs + ys)[1..] == ys;
    } else {
      JoinedAppend(d, xs[1..], ys);
      assert (xs + ys)[1..] == xs[1..] + ys;
      assert (xs[0] + d) + (Joined(d, xs[1..]) + d + Joined(d, ys))
          == (xs[0] + d + Joined(d, xs[1..])) + d + Joined(d, ys);
    }
  }

  method Join(d: string, chunks: seq<string>) returns (oss: string)
    ensures oss == Joined(d, chunks)
  {
    if chunks == [] {
      return "";
    }
    oss := chunks[0];
    assert chunks[..1] == [chunks[0]];
    for i := 1 to |chunks|
      invariant oss == Joined(d, chunks[..i])
    {
      JoinedAppend(d, chunks[..i], [chunks[i]]);
      assert chunks[..i + 1] == chunks[..i] + [chunks[i]];
      oss := oss + d + chunks[i];
    }
    assert chunks[..|chunks|] == chunks;
  }

  // --------------------------------------------------------------- splitting

  predicate OccursAt(s: string, d: string, i: nat) {
    i + |d| <= |s| && s[i..i + |d|] == d
  }

  predicate Contains(s: string, d: string) {
    exists i: nat | i <= |s| :: OccursAt(s, d, i)
  }

  /** The least index at which d occurs in s, or |s| when there is none. */
  function Search(s: string, d: string): (r: nat)
    requires d != ""
    ensures r <= |s|
    ensures r < |s| ==> OccursAt(s, d, r)
    ensures forall k: nat | k < r :: !OccursAt(s, d, k)
  {
    SearchFrom(s, d, 0)
  }

  function SearchFrom(s: string, d: string, i: nat): (r: nat)
    requires d != "" && i <= |s|
    requires forall k: nat | k < i :: !OccursAt(s, d, k)
    ensures r <= |s|
    ensures r < |s| ==> OccursAt(s, d, r)
    ensures forall k: nat | k < r :: !OccursAt(s, d, k)
    decreases |s| - i
  {
    if i == |s| || OccursAt(s, d, i) then i else SearchFrom(s, d, i + 1)
  }

  function Chars(s: string): seq<string> {
    if s == "" then [] else [s[..1]] + Chars(s[1..])
  }

  function Pieces(s: string, d: string): (r: seq<string>)
    requires d != ""
    ensures r != []
    decreases |s|
  {
    var k := Search(s, d);
    if k == |s| then [s] else [s[..k]] + Pieces(s[k + |d|..], d)
  }

  /** What std::ranges::split_view yields: nothing on an empty text, single
      characters for an empty delimiter, leftmost matches otherwise. */
  function Splits(s: string, d: string): seq<string> {
    if s == "" then [] else if d == "" then Chars(s) else Pieces(s, d)
  }

  /** find_next of std::ranges::split_view. */
  function FindNext(s: string, d: string, i: nat): (r: (nat, nat))
    requires i < |s|
    ensures i <= r.0 <= r.1 <= |s| && (r.0 < |s| ==> i < r.1)
  {
    if d == "" then (i + 1, i + 1)
    else
      var b := i + Search(s[i..], d);
      if b == |s| then (b, b) else (b, b + |d|)
  }

  ghost function Rest(s: string, d: string, cur: nat, trailingEmpty: bool): seq<string>
    requires cur <= |s|
  {
    if cur < |s| then Splits(s[cur..], d) else if trailingEmpty then [""] else []
  }

  method SplitText(s: string, d: string) returns (result: seq<string>)
    ensures result == Splits(s, d)
  {
    result := [];
    var cur, trailingEmpty := 0, false;
    var next := if s == "" then (0, 0) else FindNext(s, d, 0);
    assert s[0..] == s;
    while cur != |s| || trailingEmpty
      invariant cur <= |s| && (trailingEmpty ==> cur == |s|)
      invariant next == if cur < |s| then FindNext(s, d, cur) else (cur, cur)
      invariant result + Rest(s, d, cur, trailingEmpty) == Splits(s, d)
      decreases |s| - cur, trailingEmpty
    {
      ghost var before, from, rest := result, cur, Rest(s, d, cur, trailingEmpty);
      result := result + [s[cur..next.0]];
      cur := next.0;
      if cur != |s| {
        cur := next.1;
        if cur == |s| {
          trailingEmpty := true;
          next := (cur, cur);
        } else {
          next := FindNext(s, d, cur);
        }
      } else {
        trailingEmpty := false;
      }
      if from < |s| {
        RestStep(s, d, from);
      } else {
        assert s[from..from] == "" && rest == [""];
      }
      FirstMoves(before, rest, result);
    }
  }

  lemma FirstMoves(before: seq<string>, rest: seq<string>, after: seq<string>)
    requires rest != [] && after == before + [rest[0]]
    ensures before + rest == after + rest[1..]
  {
  }

  /** One step of the iterator takes the first of the remaining pieces. */
  ghost predicate TakesFirst(s: string, d: string, cur: nat, next: (nat, nat), rest: seq<string>)
    requires cur <= next.0 <= next.1 <= |s|
  {
    && rest != [] && rest[0] == s[cur..next.0]
    && rest[1..] == if next.0 == |s| then [] else Rest(s, d, next.1, next.1 == |s| && d != "")
  }

  lemma RestStep(s: string, d: string, cur: nat)
    requires cur < |s|
    ensures TakesFirst(s, d, cur, FindNext(s, d, cur), Rest(s, d, cur, false))
  {
    if d == "" {
      CharsStep(s, cur);
    } else {
      PiecesStep(s, d, cur);
    }
  }

  lemma CharsStep(s: string, cur: nat)
    requires cur < |s|
    ensures TakesFirst(s, "", cur, (cur + 1, cur + 1), Chars(s[cur..]))
  {
    var t := s[cur..];
    assert t[1..] == s[cur + 1..] && t[..1] == s[cur..cur + 1];
  }

  lemma PiecesStep(s: string, d: string, cur: nat)
    requires cur < |s| && d != ""
    ensures TakesFirst(s, d, cur, FindNext(s, d, cur), Pieces(s[cur..], d))
  {
    var k := Search(s[cur..], d);
    if k < |s| - cur {
      FirstPiece(s, d, cur, k);
      RestIsPieces(s, d, cur + k + |d|);
      MatchedPiece(s, d, cur, k, Pieces(s[cur + k + |d|..], d));
    } else {
      PiecesUnfold(s[cur..], d);
      LastPiece(s, d, cur);
    }
  }

  lemma FirstPiece(s: string, d: string, cur: nat, k: nat)
    requires cur < |s| && d != "" && k == Search(s[cur..], d) < |s| - cur
    ensures cur + k + |d| <= |s|
    ensures Pieces(s[cur..], d) == [s[cur..cur + k]] + Pieces(s[cur + k + |d|..], d)
  {
    var t := s[cur..];
    PiecesUnfold(t, d);
    Inside(s, cur, k, |d|);
    assert Pieces(t, d) == [t[..k]] + Pieces(t[k + |d|..], d);
  }

  lemma LastPiece(s: string, d: string, cur: nat)
    requires cur < |s| && d != ""
    ensures TakesFirst(s, d, cur, (|s|, |s|), [s[cur..]])
  {
    assert s[cur..|s|] == s[cur..];
  }

  lemma Inside(s: string, cur: nat, k: nat, n: nat)
    requires cur + k + n <= |s|
    ensures s[cur..][..k] == s[cur..cur + k] && s[cur..][k + n..] == s[cur + k + n..]
  {
  }

  lemma MatchedPiece(s: string, d: string, cur: nat, k: nat, others: seq<string>)
    requires cur + k + |d| <= |s| && d != ""
    requires others == Rest(s, d, cur + k + |d|, cur + k + |d| == |s|)
    ensures TakesFirst(s, d, cur, (cur + k, cur + k + |d|), [s[cur..cur + k]] + others)
  {
  }

  lemma PiecesUnfold(t: string, d: string)
    requires d != ""
    ensures var k := Search(t, d);
      Pieces(t, d) == if k == |t| then [t] else [t[..k]] + Pieces(t[k + |d|..], d)
  {
  }

  lemma RestIsPieces(s: string, d: string, cur: nat)
    requires cur <= |s| && d != ""
    ensures Rest(s, d, cur, cur == |s|) == Pieces(s[cur..], d)
  {
    PiecesUnfold("", d);
    assert cur == |s| ==> s[cur..] == "";
  }

  /** Joining what was split gives the text back, for every delimiter. */
  lemma {:induction false} JoinSplits(s: string, d: string)
    ensures Joined(d, Splits(s, d)) == s
  {
    if s == "" {
    } else if d == "" {
      JoinChars(s);
    } else {
      JoinPieces(s, d);
    }
  }

  lemma {:induction false} JoinChars(s: string)
    ensures Joined("", Chars(s)) == s
  {
    if s != "" {
      JoinChars(s[1..]);
      assert Chars(s)[1..] == Chars(s[1..]);
      assert s[..1] + "" + s[1..] == s;
      assert |s| == 1 ==> s[..1] == s;
    }
  }

  lemma {:induction false} JoinPieces(s: string, d: string)
    requires d != ""
    ensures Joined(d, Pieces(s, d)) == s
    decreases |s|
  {
    var k := Search(s, d);
    if k < |s| {
      JoinPieces(s[k + |d|..], d);
      JoinedCons(d, s[..k], Pieces(s[k + |d|..], d));
      AroundMatch(s, d, k);
    }
  }

  lemma JoinedCons(d: string, x: string, xs: seq<string>)
    requires xs != []
    ensures Joined(d, [x] + xs) == x + d + Joined(d, xs)
  {
    assert ([x] + xs)[1..] == xs;
  }

  lemma AroundMatch(s: string, d: string, k: nat)
    requires OccursAt(s, d, k)
    ensures s == s[..k] + d + s[k + |d|..]
  {
    assert s == s[..k] + s[k..k + |d|] + s[k + |d|..];
  }

  /** No split contains a non-empty delimiter. */
  lemma {:induction false} SplitsAreFree(s: string, d: string)
    requires d != ""
    ensures forall x | x in Splits(s, d) :: !Contains(x, d)
  {
    if s != "" {
      PiecesAreFree(s, d);
    }
  }

  lemma {:induction false} PiecesAreFree(s: string, d: string)
    requires d != ""
    ensures forall x | x in Pieces(s, d) :: !Contains(x, d)
    decreases |s|
  {
    var k := Search(s, d);
    if k < |s| {
      forall i: nat | i <= k && OccursAt(s[..k], d, i) ensures false {
        assert s[i..i + |d|] == s[..k][i..i + |d|];
        assert OccursAt(s, d, i);
      }
      PiecesAreFree(s[k + |d|..], d);
    }
  }

  /** d is met for the first time where xs[0] ends, then where xs[1] ends, ... */
  predicate Separable(xs: seq<string>, d: string)
    requires d != ""
  {
    if xs == [] then true
    else if |xs| == 1 then !Contains(xs[0], d)
    else Search(xs[0] + d, d) == |xs[0]| && Separable(xs[1..], d)
  }

  lemma SearchInPrefix(x: string, d: string, t: string)
    requires d != ""
    ensures Search(x + d + t, d) == Search(x + d, d)
  {
    var u, v := x + d + t, x + d;
    assert OccursAt(v, d, |x|);
    assert OccursAt(u, d, |x|);
    forall i: nat | i <= |x| ensures OccursAt(u, d, i) == OccursAt(v, d, i) {
      assert u[i..i + |d|] == v[i..i + |d|];
    }
    assert Search(v, d) <= |x| && Search(u, d) <= |x|;
    assert OccursAt(v, d, Search(v, d)) && OccursAt(u, d, Search(u, d));
  }

  /** Splitting undoes joining exactly for the separable lists that are not [""]. */
  lemma {:induction false} SplitsOfJoined(xs: seq<string>, d: string)
    requires d != ""
    ensures Splits(Joined(d, xs), d) == xs <==> xs != [""] && Separable(xs, d)
  {
    if xs != [] && Joined(d, xs) != "" {
      PiecesOfJoined(xs, d);
    }
  }

  lemma {:induction false} PiecesOfJoined(xs: seq<string>, d: string)
    requires d != "" && xs != []
    ensures Pieces(Joined(d, xs), d) == xs <==> Separable(xs, d)
  {
    var s := Joined(d, xs);
    var k := Search(s, d);
    if |xs| == 1 {
      if k < |s| {
        assert |Pieces(s, d)| > 1;
        assert Contains(s, d);
      }
    } else {
      var t := Joined(d, xs[1..]);
      SearchInPrefix(xs[0], d, t);
      assert OccursAt(xs[0] + d, d, |xs[0]|);
      assert k <= |xs[0]| < |s|;
      assert Pieces(s, d)[0] == s[..k];
      if k == |xs[0]| {
        assert s[..k] == xs[0] && s[k + |d|..] == t;
        PiecesOfJoined(xs[1..], d);
        assert Pieces(s, d)[1..] == Pieces(t, d);
        assert xs == [xs[0]] + xs[1..];
      } else {
        assert |s[..k]| != |xs[0]|;
      }
    }
  }
}
