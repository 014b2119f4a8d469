/** Writing numbers and bytes into a buffer through a moving position, as the writers of
    core/src/packet.cpp and core/src/value.cpp do on a little-endian machine. */
module ByteBuffers {
  import opened Values

  /** The `width` bytes a store of n occupies; higher bytes of n are dropped. */
  function LittleEndian(n: nat, width: nat): (r: seq<byte>)
    ensures |r| == width
  {
    if width == 0 then [] else [n % 0x100] + LittleEndian(n / 0x100, width - 1)
  }

  function Number(b: seq<byte>): nat {
    if b == [] then 0 else b[0] + 0x100 * Number(b[1..])
  }

  function Range(width: nat): (r: nat)
    ensures r > 0
  {
    if width == 0 then 1 else 0x100 * Range(width - 1)
  }

  /** Reading back what was stored gives the number modulo the width of the store. */
  lemma {:induction false} NumberStored(n: nat, width: nat)
    ensures Number(LittleEndian(n, width)) == n % Range(width)
  {
    if width > 0 {
      NumberStored(n / 0x100, width - 1);
      assert LittleEndian(n, width)[1..] == LittleEndian(n / 0x100, width - 1);
      ModuloByBytes(n, Range(width - 1));
    }
  }

  lemma ModuloByBytes(n: nat, m: nat)
    requires m > 0
    ensures n % 0x100 + 0x100 * ((n / 0x100) % m) == n % (0x100 * m)
  {
    var q := n / 0x100;
    var r := n % 0x100 + 0x100 * (q % m);
    assert n == 0x100 * q + n % 0x100;
    assert q == m * (q / m) + q % m;
    assert n == (0x100 * m) * (q / m) + r by {
      assert 0x100 * q == 0x100 * (m * (q / m)) + 0x100 * (q % m);
      assert 0x100 * (m * (q / m)) == (0x100 * m) * (q / m);
    }
    ModuloIs(n, 0x100 * m, q / m, r);
  }

  lemma ModuloIs(n: nat, m: nat, k: nat, r: nat)
    requires n == m * k + r && r < m
    ensures n % m == r
  {
    var d := k - n / m;
    assert m * d == n % m - r;
    Multiple(m, if d > 0 then d else -d);
    assert m * (-d) == -(m * d);
  }

  lemma {:induction false} Multiple(m: int, d: nat)
    requires m >= 0
    ensures d > 0 ==> m * d >= m
  {
    if d > 1 {
      Multiple(m, d - 1);
      assert m * d == m * (d - 1) + m;
    }
  }

  lemma {:induction false} NumberBound(b: seq<byte>)
    ensures Number(b) < Range(|b|)
  {
    if b != [] {
      NumberBound(b[1..]);
    }
  }

  lemma Ranges()
    ensures Range(2) == 0x1_0000 && Range(4) == 0x1_0000_0000 && Range(8) == 0x1_0000_0000_0000_0000
  {
    assert Range(1) == 0x100;
    assert Range(2) == 0x1_0000;
    assert Range(3) == 0x100_0000;
    assert Range(4) == 0x1_0000_0000;
    assert Range(5) == 0x100_0000_0000;
    assert Range(6) == 0x1_0000_0000_0000;
    assert Range(7) == 0x100_0000_0000_0000;
  }

  lemma Stored(n: nat, width: nat)
    requires n < Range(width)
    ensures Number(LittleEndian(n, width)) == n
  {
    NumberStored(n, width);
    ModuloIs(n, Range(width), 0, n);
  }

  /** s holds n from position `at` on, lowest byte first, in `width` bytes. */
  ghost predicate HoldsNumber(s: seq<byte>, at: nat, width: nat, n: nat) {
    && at + width <= |s|
    && (width > 0 ==> s[at] == n % 0x100)
    && (width > 1 ==> s[at + 1] == n / 0x100 % 0x100)
    && (width > 2 ==> s[at + 2] == n / 0x1_0000 % 0x100)
    && (width > 3 ==> s[at + 3] == n / 0x100_0000 % 0x100)
    && (width > 4 ==> s[at + 4] == n / 0x1_0000_0000 % 0x100)
    && (width > 5 ==> s[at + 5] == n / 0x100_0000_0000 % 0x100)
    && (width > 6 ==> s[at + 6] == n / 0x1_0000_0000_0000 % 0x100)
    && (width > 7 ==> s[at + 7] == n / 0x100_0000_0000_0000 % 0x100)
  }

  /** A store of two, four or eight bytes, lowest byte first. */
  lemma StoreIsLittleEndian(before: seq<byte>, n: nat, width: nat, after: seq<byte>)
    requires width in {2, 4, 8}
    ensures HoldsNumber(before + LittleEndian(n, width) + after, |before|, width, n)
  {
    var b, s := LittleEndian(n, width), before + LittleEndian(n, width) + after;
    forall k | 0 <= k < width ensures s[|before| + k] == b[k] && b[k] == n / Range(k) % 0x100 {
      ByteAt(n, width, k);
    }
    assert Range(1) == 0x100;
    Ranges();
    assert Range(3) == 0x100_0000;
    assert Range(5) == 0x100_0000_0000;
    assert Range(6) == 0x1_0000_0000_0000;
    assert Range(7) == 0x100_0000_0000_0000;
  }

  lemma {:induction false} ByteAt(n: nat, width: nat, k: nat)
    requires k < width
    ensures LittleEndian(n, width)[k] == n / Range(k) % 0x100
  {
    if k > 0 {
      ByteAt(n / 0x100, width - 1, k - 1);
      DivideTwice(n, Range(k - 1));
    }
  }

  lemma DivideTwice(n: nat, m: nat)
    requires m > 0
    ensures n / 0x100 / m == n / (0x100 * m)
  {
    var q := n / 0x100;
    var k := q / m;
    var r := 0x100 * (q % m) + n % 0x100;
    assert n == (0x100 * m) * k + r by {
      assert q == m * k + q % m;
      assert 0x100 * (m * k) == (0x100 * m) * k;
    }
    assert r < 0x100 * m;
    ModuloIs(n, 0x100 * m, k, r);
    QuotientIs(n, 0x100 * m, k, r);
  }

  lemma QuotientIs(n: nat, m: nat, k: nat, r: nat)
    requires n == m * k + r && r < m && n % m == r
    ensures n / m == k
  {
    var d := n / m - k;
    assert m * d == 0;
    Multiple(m, if d > 0 then d else -d);
    assert m * (-d) == -(m * d);
  }

  /** Writes b at position `at` and returns the position behind it. */
  method Put(rv: array<byte>, at: nat, b: seq<byte>) returns (next: nat)
    requires at + |b| <= rv.Length
    modifies rv
    ensures next == at + |b|
    ensures rv[..next] == old(rv[..at]) + b
    ensures forall k | next <= k < rv.Length :: rv[k] == old(rv[k])
  {
    next := at + |b|;
    for k := 0 to |b|
      invariant rv[..at + k] == old(rv[..at]) + b[..k]
      invariant forall i | at + k <= i < rv.Length :: rv[i] == old(rv[i])
    {
      ghost var before := rv[..];
      rv[at + k] := b[k];
      assert rv[..at + k + 1] == before[..at + k] + [b[k]];
    }
    assert b[..|b|] == b;
  }

  /** A piece of a concatenation, at its offset. */
  lemma PieceAt<T>(a: seq<T>, b: seq<T>, c: seq<T>)
    ensures (a + b + c)[|a|..|a| + |b|] == b
    ensures (a + b + c)[|a| + |b|..] == c
  {
  }
}
