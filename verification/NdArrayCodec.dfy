/** The binary form of an ndarray: ndarray_t::to_nlohmann_json and from_nlohmann_json of
    core/src/value.cpp. */
module NdArrayCodec {
  import opened Values
  import opened ByteBuffers

  function DimBytes(shape: seq<uint64>): (r: seq<byte>)
    ensures |r| == 4 * |shape|
  {
    if shape == [] then [] else DimBytes(shape[..|shape| - 1]) + LittleEndian(shape[|shape| - 1], 4)
  }

  function DtypeBytes(dtype: DLDataType): (r: seq<byte>)
    ensures |r| == 4
  {
    [dtype.code, dtype.bits] + LittleEndian(dtype.lanes, 2)
  }

  function NdBytes(shape: seq<uint64>, dtype: DLDataType, data: seq<byte>): seq<byte> {
    LittleEndian(|shape|, 4) + DimBytes(shape) + DtypeBytes(dtype) + LittleEndian(|data|, 8) + data
  }

  /** The writer fills exactly the bytes it computed beforehand. */
  method WriteNdArray(shape: seq<uint64>, dtype: DLDataType, data: seq<byte>) returns (rv: array<byte>)
    ensures fresh(rv) && rv[..] == NdBytes(shape, dtype, data)
  {
    var nbytes := 4 + 4 * |shape| + 4 + 8 + |data|;
    rv := new byte[nbytes](i => 0);
    var it := Put(rv, 0, LittleEndian(|shape|, 4));
    for i := 0 to |shape|
      invariant it == 4 + 4 * i && rv[..it] == LittleEndian(|shape|, 4) + DimBytes(shape[..i])
    {
      it := Put(rv, it, LittleEndian(shape[i], 4));
      assert shape[..i + 1][..i] == shape[..i];
    }
    assert shape[..|shape|] == shape;
    it := Put(rv, it, DtypeBytes(dtype));
    it := Put(rv, it, LittleEndian(|data|, 8));
    it := Put(rv, it, data);
    assert it == nbytes && rv[..it] == rv[..];
  }

  function DimAt(j: seq<byte>, i: nat): (r: uint32)
    requires 8 + 4 * i <= |j|
  {
    NumberBound(j[4 + 4 * i..8 + 4 * i]);
    Ranges();
    Number(j[4 + 4 * i..8 + 4 * i])
  }

  function DtypeAt(j: seq<byte>, at: nat): DLDataType
    requires at + 4 <= |j|
  {
    NumberBound(j[at + 2..at + 4]);
    Ranges();
    DLDataType(j[at], j[at + 1], Number(j[at + 2..at + 4]))
  }

  /** Whether the reader stays inside its input. */
  predicate Readable(j: seq<byte>) {
    |j| >= 4 &&
    var at := 4 + 4 * Number(j[..4]);
    at + 12 <= |j| && at + 12 + Number(j[at + 4..at + 12]) <= |j|
  }

  /** What the reader makes of j. */
  function Parsed(j: seq<byte>): (r: Value)
    requires Readable(j)
    ensures r.NdArray?
  {
    var rank := Number(j[..4]);
    var at := 4 + 4 * rank;
    NdArray(seq(rank, i requires 0 <= i < rank => DimAt(j, i)), DtypeAt(j, at),
            j[at + 12..at + 12 + Number(j[at + 4..at + 12])])
  }

  method ReadNdArray(j: seq<byte>) returns (rv: Value)
    requires Readable(j)
    ensures rv == Parsed(j)
  {
    var rank := Number(j[..4]);
    var it, shape: seq<uint64> := 4, [];
    for i := 0 to rank
      invariant it == 4 + 4 * i && |shape| == i
      invariant forall k | 0 <= k < i :: shape[k] == DimAt(j, k)
    {
      shape := shape + [DimAt(j, i)];
      it := it + 4;
    }
    var dtype := DtypeAt(j, it);
    it := it + 4;
    var len := Number(j[it..it + 8]);
    it := it + 8;
    rv := NdArray(shape, dtype, j[it..it + len]);
  }

  // -------------------------------------------------------------- round trip

  ghost predicate NdFits(shape: seq<uint64>, data: seq<byte>) {
    && |shape| < 0x1_0000_0000 && |data| < 0x1_0000_0000_0000_0000
    && forall k | 0 <= k < |shape| :: shape[k] < 0x1_0000_0000
  }

  /** From position `at` on, s holds the dimensions, four bytes each. */
  ghost predicate HoldsDims(s: seq<byte>, at: nat, shape: seq<uint64>) {
    && at + 4 * |shape| <= |s|
    && forall k | 0 <= k < |shape| :: DimIn(s, at, k) == LittleEndian(shape[k], 4)
  }

  ghost function DimIn(s: seq<byte>, at: nat, k: nat): seq<byte>
    requires at + 4 * k + 4 <= |s|
  {
    s[at + 4 * k..at + 4 * k + 4]
  }

  lemma {:induction false} DimsStored(shape: seq<uint64>)
    ensures HoldsDims(DimBytes(shape), 0, shape)
  {
    if shape != [] {
      var n := |shape| - 1;
      DimsStored(shape[..n]);
      OneMoreDim(DimBytes(shape[..n]), shape[..n], shape[n]);
      assert shape == shape[..n] + [shape[n]];
    }
  }

  lemma OneMoreDim(s: seq<byte>, shape: seq<uint64>, dim: uint64)
    requires HoldsDims(s, 0, shape) && |s| == 4 * |shape|
    ensures HoldsDims(s + LittleEndian(dim, 4), 0, shape + [dim])
  {
    var all := shape + [dim];
    forall k | 0 <= k < |all| ensures DimIn(s + LittleEndian(dim, 4), 0, k) == LittleEndian(all[k], 4) {
      if k < |shape| {
        DimKept(s, LittleEndian(dim, 4), k);
      } else {
        DimAppended(s, LittleEndian(dim, 4), k);
      }
    }
  }

  lemma DimKept(s: seq<byte>, word: seq<byte>, k: nat)
    requires 4 * k + 4 <= |s|
    ensures DimIn(s + word, 0, k) == DimIn(s, 0, k)
  {
  }

  lemma DimAppended(s: seq<byte>, word: seq<byte>, k: nat)
    requires |s| == 4 * k && |word| == 4
    ensures DimIn(s + word, 0, k) == word
  {
  }

  lemma DimsInside(before: seq<byte>, s: seq<byte>, after: seq<byte>, shape: seq<uint64>)
    requires HoldsDims(s, 0, shape)
    ensures HoldsDims(before + s + after, |before|, shape)
  {
    var j := before + s + after;
    forall k | 0 <= k < |shape| ensures DimIn(j, |before|, k) == LittleEndian(shape[k], 4) {
      assert DimIn(j, |before|, k) == DimIn(s, 0, k);
    }
  }

  lemma DtypeStored(before: seq<byte>, dtype: DLDataType, after: seq<byte>)
    ensures DtypeAt(before + DtypeBytes(dtype) + after, |before|) == dtype
  {
    var j, at := before + DtypeBytes(dtype) + after, |before|;
    Ranges();
    Stored(dtype.lanes, 2);
    assert j[at + 2..at + 4] == LittleEndian(dtype.lanes, 2);
  }

  /** Where the parts of the written bytes are. */
  ghost predicate HasParts(j: seq<byte>, shape: seq<uint64>, dtype: DLDataType, data: seq<byte>) {
    var at := 4 + 4 * |shape|;
    && |j| == at + 12 + |data|
    && j[..4] == LittleEndian(|shape|, 4)
    && HoldsDims(j, 4, shape)
    && DtypeAt(j, at) == dtype
    && j[at + 4..at + 12] == LittleEndian(|data|, 8)
    && j[at + 12..] == data
  }

  lemma Parts(shape: seq<uint64>, dtype: DLDataType, data: seq<byte>)
    ensures HasParts(NdBytes(shape, dtype, data), shape, dtype, data)
  {
    var head, len := LittleEndian(|shape|, 4) + DimBytes(shape), LittleEndian(|data|, 8);
    var j := NdBytes(shape, dtype, data);
    assert j == head + DtypeBytes(dtype) + (len + data);
    DtypeStored(head, dtype, len + data);
    PieceAt(head + DtypeBytes(dtype), len, data);
    DimsStored(shape);
    DimsInside(LittleEndian(|shape|, 4), DimBytes(shape), DtypeBytes(dtype) + len + data, shape);
    assert j == LittleEndian(|shape|, 4) + DimBytes(shape) + (DtypeBytes(dtype) + len + data);
  }

  /** Where everything is in the written bytes: the rank in four bytes, each dimension in four, one
      byte for the type code, one for the bits, two for the lanes, the byte count in eight, the
      data. */
  lemma NdLayout(shape: seq<uint64>, dtype: DLDataType, data: seq<byte>)
    ensures var j, at := NdBytes(shape, dtype, data), 4 + 4 * |shape|;
      && |j| == at + 12 + |data| && HoldsNumber(j, 0, 4, |shape|)
      && (forall k | 0 <= k < |shape| :: HoldsNumber(j, 4 + 4 * k, 4, shape[k]))
      && j[at] == dtype.code && j[at + 1] == dtype.bits && HoldsNumber(j, at + 2, 2, dtype.lanes)
      && HoldsNumber(j, at + 4, 8, |data|) && j[at + 12..] == data
  {
    var j, at := NdBytes(shape, dtype, data), 4 + 4 * |shape|;
    Parts(shape, dtype, data);
    NumberHere(j, 0, 4, |shape|);
    forall k | 0 <= k < |shape| ensures HoldsNumber(j, 4 + 4 * k, 4, shape[k]) {
      assert DimIn(j, 4, k) == LittleEndian(shape[k], 4);
      NumberHere(j, 4 + 4 * k, 4, shape[k]);
    }
    DtypeHere(shape, dtype, data);
    NumberHere(j, at + 4, 8, |data|);
  }

  lemma DtypeHere(shape: seq<uint64>, dtype: DLDataType, data: seq<byte>)
    ensures var j, at := NdBytes(shape, dtype, data), 4 + 4 * |shape|;
      at + 4 <= |j| && j[at] == dtype.code && j[at + 1] == dtype.bits && HoldsNumber(j, at + 2, 2, dtype.lanes)
  {
    var head, len := LittleEndian(|shape|, 4) + DimBytes(shape), LittleEndian(|data|, 8);
    var j := NdBytes(shape, dtype, data);
    assert j == head + [dtype.code, dtype.bits] + LittleEndian(dtype.lanes, 2) + (len + data);
    StoreIsLittleEndian(head + [dtype.code, dtype.bits], dtype.lanes, 2, len + data);
  }

  lemma NumberHere(s: seq<byte>, at: nat, width: nat, n: nat)
    requires width in {2, 4, 8} && at + width <= |s| && s[at..at + width] == LittleEndian(n, width)
    ensures HoldsNumber(s, at, width, n)
  {
    StoreIsLittleEndian(s[..at], n, width, s[at + width..]);
    assert s == s[..at] + LittleEndian(n, width) + s[at + width..];
  }

  /** Reading what was written gives the array back exactly when rank, dimensions and byte
      count fit the fields they are stored in. */
  lemma NdRoundTrip(shape: seq<uint64>, dtype: DLDataType, data: seq<byte>)
    ensures var j := NdBytes(shape, dtype, data);
      Readable(j) && Parsed(j) == NdArray(shape, dtype, data) <==> NdFits(shape, data)
  {
    var j := NdBytes(shape, dtype, data);
    if NdFits(shape, data) {
      NdComesBack(shape, dtype, data);
    }
    if Readable(j) && Parsed(j) == NdArray(shape, dtype, data) {
      ParsedFits(j);
    }
  }

  lemma ParsedFits(j: seq<byte>)
    requires Readable(j)
    ensures NdFits(Parsed(j).shape, Parsed(j).data)
  {
    Ranges();
    var at := 4 + 4 * Number(j[..4]);
    NumberBound(j[..4]);
    NumberBound(j[at + 4..at + 12]);
  }

  lemma NdComesBack(shape: seq<uint64>, dtype: DLDataType, data: seq<byte>)
    requires NdFits(shape, data)
    ensures var j := NdBytes(shape, dtype, data); Readable(j) && Parsed(j) == NdArray(shape, dtype, data)
  {
    Parts(shape, dtype, data);
    ReadsBack(NdBytes(shape, dtype, data), shape, dtype, data);
  }

  lemma ReadsBack(j: seq<byte>, shape: seq<uint64>, dtype: DLDataType, data: seq<byte>)
    requires HasParts(j, shape, dtype, data) && NdFits(shape, data)
    ensures Readable(j) && Parsed(j) == NdArray(shape, dtype, data)
  {
    CountsReadBack(|shape|, |data|);
    DimsReadBack(j, shape);
    ParsedFrom(j, shape, dtype, data);
  }

  lemma ParsedFrom(j: seq<byte>, shape: seq<uint64>, dtype: DLDataType, data: seq<byte>)
    requires var at := 4 + 4 * |shape|;
      && |j| == at + 12 + |data| && Number(j[..4]) == |shape|
      && (forall i: nat | i < |shape| :: DimAt(j, i) == shape[i])
      && DtypeAt(j, at) == dtype && Number(j[at + 4..at + 12]) == |data| && j[at + 12..] == data
    ensures Readable(j) && Parsed(j) == NdArray(shape, dtype, data)
  {
    var p := Parsed(j);
    assert p.shape == shape;
    assert j[4 + 4 * |shape| + 12..|j|] == data;
  }

  lemma CountsReadBack(rank: nat, len: nat)
    requires rank < 0x1_0000_0000 && len < 0x1_0000_0000_0000_0000
    ensures Number(LittleEndian(rank, 4)) == rank && Number(LittleEndian(len, 8)) == len
  {
    Ranges();
    Stored(rank, 4);
    Stored(len, 8);
  }

  lemma DimsReadBack(j: seq<byte>, shape: seq<uint64>)
    requires HoldsDims(j, 4, shape) && forall k | 0 <= k < |shape| :: shape[k] < 0x1_0000_0000
    ensures forall i: nat | i < |shape| :: DimAt(j, i) == shape[i]
  {
    forall i: nat | i < |shape| ensures DimAt(j, i) == shape[i] {
      assert DimIn(j, 4, i) == LittleEndian(shape[i], 4);
      CountsReadBack(shape[i], 0);
    }
  }
}
