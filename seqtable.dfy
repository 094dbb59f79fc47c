/**
 * Feature tables of `src/asn/seqtable.rs` (NCBI seqtable.asn): a table is
 * a list of columns, and a column's rows come from its data, a sparse
 * index that says which rows have data, and the default values for the
 * rest. This module gives each encoding of row data and of the sparse
 * index its meaning and proves the encodings agree.
 */
module SeqTable {
  import opened Wrappers
  import opened Bytes
  import opened General
  import opened Collections
  import opened SeqLoc

  /** `ColumnInfoFieldId`: the known column data types, `#[repr(u8)]`. */
  datatype ColumnInfoFieldId =
    | Location
    | LocationId
    | LocationGi
    | LocationFrom
    | LocationTo
    | LocationStrand
    | LocationFuzzFromLim
    | LocationFuzzToLim
    | Product
    | ProductId
    | ProductGi
    | ProductFrom
    | ProductTo
    | ProductStrand
    | ProductFuzzFromLim
    | ProductFuzzToLim
    | IdLocal
    | XrefIdLocal
    | Partial
    | Comment
    | Title
    | Ext
    | Qual
    | DbXref
    | DataImpKey
    | DataRegion
    | DataCdregionFrame
    | ExtType
    | QualQual
    | QualVal
    | DbxrefDb
    | DbxrefTag

  /** The discriminant each variant serialises as. */
  function ColumnInfoFieldIdCode(x: ColumnInfoFieldId): (c: int)
    ensures 0 <= c < 256
    ensures 0 <= c <= 31
  {
    match x
    case Location => 0
    case LocationId => 1
    case LocationGi => 2
    case LocationFrom => 3
    case LocationTo => 4
    case LocationStrand => 5
    case LocationFuzzFromLim => 6
    case LocationFuzzToLim => 7
    case Product => 8
    case ProductId => 9
    case ProductGi => 10
    case ProductFrom => 11
    case ProductTo => 12
    case ProductStrand => 13
    case ProductFuzzFromLim => 14
    case ProductFuzzToLim => 15
    case IdLocal => 16
    case XrefIdLocal => 17
    case Partial => 18
    case Comment => 19
    case Title => 20
    case Ext => 21
    case Qual => 22
    case DbXref => 23
    case DataImpKey => 24
    case DataRegion => 25
    case DataCdregionFrame => 26
    case ExtType => 27
    case QualQual => 28
    case QualVal => 29
    case DbxrefDb => 30
    case DbxrefTag => 31
  }

  /** The variant with discriminant `c`, if there is one. */
  function ColumnInfoFieldIdFromCode(c: int): (r: Option<ColumnInfoFieldId>)
    ensures r.Some? <==> (0 <= c <= 31)
    ensures r.Some? ==> ColumnInfoFieldIdCode(r.value) == c
  {
    if c < 10 then ColumnInfoFieldIdFromCode0(c)
    else if c < 20 then ColumnInfoFieldIdFromCode1(c)
    else if c < 30 then ColumnInfoFieldIdFromCode2(c)
    else ColumnInfoFieldIdFromCode3(c)
  }

  function ColumnInfoFieldIdFromCode0(c: int): (r: Option<ColumnInfoFieldId>)
    ensures r.Some? <==> (0 <= c <= 9)
    ensures r.Some? ==> ColumnInfoFieldIdCode(r.value) == c
  {
    if c == 0 then Some(ColumnInfoFieldId.Location)
    else if c == 1 then Some(ColumnInfoFieldId.LocationId)
    else if c == 2 then Some(ColumnInfoFieldId.LocationGi)
    else if c == 3 then Some(ColumnInfoFieldId.LocationFrom)
    else if c == 4 then Some(ColumnInfoFieldId.LocationTo)
    else if c == 5 then Some(ColumnInfoFieldId.LocationStrand)
    else if c == 6 then Some(ColumnInfoFieldId.LocationFuzzFromLim)
    else if c == 7 then Some(ColumnInfoFieldId.LocationFuzzToLim)
    else if c == 8 then Some(ColumnInfoFieldId.Product)
    else if c == 9 then Some(ColumnInfoFieldId.ProductId)
    else None
  }

  function ColumnInfoFieldIdFromCode1(c: int): (r: Option<ColumnInfoFieldId>)
    ensures r.Some? <==> (10 <= c <= 19)
    ensures r.Some? ==> ColumnInfoFieldIdCode(r.value) == c
  {
    if c == 10 then Some(ColumnInfoFieldId.ProductGi)
    else if c == 11 then Some(ColumnInfoFieldId.ProductFrom)
    else if c == 12 then Some(ColumnInfoFieldId.ProductTo)
    else if c == 13 then Some(ColumnInfoFieldId.ProductStrand)
    else if c == 14 then Some(ColumnInfoFieldId.ProductFuzzFromLim)
    else if c == 15 then Some(ColumnInfoFieldId.ProductFuzzToLim)
    else if c == 16 then Some(ColumnInfoFieldId.IdLocal)
    else if c == 17 then Some(ColumnInfoFieldId.XrefIdLocal)
    else if c == 18 then Some(ColumnInfoFieldId.Partial)
    else if c == 19 then Some(ColumnInfoFieldId.Comment)
    else None
  }

  function ColumnInfoFieldIdFromCode2(c: int): (r: Option<ColumnInfoFieldId>)
    ensures r.Some? <==> (20 <= c <= 29)
    ensures r.Some? ==> ColumnInfoFieldIdCode(r.value) == c
  {
    if c == 20 then Some(ColumnInfoFieldId.Title)
    else if c == 21 then Some(ColumnInfoFieldId.Ext)
    else if c == 22 then Some(ColumnInfoFieldId.Qual)
    else if c == 23 then Some(ColumnInfoFieldId.DbXref)
    else if c == 24 then Some(ColumnInfoFieldId.DataImpKey)
    else if c == 25 then Some(ColumnInfoFieldId.DataRegion)
    else if c == 26 then Some(ColumnInfoFieldId.DataCdregionFrame)
    else if c == 27 then Some(ColumnInfoFieldId.ExtType)
    else if c == 28 then Some(ColumnInfoFieldId.QualQual)
    else if c == 29 then Some(ColumnInfoFieldId.QualVal)
    else None
  }

  function ColumnInfoFieldIdFromCode3(c: int): (r: Option<ColumnInfoFieldId>)
    ensures r.Some? <==> (c == 30 || c == 31)
    ensures r.Some? ==> ColumnInfoFieldIdCode(r.value) == c
  {
    if c == 30 then Some(ColumnInfoFieldId.DbxrefDb)
    else if c == 31 then Some(ColumnInfoFieldId.DbxrefTag)
    else None
  }

  /** Decoding the discriminant of a variant gives the variant back, so the codes are distinct. */
  lemma ColumnInfoFieldIdRoundTrip(x: ColumnInfoFieldId)
    ensures ColumnInfoFieldIdFromCode(ColumnInfoFieldIdCode(x)) == Some(x)
  {
  }

  lemma ColumnInfoFieldIdCodeInjective(x: ColumnInfoFieldId, y: ColumnInfoFieldId)
    ensures ColumnInfoFieldIdCode(x) == ColumnInfoFieldIdCode(y) ==> x == y
  {
    ColumnInfoFieldIdRoundTrip(x);
    ColumnInfoFieldIdRoundTrip(y);
  }


  /** `SeqTableColumnInfo`. */
  datatype SeqTableColumnInfo = SeqTableColumnInfo(title: Option<string>, fieldId: Option<ColumnInfoFieldId>, fieldName: Option<string>)

  // Common tables: a small list of values and, per row, the index of its value.

  /** Every index names one of `n` values. */
  predicate IndexesIn(indexes: seq<nat>, n: nat)
  {
    forall i :: 0 <= i < |indexes| ==> indexes[i] < n
  }

  /** The rows of a common table: row i holds the value its index names. */
  function Expand<T>(values: seq<T>, indexes: seq<nat>): (rows: seq<T>)
    requires IndexesIn(indexes, |values|)
    ensures |rows| == |indexes|
    ensures forall i :: 0 <= i < |rows| ==> rows[i] == values[indexes[i]]
  {
    seq(|indexes|, i requires 0 <= i < |indexes| => values[indexes[i]])
  }

  /** The first position of `x` in `xs`. */
  function Position<T(==)>(xs: seq<T>, x: T): (k: nat)
    requires x in xs
    ensures k < |xs| && xs[k] == x
    ensures forall j :: 0 <= j < k ==> xs[j] != x
  {
    if xs[0] == x then 0 else 1 + Position(xs[1..], x)
  }

  /**
   * A common table for the given rows: each distinct value listed once, in
   * order of first appearance, and one index per row.
   */
  function Intern<T(==,!new)>(rows: seq<T>): (t: (seq<T>, seq<nat>))
    ensures IndexesIn(t.1, |t.0|)
    ensures NoDuplicates(t.0)
    ensures forall x :: x in t.0 <==> x in rows
    decreases |rows|
  {
    if |rows| == 0 then ([], [])
    else
      var t := Intern(rows[..|rows| - 1]);
      var x := rows[|rows| - 1];
      if x in t.0 then (t.0, t.1 + [Position(t.0, x)])
      else (t.0 + [x], t.1 + [|t.0|])
  }

  /** Expanding an interned table gives the rows back. */
  lemma {:induction false} ExpandIntern<T(!new)>(rows: seq<T>)
    ensures Expand(Intern(rows).0, Intern(rows).1) == rows
    decreases |rows|
  {
    if |rows| > 0 {
      var front := rows[..|rows| - 1];
      ExpandIntern(front);
      var t := Intern(front);
      var u := Intern(rows);
      var e := Expand(u.0, u.1);
      assert |e| == |rows|;
      forall i | 0 <= i < |rows| ensures e[i] == rows[i] {
        if i < |rows| - 1 {
          assert u.1[i] == t.1[i];
          assert u.0[u.1[i]] == t.0[t.1[i]];
          assert Expand(t.0, t.1)[i] == front[i];
        }
      }
    }
  }

  // Bits: a column of booleans or a set of rows, most significant bit first.

  /** Bit k of an octet, counting from the most significant (the bit worth 2 to the power 7 - k). */
  predicate OctetBit(x: bv8, k: nat)
    requires k < 8
  {
    if k == 0 then x & 0x80 != 0
    else if k == 1 then x & 0x40 != 0
    else if k == 2 then x & 0x20 != 0
    else if k == 3 then x & 0x10 != 0
    else if k == 4 then x & 0x08 != 0
    else if k == 5 then x & 0x04 != 0
    else if k == 6 then x & 0x02 != 0
    else x & 0x01 != 0
  }

  /** Row r of a bit list: bit r mod 8 of octet r div 8. */
  predicate BitAt(octets: seq<bv8>, r: nat)
    requires r < 8 * |octets|
  {
    OctetBit(octets[r / 8], r % 8)
  }

  /** The octet of eight bits, the first the most significant. */
  function OctetOfBits(bits: seq<bool>): (x: bv8)
    requires |bits| == 8
    ensures OctetBit(x, 0) == bits[0] && OctetBit(x, 1) == bits[1]
    ensures OctetBit(x, 2) == bits[2] && OctetBit(x, 3) == bits[3]
    ensures OctetBit(x, 4) == bits[4] && OctetBit(x, 5) == bits[5]
    ensures OctetBit(x, 6) == bits[6] && OctetBit(x, 7) == bits[7]
  {
    (if bits[0] then 0x80 else 0) | (if bits[1] then 0x40 else 0)
    | (if bits[2] then 0x20 else 0) | (if bits[3] then 0x10 else 0)
    | (if bits[4] then 0x08 else 0) | (if bits[5] then 0x04 else 0)
    | (if bits[6] then 0x02 else 0) | (if bits[7] then 0x01 else 0)
  }

  /** The eight bits of an octet, most significant first. */
  function OctetBits(x: bv8): (bits: seq<bool>)
    ensures |bits| == 8 && forall k :: 0 <= k < 8 ==> bits[k] == OctetBit(x, k)
  {
    seq(8, k requires 0 <= k < 8 => OctetBit(x, k))
  }

  /** Splitting an octet into bits and packing them again gives it back. */
  lemma OctetBitsRoundTrip(x: bv8)
    ensures OctetOfBits(OctetBits(x)) == x
  {
    var b := OctetBits(x);
    assert b == [OctetBit(x, 0), OctetBit(x, 1), OctetBit(x, 2), OctetBit(x, 3),
                 OctetBit(x, 4), OctetBit(x, 5), OctetBit(x, 6), OctetBit(x, 7)];
  }

  /** Packing eight bits into an octet and splitting it again gives them back. */
  lemma OctetOfBitsRoundTrip(bits: seq<bool>)
    requires |bits| == 8
    ensures OctetBits(OctetOfBits(bits)) == bits
  {
    var c := OctetBits(OctetOfBits(bits));
    forall k | 0 <= k < 8 ensures c[k] == bits[k] {
      if k == 0 {} else if k == 1 {} else if k == 2 {} else if k == 3 {}
      else if k == 4 {} else if k == 5 {} else if k == 6 {} else {}
    }
  }

  /** The bits of a bit list, one per row. */
  function Bits(octets: seq<bv8>): (bits: seq<bool>)
    ensures |bits| == 8 * |octets|
  {
    if |octets| == 0 then [] else OctetBits(octets[0]) + Bits(octets[1..])
  }

  /** Row r of the bits is bit r mod 8 of octet r div 8, most significant first. */
  lemma {:induction false} BitsAt(octets: seq<bv8>, r: nat)
    requires r < 8 * |octets|
    ensures Bits(octets)[r] == BitAt(octets, r)
  {
    if r >= 8 {
      BitsAt(octets[1..], r - 8);
      assert (r - 8) / 8 == r / 8 - 1 && (r - 8) % 8 == r % 8;
    }
  }

  /** The bit list of the given rows' bits, the last octet padded with clear bits. */
  function OctetsOfBits(bits: seq<bool>): (octets: seq<bv8>)
    ensures |octets| == (|bits| + 7) / 8
  {
    if |bits| == 0 then []
    else if |bits| < 8 then [OctetOfBits(bits + seq(8 - |bits|, _ => false))]
    else [OctetOfBits(bits[..8])] + OctetsOfBits(bits[8..])
  }

  /** Packing bits and reading them back gives the bits, followed by clear padding. */
  lemma {:induction false} BitsOfOctets(bits: seq<bool>)
    ensures var b := Bits(OctetsOfBits(bits));
      |bits| <= |b| < |bits| + 8 && b[..|bits|] == bits
      && forall r :: |bits| <= r < |b| ==> !b[r]
  {
    var o := OctetsOfBits(bits);
    if 0 < |bits| < 8 {
      var padded := bits + seq(8 - |bits|, _ => false);
      OctetOfBitsRoundTrip(padded);
      assert Bits(o) == OctetBits(o[0]) + Bits([]);
      assert Bits(o) == padded;
    } else if |bits| >= 8 {
      BitsOfOctets(bits[8..]);
      OctetOfBitsRoundTrip(bits[..8]);
      assert o[1..] == OctetsOfBits(bits[8..]);
      assert Bits(o) == bits[..8] + Bits(OctetsOfBits(bits[8..]));
      assert bits == bits[..8] + bits[8..];
    }
  }

  /** Reading a bit list and packing the bits again gives the octets back. */
  lemma {:induction false} OctetsOfBitsOfOctets(octets: seq<bv8>)
    ensures OctetsOfBits(Bits(octets)) == octets
  {
    if |octets| > 0 {
      var b := Bits(octets);
      OctetsOfBitsOfOctets(octets[1..]);
      OctetBitsRoundTrip(octets[0]);
      assert b[..8] == OctetBits(octets[0]);
      assert b[8..] == Bits(octets[1..]);
      assert octets == [octets[0]] + octets[1..];
    }
  }

  /** The number of set bits. */
  function CountTrue(bits: seq<bool>): nat
  {
    if |bits| == 0 then 0 else CountTrue(bits[..|bits| - 1]) + (if bits[|bits| - 1] then 1 else 0)
  }

  /** The rows whose bit is set, in increasing order. */
  function SetRows(bits: seq<bool>): (rows: seq<nat>)
    ensures |rows| == CountTrue(bits)
    ensures forall i :: 0 <= i < |rows| ==> rows[i] < |bits| && bits[rows[i]]
    ensures forall r :: 0 <= r < |bits| && bits[r] ==> r in rows
    ensures forall i, j :: 0 <= i < j < |rows| ==> rows[i] < rows[j]
  {
    if |bits| == 0 then []
    else
      var front := bits[..|bits| - 1];
      var rows := SetRows(front);
      assert forall r :: 0 <= r < |front| ==> front[r] == bits[r];
      if bits[|bits| - 1] then rows + [|bits| - 1] else rows
  }

  /** A set row is listed in position `k` of the sparse index, where `k` counts the set rows before it. */
  lemma {:induction false} SetRowsPosition(bits: seq<bool>, r: nat)
    requires r < |bits| && bits[r]
    ensures r in SetRows(bits) && Position(SetRows(bits), r) == CountTrue(bits[..r])
    decreases |bits|
  {
    var front := bits[..|bits| - 1];
    if r < |bits| - 1 {
      SetRowsPosition(front, r);
      assert front[..r] == bits[..r];
      var rows := SetRows(front);
      var p := Position(rows, r);
      var all := SetRows(bits);
      assert all[..|rows|] == rows;
      assert all[p] == r;
      forall j | 0 <= j < p ensures all[j] != r {
        assert all[j] == rows[j];
      }
      PositionIs(all, r, p);
    } else {
      assert front == bits[..r];
      var all := SetRows(bits);
      var rows := SetRows(front);
      assert all == rows + [r];
      forall j | 0 <= j < |rows| ensures all[j] != r {
        assert rows[j] < |front|;
      }
      PositionIs(all, r, |rows|);
    }
  }

  /** The first position of `x` is the `k` where it occurs with no earlier occurrence. */
  lemma {:induction false} PositionIs<T>(xs: seq<T>, x: T, k: nat)
    requires k < |xs| && xs[k] == x && forall j :: 0 <= j < k ==> xs[j] != x
    ensures x in xs && Position(xs, x) == k
  {
    if k > 0 {
      PositionIs(xs[1..], x, k - 1);
    }
  }

  // Delta encoding: each entry is the difference from the previous one.

  /** Running sums: the decoded list of a delta-encoded one. */
  function DeltaDecode(ds: seq<int>): (xs: seq<int>)
    ensures |xs| == |ds|
    ensures |ds| > 0 ==> xs[0] == ds[0]
    ensures forall i :: 0 < i < |xs| ==> xs[i] == xs[i - 1] + ds[i]
  {
    if |ds| == 0 then []
    else
      var front := DeltaDecode(ds[..|ds| - 1]);
      front + [(if |ds| == 1 then 0 else front[|ds| - 2]) + ds[|ds| - 1]]
  }

  /** Differences: the delta encoding of a list. */
  function DeltaEncode(xs: seq<int>): (ds: seq<int>)
    ensures |ds| == |xs|
  {
    seq(|xs|, i requires 0 <= i < |xs| => if i == 0 then xs[0] else xs[i] - xs[i - 1])
  }

  /** Decoding an encoded list gives it back. */
  lemma {:induction false} DeltaDecodeEncode(xs: seq<int>)
    ensures DeltaDecode(DeltaEncode(xs)) == xs
  {
    var ds := DeltaEncode(xs);
    var ys := DeltaDecode(ds);
    var i := 0;
    while i < |xs|
      invariant i <= |xs|
      invariant forall j :: 0 <= j < i ==> ys[j] == xs[j]
    {
      if i > 0 {
        assert ds[i] == xs[i] - xs[i - 1];
        assert ys[i] == ys[i - 1] + ds[i];
      }
      i := i + 1;
    }
  }

  /** Encoding a decoded list gives the deltas back. */
  lemma DeltaEncodeDecode(ds: seq<int>)
    ensures DeltaEncode(DeltaDecode(ds)) == ds
  {
  }

  /** Non-negative deltas (the unsigned deltas of an index list) decode to non-decreasing, non-negative rows. */
  lemma {:induction false} DeltaDecodeSorted(ds: seq<int>)
    requires forall i :: 0 <= i < |ds| ==> ds[i] >= 0
    ensures forall i, j :: 0 <= i <= j < |ds| ==> 0 <= DeltaDecode(ds)[i] <= DeltaDecode(ds)[j]
  {
    var xs := DeltaDecode(ds);
    var n := 0;
    while n < |ds|
      invariant n <= |ds|
      invariant forall i, j :: 0 <= i <= j < n ==> 0 <= xs[i] <= xs[j]
    {
      if n > 0 {
        assert xs[n] == xs[n - 1] + ds[n];
      }
      n := n + 1;
    }
  }

  /** Non-decreasing. */
  predicate Sorted(xs: seq<nat>)
  {
    forall i, j :: 0 <= i <= j < |xs| ==> xs[i] <= xs[j]
  }

  /** The unsigned deltas of a non-decreasing index list: its delta encoding. */
  function IndexDeltas(xs: seq<nat>): (ds: seq<nat>)
    requires Sorted(xs)
    ensures ds == DeltaEncode(xs)
  {
    seq(|xs|, i requires 0 <= i < |xs| => if i == 0 then xs[0] else xs[i] - xs[i - 1])
  }

  /** Decoding unsigned deltas always gives a non-decreasing list whose deltas they are. */
  lemma IndexDeltasRoundTrip(ds: seq<nat>)
    ensures var xs := DeltaDecode(ds);
      (forall i :: 0 <= i < |xs| ==> xs[i] >= 0)
      && Sorted(xs) && IndexDeltas(xs) == ds
  {
    DeltaDecodeSorted(ds);
    DeltaEncodeDecode(ds);
  }

  // Scaled integers: output row i is data[i] * mul + add.

  const I32_MIN: int := -0x8000_0000
  const I32_MAX: int := 0x7FFF_FFFF

  /** The scaled rows. */
  function Scaled(data: seq<int>, mul: int, add: int): (out: seq<int>)
    ensures |out| == |data|
    ensures forall i :: 0 <= i < |out| ==> out[i] - add == data[i] * mul
  {
    seq(|data|, i requires 0 <= i < |data| => data[i] * mul + add)
  }

  /** With a non-zero factor, scaling loses nothing: each row's data is recovered from its output. */
  lemma ScaledRecoverable(data: seq<int>, mul: int, add: int, i: nat)
    requires mul != 0 && i < |data|
    ensures (Scaled(data, mul, add)[i] - add) / mul == data[i]
  {
    var d := data[i];
    var q := (d * mul) / mul;
    var r := (d * mul) % mul;
    assert d * mul == q * mul + r;
    assert (d - q) * mul == r;
    MulSigns(d - q, mul);
  }

  lemma {:induction false} MulMonoInt(a: int, b: int, c: nat)
    requires a <= b
    ensures a * c <= b * c
    decreases c
  {
    if c > 0 {
      MulMonoInt(a, b, c - 1);
    }
  }

  /** A product of two non-zero integers is at least as far from zero as either. */
  lemma MulSigns(a: int, c: int)
    ensures a >= 1 && c >= 1 ==> a * c >= c
    ensures a <= -1 && c >= 1 ==> a * c <= -c
    ensures a >= 1 && c <= -1 ==> a * c <= c
    ensures a <= -1 && c <= -1 ==> a * c >= -c
  {
    if c >= 1 {
      if a >= 1 { MulMonoInt(1, a, c); }
      if a <= -1 { MulMonoInt(a, -1, c); }
    } else if c <= -1 {
      if a >= 1 { MulMonoInt(1, a, -c); assert a * c == -(a * -c); }
      if a <= -1 { MulMonoInt(a, -1, -c); assert a * c == -(a * -c); }
    }
  }

  /** A non-negative factor keeps the order of the rows. */
  lemma ScaledMonotone(data: seq<int>, mul: nat, add: int, i: nat, j: nat)
    requires i < |data| && j < |data| && data[i] <= data[j]
    ensures Scaled(data, mul, add)[i] <= Scaled(data, mul, add)[j]
  {
    MulMonoInt(data[i], data[j], mul);
  }

  /**
   * `min` and `max`, when set, bound the scaled values; when neither is
   * set, every scaled value fits a 32-bit signed integer.
   */
  predicate ScaledWithinBounds(out: seq<int>, min: Option<int>, max: Option<int>)
  {
    forall i :: 0 <= i < |out| ==>
      (min.Some? ==> min.value <= out[i]) && (max.Some? ==> out[i] <= max.value)
      && (min.None? && max.None? ==> I32_MIN <= out[i] <= I32_MAX)
  }

  /** Data within [lo, hi] scaled by a non-negative factor lies within [lo*mul + add, hi*mul + add]. */
  lemma ScaledRange(data: seq<int>, mul: nat, add: int, lo: int, hi: int)
    requires forall i :: 0 <= i < |data| ==> lo <= data[i] <= hi
    ensures ScaledWithinBounds(Scaled(data, mul, add), Some(lo * mul + add), Some(hi * mul + add))
  {
    forall i | 0 <= i < |data|
      ensures lo * mul + add <= Scaled(data, mul, add)[i] <= hi * mul + add
    {
      MulMonoInt(lo, data[i], mul);
      MulMonoInt(data[i], hi, mul);
    }
  }

  /**
   * Data within [lo, hi] whose scaled ends fit a 32-bit signed integer
   * scales to values that all fit one, so `min` and `max` may stay unset.
   */
  lemma ScaledFitsWithoutBounds(data: seq<int>, mul: nat, add: int, lo: int, hi: int)
    requires forall i :: 0 <= i < |data| ==> lo <= data[i] <= hi
    requires I32_MIN <= lo * mul + add && hi * mul + add <= I32_MAX
    ensures ScaledWithinBounds(Scaled(data, mul, add), None, None)
  {
    ScaledRange(data, mul, add, lo, hi);
  }

  /** Unsigned integers of 16 and 64 bits. */
  newtype u16 = x: int | 0 <= x < 0x1_0000
  newtype u64 = x: int | 0 <= x < 0x1_0000_0000_0000_0000

  /** A signed integer stored in its unsigned form (two's complement), for a type of `2 * half` values. */
  function Signed(x: nat, half: nat): (v: int)
    requires x < 2 * half
    ensures -(half as int) <= v < half
    ensures x < half ==> v == x
    ensures x >= half ==> v == x - 2 * half
  {
    if x >= half then x - 2 * half else x
  }


  // Column data.

  /** `CommonStringTable`. */
  datatype CommonStringTable = CommonStringTable(strings: seq<string>, indexes: seq<nat>)

  /** `CommonBytesTable`. */
  datatype CommonBytesTable = CommonBytesTable(bytes: seq<seq<byte>>, indexes: seq<nat>)

  /** `BVectorData`: a serialized bit vector, kept as its octets. */
  datatype BVectorData = BVectorData(size: nat, data: seq<byte>)

  /** `SeqTableMultiData`: the rows of a column in one of its encodings. */
  datatype SeqTableMultiData =
    | Int(ints: seq<nat>)
    | Real(reals: seq<F64>)
    | String(strings: seq<string>)
    | Bytes(bytes: seq<seq<byte>>)
    | CommonString(commonString: CommonStringTable)
    | CommonBytes(commonBytes: CommonBytesTable)
    | Bit(bits: seq<bv8>)
    | Loc(locs: seq<SeqLoc>)
    | Id(ids: seq<SeqId>)
    | Interval(intervals: seq<SeqInterval>)
    | IntDelta(deltas: SeqTableMultiData)
    | IntScaled(scaled: ScaledIntMultiData)
    | RealScaled(realScaled: ScaledRealMultiData)
    | BitVector(bitVector: BVectorData)
    | Int1(int1: seq<byte>)
    | Int2(int2: seq<u16>)
    | Int8(int8: seq<u64>)

  /** `ScaledIntMultiData`. */
  datatype ScaledIntMultiData = ScaledIntMultiData(mul: int, add: int, data: SeqTableMultiData, min: Option<int>, max: Option<int>)

  /** `ScaledRealMultiData`. */
  datatype ScaledRealMultiData = ScaledRealMultiData(mul: F64, add: F64, data: SeqTableMultiData)

  /** `SeqTableSingleData`: one value, used as a default. */
  datatype SeqTableSingleData =
    | Int(intValue: nat)
    | Real(realValue: F64)
    | String(stringValue: string)
    | Bytes(bytes: seq<byte>)
    | Bit(bit: bool)
    | Loc(loc: SeqLoc)
    | Id(id: SeqId)
    | Interval(interval: SeqInterval)
    | Int8(int8: byte)

  /** The value of one row of a column. */
  datatype RowValue =
    | IntValue(i: int)
    | RealValue(r: F64)
    | StringValue(s: string)
    | BytesValue(b: seq<byte>)
    | BitValue(bit: bool)
    | LocValue(loc: SeqLoc)
    | IdValue(id: SeqId)
    | IntervalValue(interval: SeqInterval)

  /** The row value a single datum stands for. */
  function SingleValue(d: SeqTableSingleData): (v: RowValue)
    ensures (d.Int? || d.Int8?) <==> v.IntValue?
  {
    match d
    case Int(n) => IntValue(n)
    case Real(x) => RealValue(x)
    case String(s) => StringValue(s)
    case Bytes(b) => BytesValue(b)
    case Bit(b) => BitValue(b)
    case Loc(l) => LocValue(l)
    case Id(i) => IdValue(i)
    case Interval(i) => IntervalValue(i)
    case Int8(b) => IntValue(b as int)
  }

  /** The integers of an int or bit column (a set bit counts as 1), if it is one. */
  function AsInts(rows: seq<RowValue>): (r: Option<seq<int>>)
    ensures r.Some? ==> |r.value| == |rows|
    ensures r.Some? <==> forall i :: 0 <= i < |rows| ==> rows[i].IntValue? || rows[i].BitValue?
    ensures r.Some? ==> forall i :: 0 <= i < |rows| ==>
      r.value[i] == (if rows[i].IntValue? then rows[i].i else if rows[i].bit then 1 else 0)
  {
    if forall i :: 0 <= i < |rows| ==> rows[i].IntValue? || rows[i].BitValue? then
      Some(seq(|rows|, i requires 0 <= i < |rows| => if rows[i].IntValue? then rows[i].i else if rows[i].bit then 1 else 0))
    else None
  }

  /**
   * The rows a column's data holds, in order, or None for an encoding
   * this model does not decode (scaled reals and serialized bit vectors)
   * and for malformed data (an index outside its common table, a delta or
   * scaled encoding over data that is not integers or bits).
   */
  function Rows(md: SeqTableMultiData): (rows: Option<seq<RowValue>>)
    ensures md.Int? ==> rows.Some? && |rows.value| == |md.ints|
    ensures md.String? ==> rows.Some? && |rows.value| == |md.strings|
    ensures md.Bit? ==> rows.Some? && |rows.value| == 8 * |md.bits|
    ensures md.CommonString? ==> (rows.Some? <==> IndexesIn(md.commonString.indexes, |md.commonString.strings|))
    ensures md.CommonString? && rows.Some? ==> |rows.value| == |md.commonString.indexes|
    ensures md.RealScaled? || md.BitVector? ==> rows.None?
    decreases md
  {
    match md
    case Int(xs) => Some(seq(|xs|, i requires 0 <= i < |xs| => IntValue(xs[i])))
    case Real(xs) => Some(seq(|xs|, i requires 0 <= i < |xs| => RealValue(xs[i])))
    case String(ss) => Some(seq(|ss|, i requires 0 <= i < |ss| => StringValue(ss[i])))
    case Bytes(bs) => Some(seq(|bs|, i requires 0 <= i < |bs| => BytesValue(bs[i])))
    case CommonString(t) =>
      if IndexesIn(t.indexes, |t.strings|) then
        var e := Expand(t.strings, t.indexes);
        Some(seq(|e|, i requires 0 <= i < |e| => StringValue(e[i])))
      else None
    case CommonBytes(t) =>
      if IndexesIn(t.indexes, |t.bytes|) then
        var e := Expand(t.bytes, t.indexes);
        Some(seq(|e|, i requires 0 <= i < |e| => BytesValue(e[i])))
      else None
    case Bit(os) =>
      var b := Bits(os);
      Some(seq(|b|, i requires 0 <= i < |b| => BitValue(b[i])))
    case Loc(ls) => Some(seq(|ls|, i requires 0 <= i < |ls| => LocValue(ls[i])))
    case Id(ids) => Some(seq(|ids|, i requires 0 <= i < |ids| => IdValue(ids[i])))
    case Interval(ivs) => Some(seq(|ivs|, i requires 0 <= i < |ivs| => IntervalValue(ivs[i])))
    case IntDelta(inner) =>
      var r := Rows(inner);
      if r.None? then None
      else
        var ints := AsInts(r.value);
        if ints.None? then None
        else
          var d := DeltaDecode(ints.value);
          Some(seq(|d|, i requires 0 <= i < |d| => IntValue(d[i])))
    case IntScaled(sc) =>
      var r := Rows(sc.data);
      if r.None? then None
      else
        var ints := AsInts(r.value);
        if ints.None? then None
        else
          var out := Scaled(ints.value, sc.mul, sc.add);
          Some(seq(|out|, i requires 0 <= i < |out| => IntValue(out[i])))
    case RealScaled(_) => None
    case BitVector(_) => None
    case Int1(bs) => Some(seq(|bs|, i requires 0 <= i < |bs| => IntValue(Signed(bs[i] as nat, 0x80))))
    case Int2(ws) => Some(seq(|ws|, i requires 0 <= i < |ws| => IntValue(Signed(ws[i] as nat, 0x8000))))
    case Int8(ws) => Some(seq(|ws|, i requires 0 <= i < |ws| => IntValue(Signed(ws[i] as nat, 0x8000_0000_0000_0000))))
  }

  /** A common string table holds the same rows as the plain strings it interns. */
  lemma CommonStringAgrees(strings: seq<string>)
    ensures var t := Intern(strings);
      Rows(CommonString(CommonStringTable(t.0, t.1))) == Rows(SeqTableMultiData.String(strings))
  {
    ExpandIntern(strings);
  }

  /** Delta-encoded integers hold the same rows as the non-decreasing integers they encode. */
  lemma IntDeltaAgrees(xs: seq<nat>)
    requires Sorted(xs)
    ensures Rows(IntDelta(SeqTableMultiData.Int(IndexDeltas(xs)))) == Rows(SeqTableMultiData.Int(xs))
  {
    var ds := IndexDeltas(xs);
    var r := Rows(SeqTableMultiData.Int(ds)).value;
    assert AsInts(r).value == ds;
    DeltaDecodeEncode(xs);
  }

  /** Row i of a scaled column is row i of its integer data times `mul` plus `add`. */
  lemma IntScaledRow(xs: seq<nat>, mul: int, add: int, min: Option<int>, max: Option<int>, i: nat)
    requires i < |xs|
    ensures var r := Rows(IntScaled(ScaledIntMultiData(mul, add, SeqTableMultiData.Int(xs), min, max)));
      r.Some? && |r.value| == |xs| && r.value[i] == IntValue(xs[i] * mul + add)
  {
    var r := Rows(SeqTableMultiData.Int(xs)).value;
    assert AsInts(r).value == xs;
  }

  // Sparse indexes: which rows have data.

  /** `SeqTableSparseIndex`. */
  datatype SeqTableSparseIndex =
    | Indexes(indexes: seq<nat>)
    | BitSet(bitSet: seq<bv8>)
    | IndexesDelta(indexesDelta: seq<nat>)
    | BitSetBvector(bvector: BVectorData)

  /**
   * Where row r's value sits in the column data: its position in the list
   * of rows that have values, or None when the row has no value of its
   * own.
   */
  function SparsePosition(sp: SeqTableSparseIndex, r: nat): (k: Option<nat>)
    requires !sp.BitSetBvector?
    ensures sp.Indexes? ==> (k.Some? <==> r in sp.indexes)
    ensures sp.Indexes? && k.Some? ==> k.value < |sp.indexes| && sp.indexes[k.value] == r
    ensures sp.BitSet? ==> (k.Some? <==> r < 8 * |sp.bitSet| && BitAt(sp.bitSet, r))
  {
    match sp
    case Indexes(rows) => if r in rows then Some(Position(rows, r)) else None
    case IndexesDelta(ds) =>
      var rows := DeltaDecode(ds);
      if r in rows then Some(Position(rows, r)) else None
    case BitSet(os) =>
      var bits := Bits(os);
      if r < |bits| then
        BitsAt(os, r);
        if bits[r] then Some(CountTrue(bits[..r])) else None
      else None
  }

  /** A delta-encoded index list places every row where the plain list does. */
  lemma IndexesDeltaAgrees(rows: seq<nat>, r: nat)
    requires Sorted(rows)
    ensures SparsePosition(IndexesDelta(IndexDeltas(rows)), r) == SparsePosition(Indexes(rows), r)
  {
    DeltaDecodeEncode(rows);
  }

  /** A bit set places every row where the increasing list of its set rows does. */
  lemma BitSetAgrees(os: seq<bv8>, r: nat)
    ensures SparsePosition(BitSet(os), r) == SparsePosition(Indexes(SetRows(Bits(os))), r)
  {
    var bits := Bits(os);
    if r < |bits| && bits[r] {
      SetRowsPosition(bits, r);
    }
  }

  // Columns.

  /** `SeqTableColumn`. */
  datatype SeqTableColumn = SeqTableColumn(
    header: SeqTableColumnInfo,
    data: Option<SeqTableMultiData>,
    sparse: Option<SeqTableSparseIndex>,
    default: Option<SeqTableSingleData>,
    sparseOther: Option<SeqTableSingleData>)

  /** The column encodings this model decodes. */
  predicate Decodable(col: SeqTableColumn)
  {
    (col.data.Some? ==> Rows(col.data.value).Some?)
    && (col.sparse.Some? ==> !col.sparse.value.BitSetBvector?)
  }

  /** A single datum as an optional row value. */
  function Single(d: Option<SeqTableSingleData>): Option<RowValue>
  {
    if d.Some? then Some(SingleValue(d.value)) else None
  }

  /** The column's data rows (none when it has no data). */
  function DataRows(col: SeqTableColumn): (rows: seq<RowValue>)
    requires Decodable(col)
  {
    if col.data.Some? then Rows(col.data.value).value else []
  }

  /**
   * The value of row r: without a sparse index, data row r or, past the
   * end of short data, the default; with one, the data row at the row's
   * sparse position (the default when the data is too short) or, for a
   * row the index does not list, `sparse_other`, and the default when
   * that is unset.
   */
  function ColumnValue(col: SeqTableColumn, r: nat): (v: Option<RowValue>)
    requires Decodable(col)
    ensures col.sparse.None? && r < |DataRows(col)| ==> v == Some(DataRows(col)[r])
    ensures col.sparse.None? && r >= |DataRows(col)| ==> v == Single(col.default)
    ensures col.sparse.Some? && SparsePosition(col.sparse.value, r).None? ==>
      v == (if col.sparseOther.Some? then Single(col.sparseOther) else Single(col.default))
  {
    var rows := DataRows(col);
    if col.sparse.None? then
      if r < |rows| then Some(rows[r]) else Single(col.default)
    else
      var k := SparsePosition(col.sparse.value, r);
      if k.Some? then
        if k.value < |rows| then Some(rows[k.value]) else Single(col.default)
      else if col.sparseOther.Some? then Single(col.sparseOther)
      else Single(col.default)
  }

  /**
   * A sparse column listing its rows in increasing order holds, for each
   * listed row, the data row at the same position: the i-th listed row
   * gets the i-th data row.
   */
  lemma ListedRowValue(col: SeqTableColumn, i: nat)
    requires Decodable(col) && col.sparse.Some? && col.sparse.value.Indexes?
    requires NoDuplicates(col.sparse.value.indexes)
    requires i < |col.sparse.value.indexes| && i < |DataRows(col)|
    ensures ColumnValue(col, col.sparse.value.indexes[i]) == Some(DataRows(col)[i])
  {
    var rows := col.sparse.value.indexes;
    PositionIs(rows, rows[i], i);
  }

  /**
   * Replacing a column's increasing index list by its delta encoding, or by
   * a bit set of the same rows, changes no row's value.
   */
  lemma SparseEncodingsAgree(col: SeqTableColumn, os: seq<bv8>, r: nat)
    requires Decodable(col) && col.sparse.Some? && col.sparse.value.Indexes?
    requires Sorted(col.sparse.value.indexes)
    ensures var d := col.(sparse := Some(IndexesDelta(IndexDeltas(col.sparse.value.indexes))));
      Decodable(d) && ColumnValue(d, r) == ColumnValue(col, r)
    ensures col.sparse.value.indexes == SetRows(Bits(os)) ==>
      ColumnValue(col.(sparse := Some(BitSet(os))), r) == ColumnValue(col, r)
  {
    IndexesDeltaAgrees(col.sparse.value.indexes, r);
    BitSetAgrees(os, r);
  }

  /** `SeqTable`: its feature type, number of rows and columns. */
  datatype SeqTable = SeqTable(featType: nat, featSubtype: Option<nat>, numRows: nat, columns: seq<SeqTableColumn>)
}
