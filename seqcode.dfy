/**
 * Code and conversion tables of `src/asn/seqcode.rs` (NCBI seqcode.asn):
 * for each sequence code, the symbols and names of its values and, between
 * two codes, the table that converts one into the other. A table's rows
 * are indexed by code value from `start_at`.
 */
module SeqCode {
  import opened Wrappers

  /** `SeqCodeType`: the sequence codes, numbered consecutively from 1, `#[repr(u8)]`. */
  datatype SeqCodeType =
    | IUPACNa
    | IUPACAa
    | NCBI2Na
    | NCBI8Na
    | NCBIPna
    | NCBI8Aa
    | NCBIEaa
    | NCBIPaa
    | IUPACAa3
    | NCBIStdAa

  /** The discriminant each variant serialises as. */
  function SeqCodeTypeCode(x: SeqCodeType): (c: int)
    ensures 0 <= c < 256
    ensures 1 <= c <= 10
  {
    match x
    case IUPACNa => 1
    case IUPACAa => 2
    case NCBI2Na => 3
    case NCBI8Na => 4
    case NCBIPna => 5
    case NCBI8Aa => 6
    case NCBIEaa => 7
    case NCBIPaa => 8
    case IUPACAa3 => 9
    case NCBIStdAa => 10
  }

  /** The variant with discriminant `c`, if there is one. */
  function SeqCodeTypeFromCode(c: int): (r: Option<SeqCodeType>)
    ensures r.Some? <==> (1 <= c <= 10)
    ensures r.Some? ==> SeqCodeTypeCode(r.value) == c
  {
    if c == 1 then Some(SeqCodeType.IUPACNa)
    else if c == 2 then Some(SeqCodeType.IUPACAa)
    else if c == 3 then Some(SeqCodeType.NCBI2Na)
    else if c == 4 then Some(SeqCodeType.NCBI8Na)
    else if c == 5 then Some(SeqCodeType.NCBIPna)
    else if c == 6 then Some(SeqCodeType.NCBI8Aa)
    else if c == 7 then Some(SeqCodeType.NCBIEaa)
    else if c == 8 then Some(SeqCodeType.NCBIPaa)
    else if c == 9 then Some(SeqCodeType.IUPACAa3)
    else if c == 10 then Some(SeqCodeType.NCBIStdAa)
    else None
  }

  /** Decoding the discriminant of a variant gives the variant back, so the codes are distinct. */
  lemma SeqCodeTypeRoundTrip(x: SeqCodeType)
    ensures SeqCodeTypeFromCode(SeqCodeTypeCode(x)) == Some(x)
  {
  }

  lemma SeqCodeTypeCodeInjective(x: SeqCodeType, y: SeqCodeType)
    ensures SeqCodeTypeCode(x) == SeqCodeTypeCode(y) ==> x == y
  {
    SeqCodeTypeRoundTrip(x);
    SeqCodeTypeRoundTrip(y);
  }

  /** `SeqMapTable`: `num` rows converting values of code `from`, starting at value `start_at`, into code `to`. */
  datatype SeqMapTable = SeqMapTable(from: SeqCodeType, to: SeqCodeType, num: nat, startAt: nat, table: seq<nat>)

  /** The table lists one converted value per row. */
  predicate ValidMapTable(m: SeqMapTable)
  {
    |m.table| == m.num
  }

  /** The converted value of `x`: row x - start_at, for the `num` values from `start_at`. */
  function MapValue(m: SeqMapTable, x: nat): (v: Option<nat>)
    requires ValidMapTable(m)
    ensures v.Some? <==> m.startAt <= x < m.startAt + m.num
    ensures v.Some? ==> v.value == m.table[x - m.startAt]
  {
    if m.startAt <= x < m.startAt + m.num then Some(m.table[x - m.startAt]) else None
  }

  /**
   * The same table with `start_at` zero-valued rows put before it, so
   * that it starts at 0 and is indexed by the value itself (the convention
   * that gives IUPAC letter codes 65 empty rows before `A`).
   */
  function FromZero(m: SeqMapTable): (z: SeqMapTable)
    requires ValidMapTable(m)
    ensures ValidMapTable(z) && z.startAt == 0 && z.num == m.startAt + m.num
    ensures z.from == m.from && z.to == m.to
  {
    SeqMapTable(m.from, m.to, m.startAt + m.num, 0, seq(m.startAt, _ => 0) + m.table)
  }

  /**
   * Starting the table at 0 keeps every converted value, gives the added
   * rows the value 0, and makes each lookup a plain index.
   */
  lemma FromZeroLookup(m: SeqMapTable, x: nat)
    requires ValidMapTable(m)
    ensures var z := FromZero(m);
      && (MapValue(m, x).Some? ==> MapValue(z, x) == MapValue(m, x))
      && (x < m.startAt ==> MapValue(z, x) == Some(0))
      && (x < z.num ==> MapValue(z, x) == Some(z.table[x]))
      && (x >= z.num ==> MapValue(z, x).None?)
  {
  }

  /** `SeqCodeTableCell`: the printed symbol of a value and its name. */
  datatype SeqCodeTableCell = SeqCodeTableCell(symbol: string, name: string)

  /** `SeqCodeTable`: `num` rows of code `code` from value `start_at`, with an optional complement per row. */
  datatype SeqCodeTable = SeqCodeTable(
    code: SeqCodeType,
    num: nat,
    oneLetter: bool,
    startAt: nat,
    table: seq<seq<SeqCodeTableCell>>,
    comps: Option<seq<nat>>)

  /** One row, and one complement when there are complements, per value; one-letter symbols when `one_letter` is set. */
  predicate ValidCodeTable(t: SeqCodeTable)
  {
    |t.table| == t.num
    && (t.comps.Some? ==> |t.comps.value| == t.num)
    && (t.oneLetter ==> forall i, j :: 0 <= i < |t.table| && 0 <= j < |t.table[i]| ==> |t.table[i][j].symbol| == 1)
  }

  /** The row of value `x`. */
  function CodeRow(t: SeqCodeTable, x: nat): (row: Option<seq<SeqCodeTableCell>>)
    requires ValidCodeTable(t)
    ensures row.Some? <==> t.startAt <= x < t.startAt + t.num
    ensures row.Some? ==> row.value == t.table[x - t.startAt]
    ensures row.Some? && t.oneLetter ==> forall j :: 0 <= j < |row.value| ==> |row.value[j].symbol| == 1
  {
    if t.startAt <= x < t.startAt + t.num then Some(t.table[x - t.startAt]) else None
  }

  /** The complement of value `x`, when the table has complements and `x` is one of its values. */
  function Complement(t: SeqCodeTable, x: nat): (y: Option<nat>)
    requires ValidCodeTable(t)
    ensures y.Some? <==> t.comps.Some? && CodeRow(t, x).Some?
    ensures y.Some? ==> y.value == t.comps.value[x - t.startAt]
  {
    if t.comps.Some? && t.startAt <= x < t.startAt + t.num then Some(t.comps.value[x - t.startAt]) else None
  }

  /** Every complement is itself a value of the table. */
  predicate ComplementsInTable(t: SeqCodeTable)
    requires ValidCodeTable(t)
  {
    t.comps.Some? ==> forall i :: 0 <= i < |t.comps.value| ==> t.startAt <= t.comps.value[i] < t.startAt + t.num
  }

  /** When the complements are values of the table, the complement of a value has a row, and a complement of its own. */
  lemma ComplementHasRow(t: SeqCodeTable, x: nat)
    requires ValidCodeTable(t) && ComplementsInTable(t)
    requires Complement(t, x).Some?
    ensures CodeRow(t, Complement(t, x).value).Some?
    ensures Complement(t, Complement(t, x).value).Some?
  {
  }

  /** `SeqCodeSet`: code tables and conversion tables, for distribution. */
  datatype SeqCodeSet = SeqCodeSet(codes: Option<seq<SeqCodeTable>>, maps: Option<seq<SeqMapTable>>)
}
