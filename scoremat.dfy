/**
 * Scoring matrices of `src/asn/scoremat.rs` (NCBI scoremat.asn): the
 * position-specific scoring matrix (PSSM) of PSI-BLAST and the block
 * models used with it. The matrix is one linear list of cell values, in
 * one of two storage orders; this module gives each order its meaning and
 * proves the orders hold the same matrix.
 */
module Scoremat {
  import opened Wrappers
  import opened General

  /** `BlockPropertyType`: what a block property's value is, `#[repr(u8)]`. */
  datatype BlockPropertyType =
    | Unassigned
    | Threshold
    | MinScore
    | MaxScore
    | MeanScore
    | Variance
    | Name
    | IsOptional
    | Other

  /** The discriminant each variant serialises as. */
  function BlockPropertyTypeCode(x: BlockPropertyType): (c: int)
    ensures 0 <= c < 256
    ensures 0 <= c <= 5 || c == 10 || c == 20 || c == 255
  {
    match x
    case Unassigned => 0
    case Threshold => 1
    case MinScore => 2
    case MaxScore => 3
    case MeanScore => 4
    case Variance => 5
    case Name => 10
    case IsOptional => 20
    case Other => 255
  }

  /** The variant with discriminant `c`, if there is one. */
  function BlockPropertyTypeFromCode(c: int): (r: Option<BlockPropertyType>)
    ensures r.Some? <==> (0 <= c <= 5 || c == 10 || c == 20 || c == 255)
    ensures r.Some? ==> BlockPropertyTypeCode(r.value) == c
  {
    if c == 0 then Some(BlockPropertyType.Unassigned)
    else if c == 1 then Some(BlockPropertyType.Threshold)
    else if c == 2 then Some(BlockPropertyType.MinScore)
    else if c == 3 then Some(BlockPropertyType.MaxScore)
    else if c == 4 then Some(BlockPropertyType.MeanScore)
    else if c == 5 then Some(BlockPropertyType.Variance)
    else if c == 10 then Some(BlockPropertyType.Name)
    else if c == 20 then Some(BlockPropertyType.IsOptional)
    else if c == 255 then Some(BlockPropertyType.Other)
    else None
  }

  /** Decoding the discriminant of a variant gives the variant back, so the codes are distinct. */
  lemma BlockPropertyTypeRoundTrip(x: BlockPropertyType)
    ensures BlockPropertyTypeFromCode(BlockPropertyTypeCode(x)) == Some(x)
  {
  }

  lemma BlockPropertyTypeCodeInjective(x: BlockPropertyType, y: BlockPropertyType)
    ensures BlockPropertyTypeCode(x) == BlockPropertyTypeCode(y) ==> x == y
  {
    BlockPropertyTypeRoundTrip(x);
    BlockPropertyTypeRoundTrip(y);
  }

  /** `#[default]`: Unassigned. */
  const DefaultBlockPropertyType: BlockPropertyType := BlockPropertyType.Unassigned

  /** `BlockProperty`. */
  datatype BlockProperty = BlockProperty(propertyType: BlockPropertyType, intValue: Option<int>, textValue: Option<string>)

  /** `CoreBlock`: a block of the query, with optional extensions at either end. */
  datatype CoreBlock = CoreBlock(start: int, stop: int, minStart: Option<int>, maxStop: Option<int>, property: Option<seq<BlockProperty>>)

  // Fields with serde defaults: an absent field reads as its default.

  /** A field that may be absent from the input, read with its default. */
  function OrDefault<T>(field: Option<T>, default: T): (v: T)
    ensures field.Some? ==> v == field.value
    ensures field.None? ==> v == default
  {
    if field.Some? then field.value else default
  }

  const DEFAULT_MIN_LENGTH: int := 0
  const DEFAULT_MAX_LENGTH: int := 100000

  /** `LoopConstraint`: the allowed lengths of an unaligned region. */
  datatype LoopConstraint = LoopConstraint(minLength: int, maxLength: int)

  /** The constraint read from its two optional fields. */
  function ReadLoopConstraint(minLength: Option<int>, maxLength: Option<int>): (l: LoopConstraint)
    ensures l.minLength == OrDefault(minLength, DEFAULT_MIN_LENGTH)
    ensures l.maxLength == OrDefault(maxLength, DEFAULT_MAX_LENGTH)
  {
    LoopConstraint(OrDefault(minLength, DEFAULT_MIN_LENGTH), OrDefault(maxLength, DEFAULT_MAX_LENGTH))
  }

  /** An unaligned region of `len` residues satisfies the constraint. */
  predicate LoopAdmits(l: LoopConstraint, len: int)
  {
    l.minLength <= len <= l.maxLength
  }

  /** A constraint with both fields absent admits exactly the lengths from 0 to 100000. */
  lemma DefaultLoopAdmits(len: int)
    ensures LoopAdmits(ReadLoopConstraint(None, None), len) <==> 0 <= len <= 100000
  {
  }

  /** `CoreDef`: the blocks of a core model and the loop constraints around them. */
  datatype CoreDef = CoreDef(
    nblocks: int,
    blocks: seq<CoreBlock>,
    loops: seq<LoopConstraint>,
    isDiscontinuous: Option<bool>,
    insertions: Option<seq<int>>)

  /** `nblocks` blocks and `nblocks + 1` loop constraints: one before, between and after the blocks. */
  predicate ValidCoreDef(d: CoreDef)
  {
    d.nblocks >= 0 && |d.blocks| == d.nblocks && |d.loops| == d.nblocks + 1
  }

  /** The `#[derive(Default)]` value: no blocks and no loop constraints at all. */
  const DerivedDefaultCoreDef: CoreDef := CoreDef(0, [], [], None, None)

  /** The derived default breaks the documented sizes: zero blocks still need one loop constraint. */
  lemma DerivedDefaultCoreDefInvalid()
    ensures !ValidCoreDef(DerivedDefaultCoreDef)
    ensures |DerivedDefaultCoreDef.loops| != DerivedDefaultCoreDef.nblocks + 1
  {
  }

  /** The empty core model the documented sizes ask for: no blocks and one unconstrained loop. */
  function EmptyCoreDef(): (d: CoreDef)
    ensures ValidCoreDef(d) && d.nblocks == 0
    ensures d.loops == [ReadLoopConstraint(None, None)]
  {
    CoreDef(0, [], [ReadLoopConstraint(None, None)], None, None)
  }

  /** A core model of the given blocks and loops, when there is one loop more than blocks. */
  function MakeCoreDef(blocks: seq<CoreBlock>, loops: seq<LoopConstraint>): (d: Option<CoreDef>)
    ensures d.Some? <==> |loops| == |blocks| + 1
    ensures d.Some? ==> ValidCoreDef(d.value) && d.value.blocks == blocks && d.value.loops == loops
  {
    if |loops| == |blocks| + 1 then Some(CoreDef(|blocks|, blocks, loops, None, None)) else None
  }

  /**
   * Adding a block with the loop that follows it keeps the sizes: loop i
   * comes before block i and the last loop after the last block.
   */
  lemma AddBlockKeepsValid(d: CoreDef, b: CoreBlock, l: LoopConstraint)
    requires ValidCoreDef(d)
    ensures ValidCoreDef(d.(nblocks := d.nblocks + 1, blocks := d.blocks + [b], loops := d.loops + [l]))
    ensures !ValidCoreDef(d.(nblocks := d.nblocks + 1, blocks := d.blocks + [b]))
  {
  }

  /** `SiteAnnot`. */
  datatype SiteAnnot = SiteAnnot(
    startPosition: int,
    stopPosition: int,
    description: Option<string>,
    annotType: Option<int>,
    aliases: Option<seq<string>>,
    motif: Option<string>,
    motifUse: Option<int>)

  /** `PssmFinalData`: the scores and their statistical parameters. */
  datatype PssmFinalData = PssmFinalData(
    scores: seq<int>,
    lambda: F64,
    kappa: F64,
    h: F64,
    scalingFactor: int,
    lambdaUngapped: Option<F64>,
    kappaUngapped: Option<F64>,
    hUngapped: Option<F64>,
    wordScoreThreshold: Option<F64>)

  /** `PssmIntermediateData`: the frequency ratios the scores are built from, with diagnostics. */
  datatype PssmIntermediateData = PssmIntermediateData(
    resFreqsPerPos: Option<seq<int>>,
    weightedResFreqsPerPos: Option<seq<F64>>,
    freqRatios: seq<F64>,
    informationContent: Option<seq<F64>>,
    gaplessColumnWeights: Option<seq<F64>>,
    sigma: Option<seq<F64>>,
    intervalSizes: Option<seq<int>>,
    numMatchingSeqs: Option<seq<int>>,
    numIndeptObsr: Option<seq<F64>>)

  /**
   * `Pssm`: a matrix with one row per residue type and one column per
   * query position, stored as one linear list.
   */
  datatype Pssm = Pssm(
    isProtein: bool,
    identifier: Option<string>,
    numRows: int,
    numColumns: int,
    rowLabels: Option<seq<string>>,
    byRow: bool,
    query: Option<string>,
    intermediateData: Option<PssmIntermediateData>,
    finalData: Option<PssmFinalData>)

  const DEFAULT_IS_PROTEIN: bool := true
  const DEFAULT_BY_ROW: bool := false

  /** The two flags read from their optional fields: a protein matrix, stored column by column, unless told otherwise. */
  function ReadPssmFlags(isProtein: Option<bool>, byRow: Option<bool>): (flags: (bool, bool))
    ensures flags.0 == OrDefault(isProtein, DEFAULT_IS_PROTEIN)
    ensures flags.1 == OrDefault(byRow, DEFAULT_BY_ROW)
  {
    (OrDefault(isProtein, DEFAULT_IS_PROTEIN), OrDefault(byRow, DEFAULT_BY_ROW))
  }

  // Storage order of the matrix.

  lemma MulSucc(a: nat, b: nat)
    ensures (a + 1) * b == a * b + b
  {
  }

  lemma {:induction false} MulMono(a: nat, b: nat, c: nat)
    requires a <= b
    ensures a * c <= b * c
    decreases b - a
  {
    if a < b {
      MulMono(a + 1, b, c);
      MulSucc(a, c);
    }
  }

  /** Entry `inner` of block `outer`, in blocks of `size` entries, lies within `count` blocks. */
  lemma BlockBound(size: nat, count: nat, outer: nat, inner: nat)
    requires outer < count && inner < size
    ensures outer * size + inner < count * size
  {
    MulSucc(outer, size);
    MulMono(outer + 1, count, size);
  }

  /**
   * Where cell (r, c) of a `rows` by `cols` matrix is stored: by default
   * column by column, `rows` values per column; row by row, `cols` values
   * per row, when `byRow` is set.
   */
  function CellIndex(rows: nat, cols: nat, byRow: bool, r: nat, c: nat): (k: nat)
    requires r < rows && c < cols
    ensures k < rows * cols
  {
    if byRow then
      BlockBound(cols, rows, r, c);
      r * cols + c
    else
      BlockBound(rows, cols, c, r);
      c * rows + r
  }

  /** The cell stored at position `k`. */
  function CellAt(rows: nat, cols: nat, byRow: bool, k: nat): (rc: (nat, nat))
    requires k < rows * cols
    ensures rc.0 < rows && rc.1 < cols
    ensures CellIndex(rows, cols, byRow, rc.0, rc.1) == k
  {
    if byRow then
      BlockOf(k, rows, cols);
      (k / cols, k % cols)
    else
      BlockOf(k, cols, rows);
      (k % rows, k / rows)
  }

  /** Position `k` of `count` blocks of `size` entries is entry k mod size of block k div size. */
  lemma BlockOf(k: nat, count: nat, size: nat)
    requires k < count * size
    ensures size > 0 && k / size < count && k == (k / size) * size + k % size
  {
    if count <= k / size {
      MulMono(count, k / size, size);
    }
  }

  /** No two cells are stored at the same position, so the storage is a one-to-one layout of the matrix. */
  lemma CellIndexInjective(rows: nat, cols: nat, byRow: bool, r1: nat, c1: nat, r2: nat, c2: nat)
    requires r1 < rows && c1 < cols && r2 < rows && c2 < cols
    requires CellIndex(rows, cols, byRow, r1, c1) == CellIndex(rows, cols, byRow, r2, c2)
    ensures r1 == r2 && c1 == c2
  {
    if byRow {
      if r1 < r2 { MulSucc(r1, cols); MulMono(r1 + 1, r2, cols); }
      else if r2 < r1 { MulSucc(r2, cols); MulMono(r2 + 1, r1, cols); }
    } else {
      if c1 < c2 { MulSucc(c1, rows); MulMono(c1 + 1, c2, rows); }
      else if c2 < c1 { MulSucc(c2, rows); MulMono(c2 + 1, c1, rows); }
    }
  }

  /** Reading back the cell of a position gives the cell. */
  lemma CellAtIndex(rows: nat, cols: nat, byRow: bool, r: nat, c: nat)
    requires r < rows && c < cols
    ensures CellAt(rows, cols, byRow, CellIndex(rows, cols, byRow, r, c)) == (r, c)
  {
    var k := CellIndex(rows, cols, byRow, r, c);
    var rc := CellAt(rows, cols, byRow, k);
    CellIndexInjective(rows, cols, byRow, rc.0, rc.1, r, c);
  }

  /**
   * The dimensions are not negative, some data is present (both may be),
   * and each list of cell values, and the row labels, have the size the
   * dimensions give.
   */
  predicate ValidPssm(p: Pssm)
  {
    p.numRows >= 0 && p.numColumns >= 0
    && (p.intermediateData.Some? || p.finalData.Some?)
    && (p.finalData.Some? ==> |p.finalData.value.scores| == p.numRows * p.numColumns)
    && (p.intermediateData.Some? ==> |p.intermediateData.value.freqRatios| == p.numRows * p.numColumns)
    && (p.rowLabels.Some? ==> |p.rowLabels.value| == p.numRows)
  }

  /** The score of residue type `r` at query position `c`. */
  function Score(p: Pssm, r: nat, c: nat): int
    requires ValidPssm(p) && p.finalData.Some? && r < p.numRows && c < p.numColumns
  {
    p.finalData.value.scores[CellIndex(p.numRows, p.numColumns, p.byRow, r, c)]
  }

  /** The frequency ratio of residue type `r` at query position `c`. */
  function FreqRatio(p: Pssm, r: nat, c: nat): F64
    requires ValidPssm(p) && p.intermediateData.Some? && r < p.numRows && c < p.numColumns
  {
    p.intermediateData.value.freqRatios[CellIndex(p.numRows, p.numColumns, p.byRow, r, c)]
  }

  /** A list of cell values stored in one order, stored in the other. */
  function Restore<T>(xs: seq<T>, rows: nat, cols: nat, byRow: bool): (ys: seq<T>)
    requires |xs| == rows * cols
    ensures |ys| == |xs|
    ensures forall r, c :: 0 <= r < rows && 0 <= c < cols ==>
      ys[CellIndex(rows, cols, byRow, r, c)] == xs[CellIndex(rows, cols, !byRow, r, c)]
  {
    var ys := seq(|xs|, k requires 0 <= k < |xs| =>
      var rc := CellAt(rows, cols, byRow, k);
      xs[CellIndex(rows, cols, !byRow, rc.0, rc.1)]);
    forall r, c | 0 <= r < rows && 0 <= c < cols
      ensures ys[CellIndex(rows, cols, byRow, r, c)] == xs[CellIndex(rows, cols, !byRow, r, c)]
    {
      CellAtIndex(rows, cols, byRow, r, c);
    }
    ys
  }

  /** The same matrix with its cell values stored in the order `byRow` names. */
  function Restored(p: Pssm, byRow: bool): (q: Pssm)
    requires ValidPssm(p)
    ensures ValidPssm(q) && q.byRow == byRow
    ensures q.numRows == p.numRows && q.numColumns == p.numColumns
    ensures q.finalData.Some? <==> p.finalData.Some?
    ensures q.intermediateData.Some? <==> p.intermediateData.Some?
  {
    if byRow == p.byRow then p
    else
      var rows, cols := p.numRows as nat, p.numColumns as nat;
      var fd := if p.finalData.Some? then
        Some(p.finalData.value.(scores := Restore(p.finalData.value.scores, rows, cols, byRow))) else None;
      var id := if p.intermediateData.Some? then
        Some(p.intermediateData.value.(freqRatios := Restore(p.intermediateData.value.freqRatios, rows, cols, byRow))) else None;
      p.(byRow := byRow, finalData := fd, intermediateData := id)
  }

  /** Storing the matrix in the other order changes no score and no frequency ratio. */
  lemma RestoredSameCells(p: Pssm, byRow: bool, r: nat, c: nat)
    requires ValidPssm(p) && r < p.numRows && c < p.numColumns
    ensures p.finalData.Some? ==> Score(Restored(p, byRow), r, c) == Score(p, r, c)
    ensures p.intermediateData.Some? ==> FreqRatio(Restored(p, byRow), r, c) == FreqRatio(p, r, c)
  {
  }

  /** Which data a consumer builds the matrix from. */
  datatype PssmData = FinalData(final: PssmFinalData) | IntermediateData(intermediate: PssmIntermediateData)

  /** Final data takes precedence when both are present; the intermediate data is used only on its own. */
  function UsedData(p: Pssm): (d: Option<PssmData>)
    ensures d.None? <==> p.finalData.None? && p.intermediateData.None?
    ensures p.finalData.Some? ==> d == Some(FinalData(p.finalData.value))
    ensures p.finalData.None? && p.intermediateData.Some? ==> d == Some(IntermediateData(p.intermediateData.value))
  {
    if p.finalData.Some? then Some(FinalData(p.finalData.value))
    else if p.intermediateData.Some? then Some(IntermediateData(p.intermediateData.value))
    else None
  }

  /** A well-formed matrix always has data to use, of the size its dimensions give. */
  lemma ValidPssmHasData(p: Pssm)
    requires ValidPssm(p)
    ensures UsedData(p).Some?
    ensures UsedData(p).value.FinalData? ==> |UsedData(p).value.final.scores| == p.numRows * p.numColumns
    ensures UsedData(p).value.IntermediateData? ==> |UsedData(p).value.intermediate.freqRatios| == p.numRows * p.numColumns
  {
  }

  /** With `by_row` absent the matrix is read column by column: cell (r, c) is entry c * rows + r. */
  lemma AbsentByRowIsColumnMajor(isProtein: Option<bool>, rows: nat, cols: nat, r: nat, c: nat)
    requires r < rows && c < cols
    ensures CellIndex(rows, cols, ReadPssmFlags(isProtein, None).1, r, c) == c * rows + r
    ensures ReadPssmFlags(None, None).0
  {
  }

  /** `FormatRpsDbParameters`. */
  datatype FormatRpsDbParameters = FormatRpsDbParameters(matrixName: string, gapOpen: Option<int>, gapExtend: Option<int>)

  /** `PssmParameters`. */
  datatype PssmParameters = PssmParameters(
    pseudocount: Option<int>,
    rpsdbparams: Option<FormatRpsDbParameters>,
    constraints: Option<CoreDef>,
    bitScoreThresh: Option<F64>,
    bitScoreReportingThresh: Option<F64>,
    annotatedSites: Option<seq<SiteAnnot>>)

  /** `PssmWithParameters`. */
  datatype PssmWithParameters = PssmWithParameters(pssm: Pssm, params: Option<PssmParameters>)
}
