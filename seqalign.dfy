/**
 * Sequence alignments of `src/asn/seqalign.rs` (NCBI seqalign.asn): the
 * segment layouts and the size and ordering constraints their documentation
 * states.
 */
module SeqAlign {
  import opened Wrappers
  import opened General
  import opened SeqLoc

  /** `SeqAlignType`: the kind of alignment. */
  datatype SeqAlignType =
    | NotSet
    | Global
    | Diags
    | Partial
    | Disc
    | Other

  /** The discriminant each variant serialises as. */
  function SeqAlignTypeCode(x: SeqAlignType): (c: int)
    ensures 0 <= c < 256
    ensures 0 <= c <= 4 || c == 255
  {
    match x
    case NotSet => 0
    case Global => 1
    case Diags => 2
    case Partial => 3
    case Disc => 4
    case Other => 255
  }

  /** The variant with discriminant `c`, if there is one. */
  function SeqAlignTypeFromCode(c: int): (r: Option<SeqAlignType>)
    ensures r.Some? <==> (0 <= c <= 4 || c == 255)
    ensures r.Some? ==> SeqAlignTypeCode(r.value) == c
  {
    if c == 0 then Some(SeqAlignType.NotSet)
    else if c == 1 then Some(SeqAlignType.Global)
    else if c == 2 then Some(SeqAlignType.Diags)
    else if c == 3 then Some(SeqAlignType.Partial)
    else if c == 4 then Some(SeqAlignType.Disc)
    else if c == 255 then Some(SeqAlignType.Other)
    else None
  }

  /** Decoding the discriminant of a variant gives the variant back, so the codes are distinct. */
  lemma SeqAlignTypeRoundTrip(x: SeqAlignType)
    ensures SeqAlignTypeFromCode(SeqAlignTypeCode(x)) == Some(x)
  {
  }

  lemma SeqAlignTypeCodeInjective(x: SeqAlignType, y: SeqAlignType)
    ensures SeqAlignTypeCode(x) == SeqAlignTypeCode(y) ==> x == y
  {
    SeqAlignTypeRoundTrip(x);
    SeqAlignTypeRoundTrip(y);
  }


  /** `ScoreValue`. */
  datatype ScoreValue = Real(realValue: F64) | Int(intValue: int)

  /** `Score`. */
  datatype Score = Score(id: Option<ObjectId>, value: ScoreValue)

  lemma MulSucc(a: nat, b: nat)
    ensures (a + 1) * b == a * b + b
  {
  }

  /** Multiplying by the same factor keeps the order. */
  lemma {:induction false} MulMono(a: nat, b: nat, c: nat)
    requires a <= b
    ensures a * c <= b * c
    decreases b - a
  {
    if a < b {
      MulMono(a + 1, b, c);
      MulSucc(a, c);
    }
  }

  /** Cell (seg, row) of a layout of numseg segments of dim entries is within the layout. */
  lemma CellBound(dim: nat, numseg: nat, seg: nat, row: nat)
    requires seg < numseg && row < dim
    ensures 0 <= seg * dim + row < numseg * dim
  {
    MulSucc(seg, dim);
    MulMono(seg + 1, numseg, dim);
  }

  // DenseDiag: one diagonal, one start per sequence.

  /** `DenseDiag`. */
  datatype DenseDiag = DenseDiag(
    dim: nat,
    ids: seq<SeqId>,
    starts: seq<nat>,
    len: nat,
    strands: Option<seq<NaStrand>>,
    scores: Option<set<Score>>)

  /** The sequences are listed in order, with one start offset each. */
  predicate ValidDenseDiag(d: DenseDiag)
  {
    |d.ids| == d.dim && |d.starts| == d.dim
  }

  // DenseSeg: numseg segments, each with one start per sequence.

  /** A start of -1 marks a gap of the segment's length in that sequence. */
  const GAP: int := -1

  /**
   * `DenseSeg`, with the starts as signed integers so that the gap marker
   * its documentation uses can be held (see `DocumentedStartsOutOfRange`).
   */
  datatype DenseSeg = DenseSeg(
    dim: nat,
    numseg: nat,
    ids: seq<SeqId>,
    starts: seq<int>,
    lens: seq<nat>,
    strands: Option<seq<NaStrand>>,
    scores: Option<seq<Score>>)

  /**
   * `dim` sequences, `numseg` lengths, and one start per sequence per
   * segment, each an offset or the gap marker.
   */
  predicate ValidDenseSeg(s: DenseSeg)
  {
    |s.ids| == s.dim && |s.lens| == s.numseg && |s.starts| == s.numseg * s.dim
    && (forall k :: 0 <= k < |s.starts| ==> GAP <= s.starts[k])
    && (s.scores.Some? ==> |s.scores.value| == s.numseg)
  }

  /** Where the start of sequence `row` in segment `seg` is stored: starts are in ids order within segments. */
  function StartIndex(s: DenseSeg, seg: nat, row: nat): (k: nat)
    requires ValidDenseSeg(s) && seg < s.numseg && row < s.dim
    ensures k < |s.starts|
  {
    CellBound(s.dim, s.numseg, seg, row);
    seg * s.dim + row
  }

  /** No two cells share a stored start. */
  lemma StartIndexInjective(s: DenseSeg, seg1: nat, row1: nat, seg2: nat, row2: nat)
    requires ValidDenseSeg(s) && seg1 < s.numseg && row1 < s.dim && seg2 < s.numseg && row2 < s.dim
    requires StartIndex(s, seg1, row1) == StartIndex(s, seg2, row2)
    ensures seg1 == seg2 && row1 == row2
  {
    if seg1 < seg2 {
      MulSucc(seg1, s.dim);
      MulMono(seg1 + 1, seg2, s.dim);
    } else if seg2 < seg1 {
      MulSucc(seg2, s.dim);
      MulMono(seg2 + 1, seg1, s.dim);
    }
  }

  /** Every stored start belongs to a cell: segment k / dim, sequence k % dim. */
  lemma StartIndexOnto(s: DenseSeg, k: nat)
    requires ValidDenseSeg(s) && k < |s.starts|
    ensures s.dim > 0 && k / s.dim < s.numseg
    ensures StartIndex(s, k / s.dim, k % s.dim) == k
  {
    var seg, row := k / s.dim, k % s.dim;
    assert k == seg * s.dim + row;
    if s.numseg <= seg {
      MulMono(s.numseg, seg, s.dim);
    }
  }

  /** The start of sequence `row` in segment `seg`. */
  function Start(s: DenseSeg, seg: nat, row: nat): (st: int)
    requires ValidDenseSeg(s) && seg < s.numseg && row < s.dim
    ensures GAP <= st
  {
    s.starts[StartIndex(s, seg, row)]
  }

  /** The residues of sequence `row` that the first `n` segments align (its gaps excluded). */
  function AlignedResidues(s: DenseSeg, row: nat, n: nat): (r: nat)
    requires ValidDenseSeg(s) && row < s.dim && n <= s.numseg
    ensures r <= SegmentsLength(s.lens[..n])
    ensures (forall seg :: 0 <= seg < n ==> Start(s, seg, row) != GAP) ==> r == SegmentsLength(s.lens[..n])
  {
    if n == 0 then 0
    else
      assert s.lens[..n] == s.lens[..n - 1] + [s.lens[n - 1]];
      SegmentsLengthAppend(s.lens[..n - 1], [s.lens[n - 1]]);
      AlignedResidues(s, row, n - 1) + (if Start(s, n - 1, row) == GAP then 0 else s.lens[n - 1])
  }

  /** The total length of a list of segments. */
  function SegmentsLength(lens: seq<nat>): nat
  {
    if |lens| == 0 then 0 else SegmentsLength(lens[..|lens| - 1]) + lens[|lens| - 1]
  }

  lemma {:induction false} SegmentsLengthAppend(a: seq<nat>, b: seq<nat>)
    ensures SegmentsLength(a + b) == SegmentsLength(a) + SegmentsLength(b)
    decreases |b|
  {
    if |b| > 0 {
      assert (a + b)[..|a + b| - 1] == a + b[..|b| - 1];
      SegmentsLengthAppend(a, b[..|b| - 1]);
    } else {
      assert a + b == a;
    }
  }

  /** A DenseDiag is a DenseSeg of one segment. */
  function DiagAsSeg(d: DenseDiag): (s: DenseSeg)
    requires ValidDenseDiag(d)
    ensures ValidDenseSeg(s) && s.numseg == 1 && s.dim == d.dim && s.ids == d.ids && s.lens == [d.len]
    ensures forall row :: 0 <= row < d.dim ==> Start(s, 0, row) == d.starts[row]
  {
    var starts := seq(d.dim, k requires 0 <= k < d.dim => d.starts[k] as int);
    DenseSeg(d.dim, 1, d.ids, starts, [d.len], d.strands, None)
  }

  /** The alignment in the documentation of `DenseSeg`: three sequences over six segments. */
  function DocumentedDenseSeg(ids: seq<SeqId>): (s: DenseSeg)
    requires |ids| == 3
  {
    DenseSeg(3, 6, ids,
      [0, 0, -1, 4, 4, 0, 12, -1, 8, 19, 12, 15, 22, 15, -1, 26, 19, 18],
      [4, 8, 7, 3, 4, 4], None, None)
  }

  /**
   * The documented alignment satisfies the layout, and its rows align 30,
   * 23 and 22 residues, as in its picture (`id=200` has one gap of 7,
   * `id=300` gaps of 4 and 4).
   */
  lemma DocumentedDenseSegValid(ids: seq<SeqId>)
    requires |ids| == 3
    ensures ValidDenseSeg(DocumentedDenseSeg(ids))
    ensures AlignedResidues(DocumentedDenseSeg(ids), 0, 6) == 30
    ensures AlignedResidues(DocumentedDenseSeg(ids), 1, 6) == 23
    ensures AlignedResidues(DocumentedDenseSeg(ids), 2, 6) == 22
  {
    var s := DocumentedDenseSeg(ids);
    assert ValidDenseSeg(s);
    assert AlignedResidues(s, 0, 1) == 4;
    assert AlignedResidues(s, 0, 2) == 12;
    assert AlignedResidues(s, 0, 3) == 19;
    assert AlignedResidues(s, 0, 4) == 22;
    assert AlignedResidues(s, 0, 5) == 26;
    assert AlignedResidues(s, 0, 6) == 30;
    assert AlignedResidues(s, 1, 1) == 4;
    assert AlignedResidues(s, 1, 2) == 12;
    assert AlignedResidues(s, 1, 3) == 12;
    assert AlignedResidues(s, 1, 4) == 15;
    assert AlignedResidues(s, 1, 5) == 19;
    assert AlignedResidues(s, 1, 6) == 23;
    assert AlignedResidues(s, 2, 1) == 0;
    assert AlignedResidues(s, 2, 2) == 8;
    assert AlignedResidues(s, 2, 3) == 15;
    assert AlignedResidues(s, 2, 4) == 18;
    assert AlignedResidues(s, 2, 5) == 18;
    assert AlignedResidues(s, 2, 6) == 22;
  }

  /** The starts as declared, `Vec<u64>`: unsigned 64-bit offsets. */
  predicate U64Starts(starts: seq<int>)
  {
    forall k :: 0 <= k < |starts| ==> 0 <= starts[k] < 0x1_0000_0000_0000_0000
  }

  /** With starts declared unsigned, the documented alignment cannot be stored: its gaps are -1. */
  lemma DocumentedStartsOutOfRange(ids: seq<SeqId>)
    requires |ids| == 3
    ensures !U64Starts(DocumentedDenseSeg(ids).starts)
  {
    assert DocumentedDenseSeg(ids).starts[2] == -1;
  }

  // SparseAlign: a pairwise alignment within a sparse multiple alignment.

  /** `SparseAlign`. */
  datatype SparseAlign = SparseAlign(
    firstId: SeqId,
    secondId: SeqId,
    numseg: nat,
    firstStarts: seq<nat>,
    secondStarts: seq<nat>,
    lens: seq<nat>,
    secondStrands: Option<seq<NaStrand>>,
    segScores: Option<set<Score>>)

  /** The starts on each sequence and the lengths have one entry per segment. */
  predicate ValidSparseAlign(a: SparseAlign)
  {
    |a.firstStarts| == a.numseg && |a.secondStarts| == a.numseg && |a.lens| == a.numseg
  }

  /** One segment of a sparse alignment: its start on each sequence and its length. */
  datatype SparseSegment = SparseSegment(firstStart: nat, secondStart: nat, len: nat)

  /** The segments of a sparse alignment, in order. */
  function Segments(a: SparseAlign): (segs: seq<SparseSegment>)
    requires ValidSparseAlign(a)
    ensures |segs| == a.numseg
    ensures forall k :: 0 <= k < |segs| ==>
      segs[k].firstStart == a.firstStarts[k] && segs[k].secondStart == a.secondStarts[k] && segs[k].len == a.lens[k]
  {
    seq(a.numseg, k requires 0 <= k < a.numseg => SparseSegment(a.firstStarts[k], a.secondStarts[k], a.lens[k]))
  }

  /** The sparse alignment of two sequences over the given segments. */
  function SparseAlignOf(first: SeqId, second: SeqId, segs: seq<SparseSegment>): (a: SparseAlign)
    ensures ValidSparseAlign(a) && a.numseg == |segs| && a.firstId == first && a.secondId == second
  {
    SparseAlign(first, second, |segs|,
      seq(|segs|, k requires 0 <= k < |segs| => segs[k].firstStart),
      seq(|segs|, k requires 0 <= k < |segs| => segs[k].secondStart),
      seq(|segs|, k requires 0 <= k < |segs| => segs[k].len),
      None, None)
  }

  /** Segments and the parallel lists hold the same information, both ways round. */
  lemma SparseSegmentsRoundTrip(a: SparseAlign, first: SeqId, second: SeqId, segs: seq<SparseSegment>)
    requires ValidSparseAlign(a)
    ensures Segments(SparseAlignOf(first, second, segs)) == segs
    ensures a.secondStrands.None? && a.segScores.None? ==>
      SparseAlignOf(a.firstId, a.secondId, Segments(a)) == a
  {
  }

  // Spliced alignments.

  /** `ProtPos`: a codon-based position; frame 0 is unset, 1 to 3 the actual frame. */
  datatype ProtPos = ProtPos(amin: nat, frame: nat)

  predicate ValidProtPos(p: ProtPos)
  {
    p.frame <= 3
  }

  /** `ProductPos`. */
  datatype ProductPos = NucPos(nuc: nat) | ProtPos(prot: ProtPos)

  predicate ValidProductPos(p: ProductPos)
  {
    p.ProtPos? ==> ValidProtPos(p.prot)
  }

  /** Order on product positions of the same kind; positions of different kinds are unordered. */
  predicate ProductPosLe(p: ProductPos, q: ProductPos)
  {
    match (p, q)
    case (NucPos(a), NucPos(b)) => a <= b
    case (ProtPos(a), ProtPos(b)) => a.amin < b.amin || (a.amin == b.amin && a.frame <= b.frame)
    case _ => false
  }

  /**
   * `SplicedExonChunk`: each piece's length in bases. `ProductLine` is, by
   * its doc comment, an insertion in the product (a gap in the genomic
   * sequence); `GenomicIns` covers genomic bases only.
   */
  datatype SplicedExonChunk =
    | Match(matched: nat)
    | Mismatch(mismatched: nat)
    | Diag(diag: nat)
    | ProductLine(productLine: nat)
    | GenomicIns(genomicIns: nat)

  /** `SplicedExon`, with its positions, identifiers, strands and parts. */
  datatype SplicedExon = SplicedExon(
    productStart: ProductPos,
    productEnd: ProductPos,
    genomicStart: int,
    genomicEnd: int,
    productId: Option<SeqId>,
    genomicId: Option<SeqId>,
    productStrand: Option<NaStrand>,
    genomicStrand: Option<NaStrand>,
    parts: Option<seq<SplicedExonChunk>>,
    partial: Option<bool>)

  /** An exon ends no earlier than it starts, on the product and on the genome. */
  predicate ValidSplicedExon(e: SplicedExon)
  {
    ValidProductPos(e.productStart) && ValidProductPos(e.productEnd)
    && ProductPosLe(e.productStart, e.productEnd) && e.genomicStart <= e.genomicEnd
  }

  /** `SplicedSegProduct`: whether the product of a spliced alignment is a transcript (cDNA) or a protein. */
  datatype SplicedSegProduct =
    | Transcript
    | Protein

  /** The discriminant each variant serialises as. */
  function SplicedSegProductCode(x: SplicedSegProduct): (c: int)
    ensures 0 <= c < 256
    ensures c == 0 || c == 1
  {
    match x
    case Transcript => 0
    case Protein => 1
  }

  /** The variant with discriminant `c`, if there is one. */
  function SplicedSegProductFromCode(c: int): (r: Option<SplicedSegProduct>)
    ensures r.Some? <==> (c == 0 || c == 1)
    ensures r.Some? ==> SplicedSegProductCode(r.value) == c
  {
    if c == 0 then Some(SplicedSegProduct.Transcript)
    else if c == 1 then Some(SplicedSegProduct.Protein)
    else None
  }

  /** Decoding the discriminant of a variant gives the variant back, so the codes are distinct. */
  lemma SplicedSegProductRoundTrip(x: SplicedSegProduct)
    ensures SplicedSegProductFromCode(SplicedSegProductCode(x)) == Some(x)
  {
  }

  lemma SplicedSegProductCodeInjective(x: SplicedSegProduct, y: SplicedSegProduct)
    ensures SplicedSegProductCode(x) == SplicedSegProductCode(y) ==> x == y
  {
    SplicedSegProductRoundTrip(x);
    SplicedSegProductRoundTrip(y);
  }


  datatype SplicedSegModifier = StartCodonFound(startFound: bool) | StopCodonFound(stopFound: bool)

  /** `SplicedSeg`. */
  datatype SplicedSeg = SplicedSeg(
    productId: Option<SeqId>,
    genomicId: Option<SeqId>,
    productStrand: Option<NaStrand>,
    genomicStrand: Option<NaStrand>,
    productType: SplicedSegProduct,
    exons: seq<SplicedExon>,
    polyA: Option<int>,
    productLength: Option<nat>,
    modifiers: Option<set<SplicedSegModifier>>)

  /** A transcript is antisense when its product strand is minus. */
  predicate Antisense(s: SplicedSeg)
  {
    s.productStrand == Some(NaStrand.Minus)
  }

  /** Every exon of a transcript is placed by nucleotide positions. */
  predicate NucleotideExons(exons: seq<SplicedExon>)
  {
    forall i :: 0 <= i < |exons| ==> exons[i].productStart.NucPos? && exons[i].productEnd.NucPos?
  }

  /** The last aligned product position. */
  function MaxProductEnd(exons: seq<SplicedExon>): (m: nat)
    requires |exons| > 0 && NucleotideExons(exons)
    ensures forall i :: 0 <= i < |exons| ==> exons[i].productEnd.nuc <= m
    ensures exists i :: 0 <= i < |exons| && exons[i].productEnd.nuc == m
  {
    if |exons| == 1 then exons[0].productEnd.nuc
    else
      var m := MaxProductEnd(exons[1..]);
      assert forall i :: 1 <= i < |exons| ==> exons[i] == exons[1..][i - 1];
      if exons[0].productEnd.nuc >= m then exons[0].productEnd.nuc else m
  }

  /** The first aligned product position. */
  function MinProductStart(exons: seq<SplicedExon>): (m: nat)
    requires |exons| > 0 && NucleotideExons(exons)
    ensures forall i :: 0 <= i < |exons| ==> m <= exons[i].productStart.nuc
    ensures exists i :: 0 <= i < |exons| && exons[i].productStart.nuc == m
  {
    if |exons| == 1 then exons[0].productStart.nuc
    else
      var m := MinProductStart(exons[1..]);
      assert forall i :: 1 <= i < |exons| ==> exons[i] == exons[1..][i - 1];
      if exons[0].productStart.nuc <= m then exons[0].productStart.nuc else m
  }

  /**
   * The poly(A) tail of a transcript lies past every aligned position: for
   * a sense transcript after the last one and within the product length,
   * for an antisense transcript before the first one and no earlier than -1.
   */
  predicate PolyAConsistent(s: SplicedSeg)
  {
    s.polyA.None? ||
    (s.productType == Transcript && |s.exons| > 0 && NucleotideExons(s.exons) &&
      var p := s.polyA.value;
      if Antisense(s) then -1 <= p < MinProductStart(s.exons)
      else MaxProductEnd(s.exons) < p && (s.productLength.Some? ==> p <= s.productLength.value))
  }

  /** Exons are valid and the poly(A) tail is placed consistently. */
  predicate ValidSplicedSeg(s: SplicedSeg)
  {
    (forall i :: 0 <= i < |s.exons| ==> ValidSplicedExon(s.exons[i])) && PolyAConsistent(s)
  }

  /**
   * In a valid spliced alignment every aligned product position, anywhere
   * within any exon, lies on the documented side of the poly(A) start.
   */
  lemma PolyABeyondAlignment(s: SplicedSeg, i: nat, pos: nat)
    requires ValidSplicedSeg(s) && s.polyA.Some? && i < |s.exons|
    requires s.exons[i].productStart.NucPos? && s.exons[i].productStart.nuc <= pos
    requires s.exons[i].productEnd.NucPos? && pos <= s.exons[i].productEnd.nuc
    ensures !Antisense(s) ==> pos < s.polyA.value
    ensures Antisense(s) ==> s.polyA.value < pos
  {
  }

  /** A sense transcript whose tail starts exactly at the product length is consistent when its exons end before it. */
  lemma InferredTailAtEnd(s: SplicedSeg)
    requires s.productType == Transcript && !Antisense(s) && |s.exons| > 0 && NucleotideExons(s.exons)
    requires s.productLength.Some? && MaxProductEnd(s.exons) < s.productLength.value
    requires s.polyA == Some(s.productLength.value as int)
    ensures PolyAConsistent(s)
  {
  }

  /**
   * The sense condition is exactly a bound against every exon: the tail
   * starts after the last aligned position iff it starts after each
   * exon's end.
   */
  lemma MaxProductEndBound(exons: seq<SplicedExon>, p: int)
    requires |exons| > 0 && NucleotideExons(exons)
    ensures MaxProductEnd(exons) < p <==> forall i :: 0 <= i < |exons| ==> exons[i].productEnd.nuc < p
  {
  }

  /** The product and genomic extents of an exon's parts: insertions count on one side only. */
  function ProductSpan(parts: seq<SplicedExonChunk>): (n: nat)
    ensures n >= InsertedOn(parts, true)
  {
    if |parts| == 0 then 0
    else
      ProductSpan(parts[..|parts| - 1]) +
      match parts[|parts| - 1]
      case Match(n) => n
      case Mismatch(n) => n
      case Diag(n) => n
      case ProductLine(n) => n
      case GenomicIns(_) => 0
  }

  function GenomicSpan(parts: seq<SplicedExonChunk>): (n: nat)
    ensures n >= InsertedOn(parts, false)
  {
    if |parts| == 0 then 0
    else
      GenomicSpan(parts[..|parts| - 1]) +
      match parts[|parts| - 1]
      case Match(n) => n
      case Mismatch(n) => n
      case Diag(n) => n
      case ProductLine(_) => 0
      case GenomicIns(n) => n
  }

  /**
   * Parts that only match, mismatch or follow the diagonal cover the same
   * extent on the product and on the genome; an insertion widens one side
   * by its length.
   */
  lemma {:induction false} SpanDifference(parts: seq<SplicedExonChunk>)
    ensures ProductSpan(parts) - GenomicSpan(parts) == InsertedOn(parts, true) - InsertedOn(parts, false)
    decreases |parts|
  {
    if |parts| > 0 {
      SpanDifference(parts[..|parts| - 1]);
    }
  }

  /** The total length of the insertions in the product (`true`) or in the genome (`false`). */
  function InsertedOn(parts: seq<SplicedExonChunk>, product: bool): (n: nat)
    ensures (forall i :: 0 <= i < |parts| ==> !parts[i].ProductLine? && !parts[i].GenomicIns?) ==> n == 0
  {
    if |parts| == 0 then 0
    else
      InsertedOn(parts[..|parts| - 1], product) +
      match parts[|parts| - 1]
      case ProductLine(n) => if product then n else 0
      case GenomicIns(n) => if product then 0 else n
      case _ => 0
  }

  // Packed and standard segments.

  /**
   * `PackedSeg`: starts for the whole alignment in ids order, with a
   * presence flag byte string and one length per segment.
   */
  datatype PackedSeg = PackedSeg(
    dim: nat,
    numseg: nat,
    ids: seq<SeqId>,
    starts: seq<nat>,
    present: seq<nat>,
    lens: seq<nat>,
    strands: Option<seq<NaStrand>>,
    scores: Option<seq<Score>>)

  /** One sequence and one start per dimension, one length and, when scored, one score per segment. */
  predicate ValidPackedSeg(p: PackedSeg)
  {
    |p.ids| == p.dim && |p.starts| == p.dim && |p.lens| == p.numseg
    && (forall k :: 0 <= k < |p.present| ==> p.present[k] < 256)
    && (p.scores.Some? ==> |p.scores.value| == p.numseg)
  }

  /** `StdSeg`: one segment given as a location on each sequence. */
  datatype StdSeg = StdSeg(
    dim: nat,
    ids: Option<seq<SeqId>>,
    loc: seq<SeqLoc>,
    scores: Option<seq<Score>>)

  /** The sequences, when listed, number `dim`. */
  predicate ValidStdSeg(s: StdSeg)
  {
    s.ids.Some? ==> |s.ids.value| == s.dim
  }

  // Alignments.

  /** `SeqAlignSegs`. */
  datatype SeqAlignSegs =
    | DenDiag(diags: seq<DenseDiag>)
    | DenSeg(denseSeg: DenseSeg)
    | Std(stds: seq<StdSeg>)
    | Packed(packed: PackedSeg)
    | Disc(alignments: set<SeqAlign>)
    | Spliced(spliced: SplicedSeg)
    | Sparse(rows: set<SparseAlign>)

  /** `SeqAlign`. */
  datatype SeqAlign = SeqAlign(
    alignType: SeqAlignType,
    dim: Option<nat>,
    score: Option<set<Score>>,
    segs: SeqAlignSegs,
    bounds: Option<set<SeqLoc>>,
    id: Option<seq<ObjectId>>)

  /** Every segment layout in the alignment, nested ones included, meets its constraints. */
  predicate ValidSeqAlign(a: SeqAlign)
    decreases a, 1
  {
    ValidSegs(a.segs)
  }

  predicate ValidSegs(s: SeqAlignSegs)
    decreases s, 0
  {
    match s
    case DenDiag(ds) => forall i :: 0 <= i < |ds| ==> ValidDenseDiag(ds[i])
    case DenSeg(d) => ValidDenseSeg(d)
    case Std(ss) => forall i :: 0 <= i < |ss| ==> ValidStdSeg(ss[i])
    case Packed(p) => ValidPackedSeg(p)
    case Disc(als) => forall a :: a in als ==> ValidSeqAlign(a)
    case Spliced(sp) => ValidSplicedSeg(sp)
    case Sparse(rows) => forall r :: r in rows ==> ValidSparseAlign(r)
  }

  /** A discontinuous alignment is valid exactly when each of its parts is. */
  lemma DiscValid(als: set<SeqAlign>, a: SeqAlign)
    requires a in als
    ensures ValidSegs(SeqAlignSegs.Disc(als)) ==> ValidSeqAlign(a)
    ensures ValidSegs(SeqAlignSegs.Disc(als - {a})) && ValidSeqAlign(a) ==> ValidSegs(SeqAlignSegs.Disc(als))
  {
  }
}
