/**
 * Sequence instances of `src/asn/seq.rs` (NCBI seq.asn): the molecule and
 * representation classes with their discriminants and defaults, the
 * packed sequence alphabets, and which data a representation class
 * carries.
 */
module Seq {
  import opened Wrappers
  import opened Bytes
  import opened General
  import opened Standins
  import SeqLoc

  /** `BioMol`: the type of biomolecule. */
  datatype BioMol =
    | Unknown
    | Genomic
    | PreRNA
    | mRNA
    | rRNA
    | tRNA
    | snRNA
    | scRNA
    | Peptide
    | OtherGenetic
    | Genomic_mRNA
    | cRNA
    | snoRNA
    | TranscribedRNA
    | ncRNA
    | tmRNA
    | Other

  /** The discriminant each variant serialises as. */
  function BioMolCode(x: BioMol): (c: int)
    ensures 0 <= c < 256
    ensures 0 <= c <= 15 || c == 255
  {
    match x
    case Unknown => 0
    case Genomic => 1
    case PreRNA => 2
    case mRNA => 3
    case rRNA => 4
    case tRNA => 5
    case snRNA => 6
    case scRNA => 7
    case Peptide => 8
    case OtherGenetic => 9
    case Genomic_mRNA => 10
    case cRNA => 11
    case snoRNA => 12
    case TranscribedRNA => 13
    case ncRNA => 14
    case tmRNA => 15
    case Other => 255
  }

  /** The variant with discriminant `c`, if there is one. */
  function BioMolFromCode(c: int): (r: Option<BioMol>)
    ensures r.Some? <==> (0 <= c <= 15 || c == 255)
    ensures r.Some? ==> BioMolCode(r.value) == c
  {
    if c == 0 then Some(BioMol.Unknown)
    else if c == 1 then Some(BioMol.Genomic)
    else if c == 2 then Some(BioMol.PreRNA)
    else if c == 3 then Some(BioMol.mRNA)
    else if c == 4 then Some(BioMol.rRNA)
    else if c == 5 then Some(BioMol.tRNA)
    else if c == 6 then Some(BioMol.snRNA)
    else if c == 7 then Some(BioMol.scRNA)
    else if c == 8 then Some(BioMol.Peptide)
    else if c == 9 then Some(BioMol.OtherGenetic)
    else if c == 10 then Some(BioMol.Genomic_mRNA)
    else if c == 11 then Some(BioMol.cRNA)
    else if c == 12 then Some(BioMol.snoRNA)
    else if c == 13 then Some(BioMol.TranscribedRNA)
    else if c == 14 then Some(BioMol.ncRNA)
    else if c == 15 then Some(BioMol.tmRNA)
    else if c == 255 then Some(BioMol.Other)
    else None
  }

  /** Decoding the discriminant of a variant gives the variant back, so the codes are distinct. */
  lemma BioMolRoundTrip(x: BioMol)
    ensures BioMolFromCode(BioMolCode(x)) == Some(x)
  {
  }

  lemma BioMolCodeInjective(x: BioMol, y: BioMol)
    ensures BioMolCode(x) == BioMolCode(y) ==> x == y
  {
    BioMolRoundTrip(x);
    BioMolRoundTrip(y);
  }

  /** `#[default]`: Unknown. */
  const DefaultBioMol: BioMol := BioMol.Unknown

  /** `MolTech`: the technique that produced the sequence. */
  datatype MolTech =
    | Unknown
    | Standard
    | EST
    | STS
    | Survey
    | GeneMap
    | PhysMap
    | Derived
    | ConceptTrans
    | SeqPept
    | Both
    | SeqPeptOverlap
    | SeqPeptHomol
    | ConceptTransA
    | HTGS1
    | HTGS2
    | HTGS3
    | FLI_cDNA
    | HTGS0
    | HTC
    | WGS
    | Barcode
    | CompositeWH
    | TSA
    | Targeted
    | Other

  /** The discriminant each variant serialises as. */
  function MolTechCode(x: MolTech): (c: int)
    ensures 0 <= c < 256
    ensures 0 <= c <= 24 || c == 255
  {
    match x
    case Unknown => 0
    case Standard => 1
    case EST => 2
    case STS => 3
    case Survey => 4
    case GeneMap => 5
    case PhysMap => 6
    case Derived => 7
    case ConceptTrans => 8
    case SeqPept => 9
    case Both => 10
    case SeqPeptOverlap => 11
    case SeqPeptHomol => 12
    case ConceptTransA => 13
    case HTGS1 => 14
    case HTGS2 => 15
    case HTGS3 => 16
    case FLI_cDNA => 17
    case HTGS0 => 18
    case HTC => 19
    case WGS => 20
    case Barcode => 21
    case CompositeWH => 22
    case TSA => 23
    case Targeted => 24
    case Other => 255
  }

  /** The variant with discriminant `c`, if there is one. */
  function MolTechFromCode(c: int): (r: Option<MolTech>)
    ensures r.Some? <==> (0 <= c <= 24 || c == 255)
    ensures r.Some? ==> MolTechCode(r.value) == c
  {
    if c < 9 then MolTechFromCode0(c)
    else if c < 18 then MolTechFromCode1(c)
    else MolTechFromCode2(c)
  }

  function MolTechFromCode0(c: int): (r: Option<MolTech>)
    ensures r.Some? <==> (0 <= c <= 8)
    ensures r.Some? ==> MolTechCode(r.value) == c
  {
    if c == 0 then Some(MolTech.Unknown)
    else if c == 1 then Some(MolTech.Standard)
    else if c == 2 then Some(MolTech.EST)
    else if c == 3 then Some(MolTech.STS)
    else if c == 4 then Some(MolTech.Survey)
    else if c == 5 then Some(MolTech.GeneMap)
    else if c == 6 then Some(MolTech.PhysMap)
    else if c == 7 then Some(MolTech.Derived)
    else if c == 8 then Some(MolTech.ConceptTrans)
    else None
  }

  function MolTechFromCode1(c: int): (r: Option<MolTech>)
    ensures r.Some? <==> (9 <= c <= 17)
    ensures r.Some? ==> MolTechCode(r.value) == c
  {
    if c == 9 then Some(MolTech.SeqPept)
    else if c == 10 then Some(MolTech.Both)
    else if c == 11 then Some(MolTech.SeqPeptOverlap)
    else if c == 12 then Some(MolTech.SeqPeptHomol)
    else if c == 13 then Some(MolTech.ConceptTransA)
    else if c == 14 then Some(MolTech.HTGS1)
    else if c == 15 then Some(MolTech.HTGS2)
    else if c == 16 then Some(MolTech.HTGS3)
    else if c == 17 then Some(MolTech.FLI_cDNA)
    else None
  }

  function MolTechFromCode2(c: int): (r: Option<MolTech>)
    ensures r.Some? <==> (18 <= c <= 24 || c == 255)
    ensures r.Some? ==> MolTechCode(r.value) == c
  {
    if c == 18 then Some(MolTech.HTGS0)
    else if c == 19 then Some(MolTech.HTC)
    else if c == 20 then Some(MolTech.WGS)
    else if c == 21 then Some(MolTech.Barcode)
    else if c == 22 then Some(MolTech.CompositeWH)
    else if c == 23 then Some(MolTech.TSA)
    else if c == 24 then Some(MolTech.Targeted)
    else if c == 255 then Some(MolTech.Other)
    else None
  }

  /** Decoding the discriminant of a variant gives the variant back, so the codes are distinct. */
  lemma MolTechRoundTrip(x: MolTech)
    ensures MolTechFromCode(MolTechCode(x)) == Some(x)
  {
  }

  lemma MolTechCodeInjective(x: MolTech, y: MolTech)
    ensures MolTechCode(x) == MolTechCode(y) ==> x == y
  {
    MolTechRoundTrip(x);
    MolTechRoundTrip(y);
  }

  /** `#[default]`: Unknown. */
  const DefaultMolTech: MolTech := MolTech.Unknown

  /** `MolCompleteness`: which ends of the sequence are known. */
  datatype MolCompleteness =
    | Unknown
    | Complete
    | Partial
    | NoLeft
    | NoRight
    | NoEnds
    | HasLeft
    | HasRight
    | Other

  /** The discriminant each variant serialises as. */
  function MolCompletenessCode(x: MolCompleteness): (c: int)
    ensures 0 <= c < 256
    ensures 0 <= c <= 7 || c == 255
  {
    match x
    case Unknown => 0
    case Complete => 1
    case Partial => 2
    case NoLeft => 3
    case NoRight => 4
    case NoEnds => 5
    case HasLeft => 6
    case HasRight => 7
    case Other => 255
  }

  /** The variant with discriminant `c`, if there is one. */
  function MolCompletenessFromCode(c: int): (r: Option<MolCompleteness>)
    ensures r.Some? <==> (0 <= c <= 7 || c == 255)
    ensures r.Some? ==> MolCompletenessCode(r.value) == c
  {
    if c == 0 then Some(MolCompleteness.Unknown)
    else if c == 1 then Some(MolCompleteness.Complete)
    else if c == 2 then Some(MolCompleteness.Partial)
    else if c == 3 then Some(MolCompleteness.NoLeft)
    else if c == 4 then Some(MolCompleteness.NoRight)
    else if c == 5 then Some(MolCompleteness.NoEnds)
    else if c == 6 then Some(MolCompleteness.HasLeft)
    else if c == 7 then Some(MolCompleteness.HasRight)
    else if c == 255 then Some(MolCompleteness.Other)
    else None
  }

  /** Decoding the discriminant of a variant gives the variant back, so the codes are distinct. */
  lemma MolCompletenessRoundTrip(x: MolCompleteness)
    ensures MolCompletenessFromCode(MolCompletenessCode(x)) == Some(x)
  {
  }

  lemma MolCompletenessCodeInjective(x: MolCompleteness, y: MolCompleteness)
    ensures MolCompletenessCode(x) == MolCompletenessCode(y) ==> x == y
  {
    MolCompletenessRoundTrip(x);
    MolCompletenessRoundTrip(y);
  }

  /** `#[default]`: Unknown. */
  const DefaultMolCompleteness: MolCompleteness := MolCompleteness.Unknown

  /** `MolInfo`: the molecule and the techniques behind it. */
  datatype MolInfo = MolInfo(
    bioMol: BioMol,
    tech: MolTech,
    techExp: Option<string>,
    completeness: MolCompleteness,
    gbMolType: Option<string>)

  /** `Repr`: the representation class of a sequence instance. */
  datatype Repr =
    | NotSet
    | Virtual
    | Raw
    | Seg
    | Const
    | Ref
    | Consen
    | Map
    | Delta
    | Other

  /** The discriminant each variant serialises as. */
  function ReprCode(x: Repr): (c: int)
    ensures 0 <= c < 256
    ensures 0 <= c <= 8 || c == 255
  {
    match x
    case NotSet => 0
    case Virtual => 1
    case Raw => 2
    case Seg => 3
    case Const => 4
    case Ref => 5
    case Consen => 6
    case Map => 7
    case Delta => 8
    case Other => 255
  }

  /** The variant with discriminant `c`, if there is one. */
  function ReprFromCode(c: int): (r: Option<Repr>)
    ensures r.Some? <==> (0 <= c <= 8 || c == 255)
    ensures r.Some? ==> ReprCode(r.value) == c
  {
    if c == 0 then Some(Repr.NotSet)
    else if c == 1 then Some(Repr.Virtual)
    else if c == 2 then Some(Repr.Raw)
    else if c == 3 then Some(Repr.Seg)
    else if c == 4 then Some(Repr.Const)
    else if c == 5 then Some(Repr.Ref)
    else if c == 6 then Some(Repr.Consen)
    else if c == 7 then Some(Repr.Map)
    else if c == 8 then Some(Repr.Delta)
    else if c == 255 then Some(Repr.Other)
    else None
  }

  /** Decoding the discriminant of a variant gives the variant back, so the codes are distinct. */
  lemma ReprRoundTrip(x: Repr)
    ensures ReprFromCode(ReprCode(x)) == Some(x)
  {
  }

  lemma ReprCodeInjective(x: Repr, y: Repr)
    ensures ReprCode(x) == ReprCode(y) ==> x == y
  {
    ReprRoundTrip(x);
    ReprRoundTrip(y);
  }

  /** `Mol`: the molecule class in the living organism. */
  datatype Mol =
    | NotSet
    | DNA
    | RNA
    | AA
    | NA
    | Other

  /** The discriminant each variant serialises as. */
  function MolCode(x: Mol): (c: int)
    ensures 0 <= c < 256
    ensures 0 <= c <= 4 || c == 255
  {
    match x
    case NotSet => 0
    case DNA => 1
    case RNA => 2
    case AA => 3
    case NA => 4
    case Other => 255
  }

  /** The variant with discriminant `c`, if there is one. */
  function MolFromCode(c: int): (r: Option<Mol>)
    ensures r.Some? <==> (0 <= c <= 4 || c == 255)
    ensures r.Some? ==> MolCode(r.value) == c
  {
    if c == 0 then Some(Mol.NotSet)
    else if c == 1 then Some(Mol.DNA)
    else if c == 2 then Some(Mol.RNA)
    else if c == 3 then Some(Mol.AA)
    else if c == 4 then Some(Mol.NA)
    else if c == 255 then Some(Mol.Other)
    else None
  }

  /** Decoding the discriminant of a variant gives the variant back, so the codes are distinct. */
  lemma MolRoundTrip(x: Mol)
    ensures MolFromCode(MolCode(x)) == Some(x)
  {
  }

  lemma MolCodeInjective(x: Mol, y: Mol)
    ensures MolCode(x) == MolCode(y) ==> x == y
  {
    MolRoundTrip(x);
    MolRoundTrip(y);
  }

  /** `Topology`: the topology of the molecule. */
  datatype Topology =
    | NotSet
    | Linear
    | Circular
    | Tandem
    | Other

  /** The discriminant each variant serialises as. */
  function TopologyCode(x: Topology): (c: int)
    ensures 0 <= c < 256
    ensures 0 <= c <= 3 || c == 255
  {
    match x
    case NotSet => 0
    case Linear => 1
    case Circular => 2
    case Tandem => 3
    case Other => 255
  }

  /** The variant with discriminant `c`, if there is one. */
  function TopologyFromCode(c: int): (r: Option<Topology>)
    ensures r.Some? <==> (0 <= c <= 3 || c == 255)
    ensures r.Some? ==> TopologyCode(r.value) == c
  {
    if c == 0 then Some(Topology.NotSet)
    else if c == 1 then Some(Topology.Linear)
    else if c == 2 then Some(Topology.Circular)
    else if c == 3 then Some(Topology.Tandem)
    else if c == 255 then Some(Topology.Other)
    else None
  }

  /** Decoding the discriminant of a variant gives the variant back, so the codes are distinct. */
  lemma TopologyRoundTrip(x: Topology)
    ensures TopologyFromCode(TopologyCode(x)) == Some(x)
  {
  }

  lemma TopologyCodeInjective(x: Topology, y: Topology)
    ensures TopologyCode(x) == TopologyCode(y) ==> x == y
  {
    TopologyRoundTrip(x);
    TopologyRoundTrip(y);
  }

  /** `#[default]`: Linear. */
  const DefaultTopology: Topology := Topology.Linear

  /** `Strand`: the strandedness in the living organism. */
  datatype Strand =
    | NotSet
    | SS
    | DS
    | Mixed
    | Other

  /** The discriminant each variant serialises as. */
  function StrandCode(x: Strand): (c: int)
    ensures 0 <= c < 256
    ensures 0 <= c <= 3 || c == 255
  {
    match x
    case NotSet => 0
    case SS => 1
    case DS => 2
    case Mixed => 3
    case Other => 255
  }

  /** The variant with discriminant `c`, if there is one. */
  function StrandFromCode(c: int): (r: Option<Strand>)
    ensures r.Some? <==> (0 <= c <= 3 || c == 255)
    ensures r.Some? ==> StrandCode(r.value) == c
  {
    if c == 0 then Some(Strand.NotSet)
    else if c == 1 then Some(Strand.SS)
    else if c == 2 then Some(Strand.DS)
    else if c == 3 then Some(Strand.Mixed)
    else if c == 255 then Some(Strand.Other)
    else None
  }

  /** Decoding the discriminant of a variant gives the variant back, so the codes are distinct. */
  lemma StrandRoundTrip(x: Strand)
    ensures StrandFromCode(StrandCode(x)) == Some(x)
  {
  }

  lemma StrandCodeInjective(x: Strand, y: Strand)
    ensures StrandCode(x) == StrandCode(y) ==> x == y
  {
    StrandRoundTrip(x);
    StrandRoundTrip(y);
  }

  /** `GIBBMol`: the GenInfo Backbone molecule type. */
  datatype GIBBMol =
    | Unknown
    | Genomic
    | PreRNA
    | mRNA
    | rRNA
    | tRNA
    | snRNA
    | scRNA
    | Peptide
    | OtherGenetic
    | Genomic_mRNA
    | Other

  /** The discriminant each variant serialises as. */
  function GIBBMolCode(x: GIBBMol): (c: int)
    ensures 0 <= c < 256
    ensures 0 <= c <= 10 || c == 255
  {
    match x
    case Unknown => 0
    case Genomic => 1
    case PreRNA => 2
    case mRNA => 3
    case rRNA => 4
    case tRNA => 5
    case snRNA => 6
    case scRNA => 7
    case Peptide => 8
    case OtherGenetic => 9
    case Genomic_mRNA => 10
    case Other => 255
  }

  /** The variant with discriminant `c`, if there is one. */
  function GIBBMolFromCode(c: int): (r: Option<GIBBMol>)
    ensures r.Some? <==> (0 <= c <= 10 || c == 255)
    ensures r.Some? ==> GIBBMolCode(r.value) == c
  {
    if c == 0 then Some(GIBBMol.Unknown)
    else if c == 1 then Some(GIBBMol.Genomic)
    else if c == 2 then Some(GIBBMol.PreRNA)
    else if c == 3 then Some(GIBBMol.mRNA)
    else if c == 4 then Some(GIBBMol.rRNA)
    else if c == 5 then Some(GIBBMol.tRNA)
    else if c == 6 then Some(GIBBMol.snRNA)
    else if c == 7 then Some(GIBBMol.scRNA)
    else if c == 8 then Some(GIBBMol.Peptide)
    else if c == 9 then Some(GIBBMol.OtherGenetic)
    else if c == 10 then Some(GIBBMol.Genomic_mRNA)
    else if c == 255 then Some(GIBBMol.Other)
    else None
  }

  /** Decoding the discriminant of a variant gives the variant back, so the codes are distinct. */
  lemma GIBBMolRoundTrip(x: GIBBMol)
    ensures GIBBMolFromCode(GIBBMolCode(x)) == Some(x)
  {
  }

  lemma GIBBMolCodeInjective(x: GIBBMol, y: GIBBMol)
    ensures GIBBMolCode(x) == GIBBMolCode(y) ==> x == y
  {
    GIBBMolRoundTrip(x);
    GIBBMolRoundTrip(y);
  }

  /** `GIBBMod`: a GenInfo Backbone modifier. */
  datatype GIBBMod =
    | DNA
    | RNA
    | ExtraChrom
    | Plasmid
    | Mitochondrial
    | Chloroplast
    | Kinetoplast
    | Cyanelle
    | Synthetic
    | Recombinant
    | Partial
    | Complete
    | Mutagen
    | NatMut
    | Transposon
    | InsertionSeq
    | NoLeft
    | NoRight
    | MacroNuclear
    | ProViral
    | EST
    | STS
    | Survey
    | Chromoplast
    | GeneMap
    | RestMap
    | PhysMap
    | Other

  /** The discriminant each variant serialises as. */
  function GIBBModCode(x: GIBBMod): (c: int)
    ensures 0 <= c < 256
    ensures 0 <= c <= 26 || c == 255
  {
    match x
    case DNA => 0
    case RNA => 1
    case ExtraChrom => 2
    case Plasmid => 3
    case Mitochondrial => 4
    case Chloroplast => 5
    case Kinetoplast => 6
    case Cyanelle => 7
    case Synthetic => 8
    case Recombinant => 9
    case Partial => 10
    case Complete => 11
    case Mutagen => 12
    case NatMut => 13
    case Transposon => 14
    case InsertionSeq => 15
    case NoLeft => 16
    case NoRight => 17
    case MacroNuclear => 18
    case ProViral => 19
    case EST => 20
    case STS => 21
    case Survey => 22
    case Chromoplast => 23
    case GeneMap => 24
    case RestMap => 25
    case PhysMap => 26
    case Other => 255
  }

  /** The variant with discriminant `c`, if there is one. */
  function GIBBModFromCode(c: int): (r: Option<GIBBMod>)
    ensures r.Some? <==> (0 <= c <= 26 || c == 255)
    ensures r.Some? ==> GIBBModCode(r.value) == c
  {
    if c < 10 then GIBBModFromCode0(c)
    else if c < 20 then GIBBModFromCode1(c)
    else GIBBModFromCode2(c)
  }

  function GIBBModFromCode0(c: int): (r: Option<GIBBMod>)
    ensures r.Some? <==> (0 <= c <= 9)
    ensures r.Some? ==> GIBBModCode(r.value) == c
  {
    if c == 0 then Some(GIBBMod.DNA)
    else if c == 1 then Some(GIBBMod.RNA)
    else if c == 2 then Some(GIBBMod.ExtraChrom)
    else if c == 3 then Some(GIBBMod.Plasmid)
    else if c == 4 then Some(GIBBMod.Mitochondrial)
    else if c == 5 then Some(GIBBMod.Chloroplast)
    else if c == 6 then Some(GIBBMod.Kinetoplast)
    else if c == 7 then Some(GIBBMod.Cyanelle)
    else if c == 8 then Some(GIBBMod.Synthetic)
    else if c == 9 then Some(GIBBMod.Recombinant)
    else None
  }

  function GIBBModFromCode1(c: int): (r: Option<GIBBMod>)
    ensures r.Some? <==> (10 <= c <= 19)
    ensures r.Some? ==> GIBBModCode(r.value) == c
  {
    if c == 10 then Some(GIBBMod.Partial)
    else if c == 11 then Some(GIBBMod.Complete)
    else if c == 12 then Some(GIBBMod.Mutagen)
    else if c == 13 then Some(GIBBMod.NatMut)
    else if c == 14 then Some(GIBBMod.Transposon)
    else if c == 15 then Some(GIBBMod.InsertionSeq)
    else if c == 16 then Some(GIBBMod.NoLeft)
    else if c == 17 then Some(GIBBMod.NoRight)
    else if c == 18 then Some(GIBBMod.MacroNuclear)
    else if c == 19 then Some(GIBBMod.ProViral)
    else None
  }

  function GIBBModFromCode2(c: int): (r: Option<GIBBMod>)
    ensures r.Some? <==> (20 <= c <= 26 || c == 255)
    ensures r.Some? ==> GIBBModCode(r.value) == c
  {
    if c == 20 then Some(GIBBMod.EST)
    else if c == 21 then Some(GIBBMod.STS)
    else if c == 22 then Some(GIBBMod.Survey)
    else if c == 23 then Some(GIBBMod.Chromoplast)
    else if c == 24 then Some(GIBBMod.GeneMap)
    else if c == 25 then Some(GIBBMod.RestMap)
    else if c == 26 then Some(GIBBMod.PhysMap)
    else if c == 255 then Some(GIBBMod.Other)
    else None
  }

  /** Decoding the discriminant of a variant gives the variant back, so the codes are distinct. */
  lemma GIBBModRoundTrip(x: GIBBMod)
    ensures GIBBModFromCode(GIBBModCode(x)) == Some(x)
  {
  }

  lemma GIBBModCodeInjective(x: GIBBMod, y: GIBBMod)
    ensures GIBBModCode(x) == GIBBModCode(y) ==> x == y
  {
    GIBBModRoundTrip(x);
    GIBBModRoundTrip(y);
  }

  /** `GIBBMethod`: the sequencing method. */
  datatype GIBBMethod =
    | ConceptTrans
    | SeqPept
    | Both
    | SeqPeptOverlap
    | SeqPeptHomol
    | ConceptTransA
    | Other

  /** The discriminant each variant serialises as. */
  function GIBBMethodCode(x: GIBBMethod): (c: int)
    ensures 0 <= c < 256
    ensures 0 <= c <= 5 || c == 255
  {
    match x
    case ConceptTrans => 0
    case SeqPept => 1
    case Both => 2
    case SeqPeptOverlap => 3
    case SeqPeptHomol => 4
    case ConceptTransA => 5
    case Other => 255
  }

  /** The variant with discriminant `c`, if there is one. */
  function GIBBMethodFromCode(c: int): (r: Option<GIBBMethod>)
    ensures r.Some? <==> (0 <= c <= 5 || c == 255)
    ensures r.Some? ==> GIBBMethodCode(r.value) == c
  {
    if c == 0 then Some(GIBBMethod.ConceptTrans)
    else if c == 1 then Some(GIBBMethod.SeqPept)
    else if c == 2 then Some(GIBBMethod.Both)
    else if c == 3 then Some(GIBBMethod.SeqPeptOverlap)
    else if c == 4 then Some(GIBBMethod.SeqPeptHomol)
    else if c == 5 then Some(GIBBMethod.ConceptTransA)
    else if c == 255 then Some(GIBBMethod.Other)
    else None
  }

  /** Decoding the discriminant of a variant gives the variant back, so the codes are distinct. */
  lemma GIBBMethodRoundTrip(x: GIBBMethod)
    ensures GIBBMethodFromCode(GIBBMethodCode(x)) == Some(x)
  {
  }

  lemma GIBBMethodCodeInjective(x: GIBBMethod, y: GIBBMethod)
    ensures GIBBMethodCode(x) == GIBBMethodCode(y) ==> x == y
  {
    GIBBMethodRoundTrip(x);
    GIBBMethodRoundTrip(y);
  }

  /** The discriminants of the `#[default]` variants. */
  lemma DefaultCodes()
    ensures BioMolCode(DefaultBioMol) == 0 && MolTechCode(DefaultMolTech) == 0
    ensures MolCompletenessCode(DefaultMolCompleteness) == 0 && TopologyCode(DefaultTopology) == 1
  {
  }

  // NCBI2na: two bits per base, 00=A, 01=C, 10=G, 11=T.

  /** A nucleotide of the four-letter alphabets. */
  datatype NaBase = A | C | G | T

  /** The two-bit NCBI2na code of a base. */
  function Ncbi2naCode(b: NaBase): (c: int)
    ensures 0 <= c < 4
    ensures b == A <==> c == 0
    ensures b == C <==> c == 1
    ensures b == G <==> c == 2
    ensures b == T <==> c == 3
  {
    match b
    case A => 0
    case C => 1
    case G => 2
    case T => 3
  }

  /** The base of a two-bit NCBI2na code. */
  function Ncbi2naBase(c: int): (b: NaBase)
    requires 0 <= c < 4
    ensures Ncbi2naCode(b) == c
  {
    if c == 0 then A else if c == 1 then C else if c == 2 then G else T
  }

  /** Each base has its own code, so decoding the code gives the base back. */
  lemma Ncbi2naBaseOfCode(b: NaBase)
    ensures Ncbi2naBase(Ncbi2naCode(b)) == b
  {
  }

  /**
   * Four bases in one octet, the first in the two most significant bits:
   * each two-bit field of the octet reads back as its base's code.
   */
  function PackQuad(a: NaBase, b: NaBase, c: NaBase, d: NaBase): (x: byte)
    ensures x as int / 64 == Ncbi2naCode(a)
    ensures (x as int / 16) % 4 == Ncbi2naCode(b)
    ensures (x as int / 4) % 4 == Ncbi2naCode(c)
    ensures x as int % 4 == Ncbi2naCode(d)
  {
    (64 * Ncbi2naCode(a) + 16 * Ncbi2naCode(b) + 4 * Ncbi2naCode(c) + Ncbi2naCode(d)) as byte
  }

  /** The four bases of an octet, first base in the two most significant bits. */
  function UnpackOctet(x: byte): (q: seq<NaBase>)
    ensures |q| == 4
    ensures PackQuad(q[0], q[1], q[2], q[3]) == x
  {
    var n := x as int;
    assert n == 64 * (n / 64) + 16 * ((n / 16) % 4) + 4 * ((n / 4) % 4) + n % 4;
    [Ncbi2naBase(n / 64), Ncbi2naBase((n / 16) % 4), Ncbi2naBase((n / 4) % 4), Ncbi2naBase(n % 4)]
  }

  /** Unpacking a packed octet gives its four bases back. */
  lemma UnpackPackQuad(a: NaBase, b: NaBase, c: NaBase, d: NaBase)
    ensures UnpackOctet(PackQuad(a, b, c, d)) == [a, b, c, d]
  {
    Ncbi2naBaseOfCode(a);
    Ncbi2naBaseOfCode(b);
    Ncbi2naBaseOfCode(c);
    Ncbi2naBaseOfCode(d);
  }

  /** The base at `i`, or A (code 00) past the end, which pads the last octet. */
  function BaseOrPad(bases: seq<NaBase>, i: nat): NaBase
  {
    if i < |bases| then bases[i] else A
  }

  /** NCBI2na packing: four bases per octet, the last octet padded with A. */
  function Pack2na(bases: seq<NaBase>): (bs: seq<byte>)
    ensures |bs| == (|bases| + 3) / 4
    decreases |bases|
  {
    if |bases| == 0 then []
    else
      var rest := if |bases| <= 4 then [] else bases[4..];
      [PackQuad(BaseOrPad(bases, 0), BaseOrPad(bases, 1), BaseOrPad(bases, 2), BaseOrPad(bases, 3))]
      + Pack2na(rest)
  }

  /** NCBI2na unpacking: four bases from each octet. */
  function Unpack2na(bs: seq<byte>): (bases: seq<NaBase>)
    ensures |bases| == 4 * |bs|
  {
    if |bs| == 0 then [] else UnpackOctet(bs[0]) + Unpack2na(bs[1..])
  }

  /** Unpacking what was packed gives the bases back, followed by at most three padding A's. */
  lemma {:induction false} Unpack2naPack2na(bases: seq<NaBase>)
    ensures var u := Unpack2na(Pack2na(bases));
      |bases| <= |u| < |bases| + 4 && u[..|bases|] == bases
      && forall i :: |bases| <= i < |u| ==> u[i] == A
    decreases |bases|
  {
    if |bases| > 0 {
      var q := [BaseOrPad(bases, 0), BaseOrPad(bases, 1), BaseOrPad(bases, 2), BaseOrPad(bases, 3)];
      var rest := if |bases| <= 4 then [] else bases[4..];
      UnpackPackQuad(q[0], q[1], q[2], q[3]);
      Unpack2naPack2na(rest);
      var p := Pack2na(bases);
      assert p[1..] == Pack2na(rest);
      var u := Unpack2na(p);
      assert u == q + Unpack2na(Pack2na(rest));
      if |bases| > 4 {
        assert bases == bases[..4] + rest;
        assert u[..|bases|] == bases;
      } else {
        assert u == q;
        assert u[..|bases|] == bases;
      }
    }
  }

  /** Packing what was unpacked gives the octets back. */
  lemma {:induction false} Pack2naUnpack2na(bs: seq<byte>)
    ensures Pack2na(Unpack2na(bs)) == bs
  {
    if |bs| > 0 {
      var u := Unpack2na(bs);
      var q := UnpackOctet(bs[0]);
      assert u[..4] == q;
      if |bs| > 1 {
        assert u[4..] == Unpack2na(bs[1..]);
      } else {
        assert u == q;
      }
      Pack2naUnpack2na(bs[1..]);
      assert bs == [bs[0]] + bs[1..];
    }
  }

  // NCBI4na: one bit per base, 0001=A, 0010=C, 0100=G, 1000=T/U.

  /** The NCBI4na bit of a single base. */
  function Ncbi4naBit(b: NaBase): (c: int)
    ensures c == 1 || c == 2 || c == 4 || c == 8
  {
    match b
    case A => 1
    case C => 2
    case G => 4
    case T => 8
  }

  /** The NCBI4na code of a set of possible bases: the sum of their bits. */
  function Ncbi4naCode(s: set<NaBase>): (c: int)
    ensures 0 <= c < 16
    ensures c % 2 == 1 <==> A in s
    ensures (c / 2) % 2 == 1 <==> C in s
    ensures (c / 4) % 2 == 1 <==> G in s
    ensures c / 8 == 1 <==> T in s
  {
    (if A in s then 1 else 0) + (if C in s then 2 else 0)
    + (if G in s then 4 else 0) + (if T in s then 8 else 0)
  }

  /** The set of possible bases an NCBI4na code stands for. */
  function Ncbi4naBases(c: int): (s: set<NaBase>)
    requires 0 <= c < 16
    ensures A in s <==> c % 2 == 1
    ensures C in s <==> (c / 2) % 2 == 1
    ensures G in s <==> (c / 4) % 2 == 1
    ensures T in s <==> c / 8 == 1
  {
    (if c % 2 == 1 then {A} else {}) + (if (c / 2) % 2 == 1 then {C} else {})
    + (if (c / 4) % 2 == 1 then {G} else {}) + (if c / 8 == 1 then {T} else {})
  }

  /** Every set of bases has exactly one code: decoding the code gives the set back. */
  lemma Ncbi4naBasesOfCode(s: set<NaBase>)
    ensures Ncbi4naBases(Ncbi4naCode(s)) == s
  {
    var r := Ncbi4naBases(Ncbi4naCode(s));
    forall b ensures b in r <==> b in s {
      match b
      case A =>
      case C =>
      case G =>
      case T =>
    }
  }

  /** Every code from 0 to 15 stands for some set of bases. */
  lemma Ncbi4naCodeOfBases(c: int)
    requires 0 <= c < 16
    ensures Ncbi4naCode(Ncbi4naBases(c)) == c
  {
  }

  /** A single base is coded by its own bit; purine (A or G) is 0101 and pyrimidine (C or T) is 1010. */
  lemma Ncbi4naAmbiguity(b: NaBase)
    ensures Ncbi4naCode({b}) == Ncbi4naBit(b)
    ensures Ncbi4naCode({A, G}) == 5 && Ncbi4naCode({C, T}) == 10
  {
  }

  // Probability alphabets: NCBIpna has 5 octets per base (a, c, g, t, n),
  // NCBIpaa 25 octets per residue.

  const PNA_OCTETS := 5
  const PAA_OCTETS := 25

  /** Distributing one factor over a successor. */
  lemma MulSucc(w: nat, n: nat)
    ensures w * (n + 1) == w * n + w
    ensures w * n >= 0
  {
  }

  /** The data, `n` runs of `w` octets, cut into its runs, one per residue. */
  function Chunks(data: seq<byte>, w: nat, n: nat): (r: seq<seq<byte>>)
    requires |data| == w * n
    ensures |r| == n
    ensures forall i :: 0 <= i < |r| ==> |r[i]| == w
    decreases n
  {
    if n == 0 then []
    else
      MulSucc(w, n - 1);
      [data[..w]] + Chunks(data[w..], w, n - 1)
  }

  /** Residue `i` occupies octets w*i up to w*i + w. */
  lemma {:induction false} ChunkAt(data: seq<byte>, w: nat, n: nat, i: nat)
    requires |data| == w * n && i < n
    ensures w * i + w <= |data|
    ensures Chunks(data, w, n)[i] == data[w * i .. w * i + w]
    decreases n
  {
    MulSucc(w, n - 1);
    if i > 0 {
      ChunkAt(data[w..], w, n - 1, i - 1);
      MulSucc(w, i - 1);
    }
  }

  function Flatten(xs: seq<seq<byte>>): seq<byte>
  {
    if |xs| == 0 then [] else xs[0] + Flatten(xs[1..])
  }

  /** The per-residue runs put back together are the data. */
  lemma {:induction false} FlattenChunks(data: seq<byte>, w: nat, n: nat)
    requires |data| == w * n
    ensures Flatten(Chunks(data, w, n)) == data
    decreases n
  {
    if n > 0 {
      MulSucc(w, n - 1);
      FlattenChunks(data[w..], w, n - 1);
      assert Chunks(data, w, n)[1..] == Chunks(data[w..], w, n - 1);
      assert data == data[..w] + data[w..];
    }
  }

  // Sequence data.

  /** `SeqGapType`: the kind of gap; `Fragment` and `Clone` are deprecated, used only for AGP 1.1. */
  datatype SeqGapType =
    | Unknown
    | Fragment
    | Clone
    | ShortArm
    | Heterochromatin
    | Centromere
    | Telomere
    | Repeat
    | Contig
    | Scaffold
    | Contamination
    | Other

  /** The discriminant each variant serialises as. */
  function SeqGapTypeCode(x: SeqGapType): (c: int)
    ensures 0 <= c < 256
    ensures 0 <= c <= 10 || c == 255
  {
    match x
    case Unknown => 0
    case Fragment => 1
    case Clone => 2
    case ShortArm => 3
    case Heterochromatin => 4
    case Centromere => 5
    case Telomere => 6
    case Repeat => 7
    case Contig => 8
    case Scaffold => 9
    case Contamination => 10
    case Other => 255
  }

  /** The variant with discriminant `c`, if there is one. */
  function SeqGapTypeFromCode(c: int): (r: Option<SeqGapType>)
    ensures r.Some? <==> (0 <= c <= 10 || c == 255)
    ensures r.Some? ==> SeqGapTypeCode(r.value) == c
  {
    if c == 0 then Some(SeqGapType.Unknown)
    else if c == 1 then Some(SeqGapType.Fragment)
    else if c == 2 then Some(SeqGapType.Clone)
    else if c == 3 then Some(SeqGapType.ShortArm)
    else if c == 4 then Some(SeqGapType.Heterochromatin)
    else if c == 5 then Some(SeqGapType.Centromere)
    else if c == 6 then Some(SeqGapType.Telomere)
    else if c == 7 then Some(SeqGapType.Repeat)
    else if c == 8 then Some(SeqGapType.Contig)
    else if c == 9 then Some(SeqGapType.Scaffold)
    else if c == 10 then Some(SeqGapType.Contamination)
    else if c == 255 then Some(SeqGapType.Other)
    else None
  }

  /** Decoding the discriminant of a variant gives the variant back, so the codes are distinct. */
  lemma SeqGapTypeRoundTrip(x: SeqGapType)
    ensures SeqGapTypeFromCode(SeqGapTypeCode(x)) == Some(x)
  {
  }

  lemma SeqGapTypeCodeInjective(x: SeqGapType, y: SeqGapType)
    ensures SeqGapTypeCode(x) == SeqGapTypeCode(y) ==> x == y
  {
    SeqGapTypeRoundTrip(x);
    SeqGapTypeRoundTrip(y);
  }

  /** `SeqGapLinkage`: whether the sequences on either side of a gap are linked. */
  datatype SeqGapLinkage =
    | Unlinked
    | Linked
    | Other

  /** The discriminant each variant serialises as. */
  function SeqGapLinkageCode(x: SeqGapLinkage): (c: int)
    ensures 0 <= c < 256
    ensures c == 0 || c == 1 || c == 255
  {
    match x
    case Unlinked => 0
    case Linked => 1
    case Other => 255
  }

  /** The variant with discriminant `c`, if there is one. */
  function SeqGapLinkageFromCode(c: int): (r: Option<SeqGapLinkage>)
    ensures r.Some? <==> (c == 0 || c == 1 || c == 255)
    ensures r.Some? ==> SeqGapLinkageCode(r.value) == c
  {
    if c == 0 then Some(SeqGapLinkage.Unlinked)
    else if c == 1 then Some(SeqGapLinkage.Linked)
    else if c == 255 then Some(SeqGapLinkage.Other)
    else None
  }

  /** Decoding the discriminant of a variant gives the variant back, so the codes are distinct. */
  lemma SeqGapLinkageRoundTrip(x: SeqGapLinkage)
    ensures SeqGapLinkageFromCode(SeqGapLinkageCode(x)) == Some(x)
  {
  }

  lemma SeqGapLinkageCodeInjective(x: SeqGapLinkage, y: SeqGapLinkage)
    ensures SeqGapLinkageCode(x) == SeqGapLinkageCode(y) ==> x == y
  {
    SeqGapLinkageRoundTrip(x);
    SeqGapLinkageRoundTrip(y);
  }

  /** `LinkageEvidenceType`: the kind of evidence that links the two sides of a gap. */
  datatype LinkageEvidenceType =
    | PairedEnds
    | AlignGenus
    | AlignXGenus
    | AlignTrans
    | WithinClone
    | CloneContig
    | Map
    | Strobe
    | Unspecified
    | PCR
    | ProximityLigation
    | Other

  /** The discriminant each variant serialises as. */
  function LinkageEvidenceTypeCode(x: LinkageEvidenceType): (c: int)
    ensures 0 <= c < 256
    ensures 0 <= c <= 10 || c == 255
  {
    match x
    case PairedEnds => 0
    case AlignGenus => 1
    case AlignXGenus => 2
    case AlignTrans => 3
    case WithinClone => 4
    case CloneContig => 5
    case Map => 6
    case Strobe => 7
    case Unspecified => 8
    case PCR => 9
    case ProximityLigation => 10
    case Other => 255
  }

  /** The variant with discriminant `c`, if there is one. */
  function LinkageEvidenceTypeFromCode(c: int): (r: Option<LinkageEvidenceType>)
    ensures r.Some? <==> (0 <= c <= 10 || c == 255)
    ensures r.Some? ==> LinkageEvidenceTypeCode(r.value) == c
  {
    if c == 0 then Some(LinkageEvidenceType.PairedEnds)
    else if c == 1 then Some(LinkageEvidenceType.AlignGenus)
    else if c == 2 then Some(LinkageEvidenceType.AlignXGenus)
    else if c == 3 then Some(LinkageEvidenceType.AlignTrans)
    else if c == 4 then Some(LinkageEvidenceType.WithinClone)
    else if c == 5 then Some(LinkageEvidenceType.CloneContig)
    else if c == 6 then Some(LinkageEvidenceType.Map)
    else if c == 7 then Some(LinkageEvidenceType.Strobe)
    else if c == 8 then Some(LinkageEvidenceType.Unspecified)
    else if c == 9 then Some(LinkageEvidenceType.PCR)
    else if c == 10 then Some(LinkageEvidenceType.ProximityLigation)
    else if c == 255 then Some(LinkageEvidenceType.Other)
    else None
  }

  /** Decoding the discriminant of a variant gives the variant back, so the codes are distinct. */
  lemma LinkageEvidenceTypeRoundTrip(x: LinkageEvidenceType)
    ensures LinkageEvidenceTypeFromCode(LinkageEvidenceTypeCode(x)) == Some(x)
  {
  }

  lemma LinkageEvidenceTypeCodeInjective(x: LinkageEvidenceType, y: LinkageEvidenceType)
    ensures LinkageEvidenceTypeCode(x) == LinkageEvidenceTypeCode(y) ==> x == y
  {
    LinkageEvidenceTypeRoundTrip(x);
    LinkageEvidenceTypeRoundTrip(y);
  }

  /** `SeqGap`. */
  datatype SeqGap = SeqGap(gapType: SeqGapType, linkage: Option<SeqGapLinkage>, linkageEvidence: Option<set<LinkageEvidenceType>>)

  /** `SeqData`: one arm per alphabet. */
  datatype SeqData =
    | Ina(iupacna: string)
    | Iaa(iupacaa: string)
    | N2na(ncbi2na: seq<byte>)
    | N4na(ncbi4na: seq<byte>)
    | N8na(ncbi8na: seq<byte>)
    | NPna(ncbipna: seq<byte>)
    | N8aa(ncbi8aa: seq<byte>)
    | NEaa(ncbieaa: string)
    | NPaa(ncbipaa: seq<byte>)
    | NStdAAs(ncbistdaa: seq<byte>)
    | Gap(gap: SeqGap)

  /** The IUPAC one-letter alphabets have no spaces. */
  predicate NoSpaces(s: string)
  {
    forall i :: 0 <= i < |s| ==> s[i] != ' '
  }

  /**
   * What each alphabet's documentation requires of its data: IUPAC letters
   * without spaces, whole runs of 5 or 25 octets for the probability
   * alphabets, and NCBIstdaa codes 0 to 25.
   */
  predicate ValidSeqData(d: SeqData)
  {
    match d
    case Ina(s) => NoSpaces(s)
    case Iaa(s) => NoSpaces(s)
    case NPna(bs) => |bs| % PNA_OCTETS == 0
    case NPaa(bs) => |bs| % PAA_OCTETS == 0
    case NStdAAs(bs) => forall i :: 0 <= i < |bs| ==> bs[i] <= 25
    case _ => true
  }

  /**
   * The number of residues complete data of a probability alphabet
   * describes, one run of octets each.
   */
  function ProbabilityResidues(d: SeqData): (n: Option<nat>)
    requires ValidSeqData(d)
    ensures n.Some? <==> d.NPna? || d.NPaa?
    ensures d.NPna? ==> PNA_OCTETS * n.value == |d.ncbipna| && |Chunks(d.ncbipna, PNA_OCTETS, n.value)| == n.value
    ensures d.NPaa? ==> PAA_OCTETS * n.value == |d.ncbipaa| && |Chunks(d.ncbipaa, PAA_OCTETS, n.value)| == n.value
  {
    match d
    case NPna(bs) => Some(|bs| / PNA_OCTETS)
    case NPaa(bs) => Some(|bs| / PAA_OCTETS)
    case _ => None
  }

  /** NCBI2na packing always produces valid data, whatever the bases. */
  lemma Packed2naValid(bases: seq<NaBase>)
    ensures ValidSeqData(N2na(Pack2na(bases)))
    ensures |Unpack2na(Pack2na(bases))| - |bases| < 4
  {
    Unpack2naPack2na(bases);
  }

  // Instances.

  /** `SeqLiteral`: a piece of sequence, which always gives its length in residues. */
  datatype SeqLiteral = SeqLiteral(length: nat, fuzz: Option<IntFuzz>, seqData: Option<SeqData>)

  /** `DeltaSeq`: a location on another sequence or a literal piece. */
  datatype DeltaSeq = Loc(loc: SeqLoc.SeqLoc) | Literal(literal: SeqLiteral)

  /**
   * `SeqExt`: a segmented instance's ordered locations on other sequences,
   * the sequence a view refers to, a map's features (kept unparsed) or a
   * delta's pieces.
   */
  datatype SeqExt =
    | Seg(locs: seq<SeqLoc.SeqLoc>)
    | Ref(loc: SeqLoc.SeqLoc)
    | Map(features: seq<Opaque>)
    | Delta(deltas: seq<DeltaSeq>)

  /** `SeqInst`, without its history. */
  datatype SeqInst = SeqInst(
    repr: Repr,
    mol: Mol,
    length: Option<nat>,
    fuzz: Option<IntFuzz>,
    topology: Topology,
    strand: Strand,
    seqData: Option<SeqData>,
    ext: Option<SeqExt>)

  /**
   * What the representation classes say about the data: a raw instance
   * holds its sequence in `seq_data`; virtual and segmented instances hold
   * none; a segmented instance's extension is its list of locations and a
   * map's extension is its feature table.
   */
  predicate ReprConsistent(inst: SeqInst)
  {
    match inst.repr
    case Raw => inst.seqData.Some?
    case Virtual => inst.seqData.None?
    case Seg => inst.seqData.None? && inst.ext.Some? && inst.ext.value.Seg?
    case Map => inst.ext.Some? && inst.ext.value.Map?
    case _ => true
  }

  /** A raw instance of the given data. */
  function RawInst(mol: Mol, length: Option<nat>, data: SeqData): (inst: SeqInst)
    ensures ReprConsistent(inst) && inst.repr == Repr.Raw && inst.seqData == Some(data)
    ensures inst.mol == mol && inst.length == length && inst.topology == DefaultTopology
  {
    SeqInst(Repr.Raw, mol, length, None, DefaultTopology, Strand.NotSet, Some(data), None)
  }

  /** A virtual instance: the molecule is known, its sequence is not. */
  function VirtualInst(mol: Mol, length: Option<nat>): (inst: SeqInst)
    ensures ReprConsistent(inst) && inst.repr == Repr.Virtual && inst.seqData.None?
    ensures inst.mol == mol && inst.length == length
  {
    SeqInst(Repr.Virtual, mol, length, None, DefaultTopology, Strand.NotSet, None, None)
  }

  /** A segmented instance over the given locations, in order. */
  function SegInst(mol: Mol, locs: seq<SeqLoc.SeqLoc>): (inst: SeqInst)
    ensures ReprConsistent(inst) && inst.repr == Repr.Seg && inst.seqData.None?
    ensures inst.ext == Some(SeqExt.Seg(locs)) && inst.mol == mol
  {
    SeqInst(Repr.Seg, mol, None, None, DefaultTopology, Strand.NotSet, None, Some(SeqExt.Seg(locs)))
  }

  /**
   * The data constraints cut both ways: a raw instance without data, or a
   * virtual or segmented one with data, is inconsistent, as is a segmented
   * instance whose extension is not its list of locations.
   */
  lemma ReprMismatches(inst: SeqInst)
    ensures inst.repr == Repr.Raw && inst.seqData.None? ==> !ReprConsistent(inst)
    ensures (inst.repr == Repr.Virtual || inst.repr == Repr.Seg) && inst.seqData.Some? ==> !ReprConsistent(inst)
    ensures inst.repr == Repr.Seg && (inst.ext.None? || !inst.ext.value.Seg?) ==> !ReprConsistent(inst)
    ensures ReprConsistent(inst) && inst.repr == Repr.Seg ==> inst.ext.value.Seg?
  {
  }

  // Numbering by reference and publication targets.

  /** `NumRefType`: how a numbering refers to other sequences; `Sources` by segmented or constructed sources, `Aligns` by the alignments given with it. */
  datatype NumRefType =
    | NotSet
    | Sources
    | Aligns

  /** The discriminant each variant serialises as. */
  function NumRefTypeCode(x: NumRefType): (c: int)
    ensures 0 <= c < 256
    ensures 0 <= c <= 2
  {
    match x
    case NotSet => 0
    case Sources => 1
    case Aligns => 2
  }

  /** The variant with discriminant `c`, if there is one. */
  function NumRefTypeFromCode(c: int): (r: Option<NumRefType>)
    ensures r.Some? <==> (0 <= c <= 2)
    ensures r.Some? ==> NumRefTypeCode(r.value) == c
  {
    if c == 0 then Some(NumRefType.NotSet)
    else if c == 1 then Some(NumRefType.Sources)
    else if c == 2 then Some(NumRefType.Aligns)
    else None
  }

  /** Decoding the discriminant of a variant gives the variant back, so the codes are distinct. */
  lemma NumRefTypeRoundTrip(x: NumRefType)
    ensures NumRefTypeFromCode(NumRefTypeCode(x)) == Some(x)
  {
  }

  lemma NumRefTypeCodeInjective(x: NumRefType, y: NumRefType)
    ensures NumRefTypeCode(x) == NumRefTypeCode(y) ==> x == y
  {
    NumRefTypeRoundTrip(x);
    NumRefTypeRoundTrip(y);
  }

  /** `PubDescRefType`: what a GenBank publication refers to; `NoTarget` is EMBL's "nothing specified". */
  datatype PubDescRefType =
    | Seq
    | Sites
    | Feats
    | NoTarget

  /** The discriminant each variant serialises as. */
  function PubDescRefTypeCode(x: PubDescRefType): (c: int)
    ensures 0 <= c < 256
    ensures 0 <= c <= 3
  {
    match x
    case Seq => 0
    case Sites => 1
    case Feats => 2
    case NoTarget => 3
  }

  /** The variant with discriminant `c`, if there is one. */
  function PubDescRefTypeFromCode(c: int): (r: Option<PubDescRefType>)
    ensures r.Some? <==> (0 <= c <= 3)
    ensures r.Some? ==> PubDescRefTypeCode(r.value) == c
  {
    if c == 0 then Some(PubDescRefType.Seq)
    else if c == 1 then Some(PubDescRefType.Sites)
    else if c == 2 then Some(PubDescRefType.Feats)
    else if c == 3 then Some(PubDescRefType.NoTarget)
    else None
  }

  /** Decoding the discriminant of a variant gives the variant back, so the codes are distinct. */
  lemma PubDescRefTypeRoundTrip(x: PubDescRefType)
    ensures PubDescRefTypeFromCode(PubDescRefTypeCode(x)) == Some(x)
  {
  }

  lemma PubDescRefTypeCodeInjective(x: PubDescRefType, y: PubDescRefType)
    ensures PubDescRefTypeCode(x) == PubDescRefTypeCode(y) ==> x == y
  {
    PubDescRefTypeRoundTrip(x);
    PubDescRefTypeRoundTrip(y);
  }

  /** `#[default]`: refers to the sequence. */
  const DefaultPubDescRefType: PubDescRefType := PubDescRefType.Seq


  // Annotation classes.

  /** `AlignType`: the class of an alignment annotation. */
  datatype AlignType =
    | Ref
    | Alt
    | Blocks
    | Other

  /** The discriminant each variant serialises as. */
  function AlignTypeCode(x: AlignType): (c: int)
    ensures 0 <= c < 256
    ensures 0 <= c <= 2 || c == 255
  {
    match x
    case Ref => 0
    case Alt => 1
    case Blocks => 2
    case Other => 255
  }

  /** The variant with discriminant `c`, if there is one. */
  function AlignTypeFromCode(c: int): (r: Option<AlignType>)
    ensures r.Some? <==> (0 <= c <= 2 || c == 255)
    ensures r.Some? ==> AlignTypeCode(r.value) == c
  {
    if c == 0 then Some(AlignType.Ref)
    else if c == 1 then Some(AlignType.Alt)
    else if c == 2 then Some(AlignType.Blocks)
    else if c == 255 then Some(AlignType.Other)
    else None
  }

  /** Decoding the discriminant of a variant gives the variant back, so the codes are distinct. */
  lemma AlignTypeRoundTrip(x: AlignType)
    ensures AlignTypeFromCode(AlignTypeCode(x)) == Some(x)
  {
  }

  lemma AlignTypeCodeInjective(x: AlignType, y: AlignType)
    ensures AlignTypeCode(x) == AlignTypeCode(y) ==> x == y
  {
    AlignTypeRoundTrip(x);
    AlignTypeRoundTrip(y);
  }

  /** `SeqAnnotDB`: the database an annotation comes from. */
  datatype SeqAnnotDB =
    | GenBank
    | EMBL
    | DDBJ
    | PIR
    | SP
    | BBone
    | PDB
    | Other

  /** The discriminant each variant serialises as. */
  function SeqAnnotDBCode(x: SeqAnnotDB): (c: int)
    ensures 0 <= c < 256
    ensures 0 <= c <= 6 || c == 255
  {
    match x
    case GenBank => 0
    case EMBL => 1
    case DDBJ => 2
    case PIR => 3
    case SP => 4
    case BBone => 5
    case PDB => 6
    case Other => 255
  }

  /** The variant with discriminant `c`, if there is one. */
  function SeqAnnotDBFromCode(c: int): (r: Option<SeqAnnotDB>)
    ensures r.Some? <==> (0 <= c <= 6 || c == 255)
    ensures r.Some? ==> SeqAnnotDBCode(r.value) == c
  {
    if c == 0 then Some(SeqAnnotDB.GenBank)
    else if c == 1 then Some(SeqAnnotDB.EMBL)
    else if c == 2 then Some(SeqAnnotDB.DDBJ)
    else if c == 3 then Some(SeqAnnotDB.PIR)
    else if c == 4 then Some(SeqAnnotDB.SP)
    else if c == 5 then Some(SeqAnnotDB.BBone)
    else if c == 6 then Some(SeqAnnotDB.PDB)
    else if c == 255 then Some(SeqAnnotDB.Other)
    else None
  }

  /** Decoding the discriminant of a variant gives the variant back, so the codes are distinct. */
  lemma SeqAnnotDBRoundTrip(x: SeqAnnotDB)
    ensures SeqAnnotDBFromCode(SeqAnnotDBCode(x)) == Some(x)
  {
  }

  lemma SeqAnnotDBCodeInjective(x: SeqAnnotDB, y: SeqAnnotDB)
    ensures SeqAnnotDBCode(x) == SeqAnnotDBCode(y) ==> x == y
  {
    SeqAnnotDBRoundTrip(x);
    SeqAnnotDBRoundTrip(y);
  }
}
