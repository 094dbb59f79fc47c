/**
 * The feature table of `src/asn/seqfeat.rs` (NCBI seqfeat.asn): the
 * fieldless enumerations with their discriminants and `Default` variants,
 * the bit-flag enumerations of the variation records, and the RNA reference
 * that gene records point to.
 */
module SeqFeat {
  import opened Wrappers
  import SeqLoc

  /** `n` is a power of two: the value of exactly one bit. */
  predicate IsPowerOfTwo(n: int)
    decreases if n < 0 then 0 else n
  {
    n == 1 || (n > 1 && n % 2 == 0 && IsPowerOfTwo(n / 2))
  }

  /** 2 to the power `k`. */
  function Pow2(k: nat): (n: nat)
    ensures n >= 1
  {
    if k == 0 then 1 else 2 * Pow2(k - 1)
  }

  lemma {:induction false} Pow2IsPowerOfTwo(k: nat)
    ensures IsPowerOfTwo(Pow2(k))
  {
    if k > 0 {
      Pow2IsPowerOfTwo(k - 1);
      assert Pow2(k) / 2 == Pow2(k - 1);
    }
  }

  /** `EvidenceCategory`: what a piece of evidence supports; the implicit discriminants count from 0. */
  datatype EvidenceCategory = NotSet | Coordinates | Description | Existence

  /** The discriminant each variant serialises as. */
  function EvidenceCategoryCode(x: EvidenceCategory): (c: int)
    ensures -0x8000_0000_0000_0000 <= c < 0x8000_0000_0000_0000
    ensures 0 <= c <= 3
  {
    match x
    case NotSet => 0
    case Coordinates => 1
    case Description => 2
    case Existence => 3
  }

  /** The variant with discriminant `c`, if there is one. */
  function EvidenceCategoryFromCode(c: int): (r: Option<EvidenceCategory>)
    ensures r.Some? <==> (0 <= c <= 3)
    ensures r.Some? ==> EvidenceCategoryCode(r.value) == c
  {
    if c == 0 then Some(EvidenceCategory.NotSet)
    else if c == 1 then Some(EvidenceCategory.Coordinates)
    else if c == 2 then Some(EvidenceCategory.Description)
    else if c == 3 then Some(EvidenceCategory.Existence)
    else None
  }

  /** Decoding the discriminant of a variant gives the variant back, so the codes are distinct. */
  lemma EvidenceCategoryRoundTrip(x: EvidenceCategory)
    ensures EvidenceCategoryFromCode(EvidenceCategoryCode(x)) == Some(x)
  {
  }

  lemma EvidenceCategoryCodeInjective(x: EvidenceCategory, y: EvidenceCategory)
    ensures EvidenceCategoryCode(x) == EvidenceCategoryCode(y) ==> x == y
  {
    EvidenceCategoryRoundTrip(x);
    EvidenceCategoryRoundTrip(y);
  }
  /** `SeqFeatExpEvidence`: whether a feature is backed by experiment. */
  datatype SeqFeatExpEvidence = Experimental | NotExperimental

  /** The discriminant each variant serialises as. */
  function SeqFeatExpEvidenceCode(x: SeqFeatExpEvidence): (c: int)
    ensures -0x8000_0000_0000_0000 <= c < 0x8000_0000_0000_0000
    ensures 0 <= c <= 1
  {
    match x
    case Experimental => 0
    case NotExperimental => 1
  }

  /** The variant with discriminant `c`, if there is one. */
  function SeqFeatExpEvidenceFromCode(c: int): (r: Option<SeqFeatExpEvidence>)
    ensures r.Some? <==> (0 <= c <= 1)
    ensures r.Some? ==> SeqFeatExpEvidenceCode(r.value) == c
  {
    if c == 0 then Some(SeqFeatExpEvidence.Experimental)
    else if c == 1 then Some(SeqFeatExpEvidence.NotExperimental)
    else None
  }

  /** Decoding the discriminant of a variant gives the variant back, so the codes are distinct. */
  lemma SeqFeatExpEvidenceRoundTrip(x: SeqFeatExpEvidence)
    ensures SeqFeatExpEvidenceFromCode(SeqFeatExpEvidenceCode(x)) == Some(x)
  {
  }

  lemma SeqFeatExpEvidenceCodeInjective(x: SeqFeatExpEvidence, y: SeqFeatExpEvidence)
    ensures SeqFeatExpEvidenceCode(x) == SeqFeatExpEvidenceCode(y) ==> x == y
  {
    SeqFeatExpEvidenceRoundTrip(x);
    SeqFeatExpEvidenceRoundTrip(y);
  }
  /** `SeqFeatBond`: the kind of a bond feature. */
  datatype SeqFeatBond = Disulfide | Thiolester | XLink | Thioether | Other

  /** The discriminant each variant serialises as. */
  function SeqFeatBondCode(x: SeqFeatBond): (c: int)
    ensures -0x8000_0000_0000_0000 <= c < 0x8000_0000_0000_0000
    ensures 0 <= c <= 3 || c == 255
  {
    match x
    case Disulfide => 0
    case Thiolester => 1
    case XLink => 2
    case Thioether => 3
    case Other => 255
  }

  /** The variant with discriminant `c`, if there is one. */
  function SeqFeatBondFromCode(c: int): (r: Option<SeqFeatBond>)
    ensures r.Some? <==> (0 <= c <= 3 || c == 255)
    ensures r.Some? ==> SeqFeatBondCode(r.value) == c
  {
    if c == 0 then Some(SeqFeatBond.Disulfide)
    else if c == 1 then Some(SeqFeatBond.Thiolester)
    else if c == 2 then Some(SeqFeatBond.XLink)
    else if c == 3 then Some(SeqFeatBond.Thioether)
    else if c == 255 then Some(SeqFeatBond.Other)
    else None
  }

  /** Decoding the discriminant of a variant gives the variant back, so the codes are distinct. */
  lemma SeqFeatBondRoundTrip(x: SeqFeatBond)
    ensures SeqFeatBondFromCode(SeqFeatBondCode(x)) == Some(x)
  {
  }

  lemma SeqFeatBondCodeInjective(x: SeqFeatBond, y: SeqFeatBond)
    ensures SeqFeatBondCode(x) == SeqFeatBondCode(y) ==> x == y
  {
    SeqFeatBondRoundTrip(x);
    SeqFeatBondRoundTrip(y);
  }
  /** `SeqFeatSite`: the kind of a site feature. */
  datatype SeqFeatSite =
    | Active
    | Binding
    | Cleavage
    | Inhibit
    | Modified
    | Clycosylation
    | Myristoylation
    | Mutagenized
    | MetalBinding
    | Phosphorylation
    | Acetylation
    | Amidation
    | Methylation
    | Hydroxylation
    | Sulfatation
    | OxidativeDeamination
    | PyrrolidoneCarboxylicAcid
    | GammaCarboxylglutamicAcid
    | Blocked
    | LipidBinding
    | NPBinding
    | DNABinding
    | SignalPeptide
    | TransitPeptide
    | TransmembraneRegion
    | Nitrosylation
    | Other

  /** The discriminant each variant serialises as. */
  function SeqFeatSiteCode(x: SeqFeatSite): (c: int)
    ensures -0x8000_0000_0000_0000 <= c < 0x8000_0000_0000_0000
    ensures 0 <= c <= 25 || c == 255
  {
    match x
    case Active => 0
    case Binding => 1
    case Cleavage => 2
    case Inhibit => 3
    case Modified => 4
    case Clycosylation => 5
    case Myristoylation => 6
    case Mutagenized => 7
    case MetalBinding => 8
    case Phosphorylation => 9
    case Acetylation => 10
    case Amidation => 11
    case Methylation => 12
    case Hydroxylation => 13
    case Sulfatation => 14
    case OxidativeDeamination => 15
    case PyrrolidoneCarboxylicAcid => 16
    case GammaCarboxylglutamicAcid => 17
    case Blocked => 18
    case LipidBinding => 19
    case NPBinding => 20
    case DNABinding => 21
    case SignalPeptide => 22
    case TransitPeptide => 23
    case TransmembraneRegion => 24
    case Nitrosylation => 25
    case Other => 255
  }

  /** The variant with discriminant `c`, if there is one. */
  function SeqFeatSiteFromCode(c: int): (r: Option<SeqFeatSite>)
    ensures r.Some? <==> (0 <= c <= 25 || c == 255)
    ensures r.Some? ==> SeqFeatSiteCode(r.value) == c
  {
    if c < 10 then SeqFeatSiteFromCode0(c)
    else if c < 20 then SeqFeatSiteFromCode1(c)
    else SeqFeatSiteFromCode2(c)
  }

  function SeqFeatSiteFromCode0(c: int): (r: Option<SeqFeatSite>)
    ensures r.Some? <==> (0 <= c <= 9)
    ensures r.Some? ==> SeqFeatSiteCode(r.value) == c
  {
    if c == 0 then Some(SeqFeatSite.Active)
    else if c == 1 then Some(SeqFeatSite.Binding)
    else if c == 2 then Some(SeqFeatSite.Cleavage)
    else if c == 3 then Some(SeqFeatSite.Inhibit)
    else if c == 4 then Some(SeqFeatSite.Modified)
    else if c == 5 then Some(SeqFeatSite.Clycosylation)
    else if c == 6 then Some(SeqFeatSite.Myristoylation)
    else if c == 7 then Some(SeqFeatSite.Mutagenized)
    else if c == 8 then Some(SeqFeatSite.MetalBinding)
    else if c == 9 then Some(SeqFeatSite.Phosphorylation)
    else None
  }

  function SeqFeatSiteFromCode1(c: int): (r: Option<SeqFeatSite>)
    ensures r.Some? <==> (10 <= c <= 19)
    ensures r.Some? ==> SeqFeatSiteCode(r.value) == c
  {
    if c == 10 then Some(SeqFeatSite.Acetylation)
    else if c == 11 then Some(SeqFeatSite.Amidation)
    else if c == 12 then Some(SeqFeatSite.Methylation)
    else if c == 13 then Some(SeqFeatSite.Hydroxylation)
    else if c == 14 then Some(SeqFeatSite.Sulfatation)
    else if c == 15 then Some(SeqFeatSite.OxidativeDeamination)
    else if c == 16 then Some(SeqFeatSite.PyrrolidoneCarboxylicAcid)
    else if c == 17 then Some(SeqFeatSite.GammaCarboxylglutamicAcid)
    else if c == 18 then Some(SeqFeatSite.Blocked)
    else if c == 19 then Some(SeqFeatSite.LipidBinding)
    else None
  }

  function SeqFeatSiteFromCode2(c: int): (r: Option<SeqFeatSite>)
    ensures r.Some? <==> (20 <= c <= 25 || c == 255)
    ensures r.Some? ==> SeqFeatSiteCode(r.value) == c
  {
    if c == 20 then Some(SeqFeatSite.NPBinding)
    else if c == 21 then Some(SeqFeatSite.DNABinding)
    else if c == 22 then Some(SeqFeatSite.SignalPeptide)
    else if c == 23 then Some(SeqFeatSite.TransitPeptide)
    else if c == 24 then Some(SeqFeatSite.TransmembraneRegion)
    else if c == 25 then Some(SeqFeatSite.Nitrosylation)
    else if c == 255 then Some(SeqFeatSite.Other)
    else None
  }

  /** Decoding the discriminant of a variant gives the variant back, so the codes are distinct. */
  lemma SeqFeatSiteRoundTrip(x: SeqFeatSite)
    ensures SeqFeatSiteFromCode(SeqFeatSiteCode(x)) == Some(x)
  {
  }

  lemma SeqFeatSiteCodeInjective(x: SeqFeatSite, y: SeqFeatSite)
    ensures SeqFeatSiteCode(x) == SeqFeatSiteCode(y) ==> x == y
  {
    SeqFeatSiteRoundTrip(x);
    SeqFeatSiteRoundTrip(y);
  }
  /** `PSecStr`: protein secondary structure. */
  datatype PSecStr = Helix | Sheet | Turn

  /** The discriminant each variant serialises as. */
  function PSecStrCode(x: PSecStr): (c: int)
    ensures -0x8000_0000_0000_0000 <= c < 0x8000_0000_0000_0000
    ensures 0 <= c <= 2
  {
    match x
    case Helix => 0
    case Sheet => 1
    case Turn => 2
  }

  /** The variant with discriminant `c`, if there is one. */
  function PSecStrFromCode(c: int): (r: Option<PSecStr>)
    ensures r.Some? <==> (0 <= c <= 2)
    ensures r.Some? ==> PSecStrCode(r.value) == c
  {
    if c == 0 then Some(PSecStr.Helix)
    else if c == 1 then Some(PSecStr.Sheet)
    else if c == 2 then Some(PSecStr.Turn)
    else None
  }

  /** Decoding the discriminant of a variant gives the variant back, so the codes are distinct. */
  lemma PSecStrRoundTrip(x: PSecStr)
    ensures PSecStrFromCode(PSecStrCode(x)) == Some(x)
  {
  }

  lemma PSecStrCodeInjective(x: PSecStr, y: PSecStr)
    ensures PSecStrCode(x) == PSecStrCode(y) ==> x == y
  {
    PSecStrRoundTrip(x);
    PSecStrRoundTrip(y);
  }
  /** `InferenceSupportType`: how a feature was inferred. */
  datatype InferenceSupportType =
    | NotSet
    | SimilarToSequence
    | SimilarToAA
    | SimilarToDNA
    | SimilarToRNA
    | SimilarTomRNA
    | SimilarToEst
    | SimilarToOtherRNA
    | Profile
    | NucleotideMotif
    | ProteinMotif
    | AbInitioPrediction
    | Alignment
    | Other

  /** The discriminant each variant serialises as. */
  function InferenceSupportTypeCode(x: InferenceSupportType): (c: int)
    ensures -0x8000_0000_0000_0000 <= c < 0x8000_0000_0000_0000
    ensures 0 <= c <= 12 || c == 255
  {
    match x
    case NotSet => 0
    case SimilarToSequence => 1
    case SimilarToAA => 2
    case SimilarToDNA => 3
    case SimilarToRNA => 4
    case SimilarTomRNA => 5
    case SimilarToEst => 6
    case SimilarToOtherRNA => 7
    case Profile => 8
    case NucleotideMotif => 9
    case ProteinMotif => 10
    case AbInitioPrediction => 11
    case Alignment => 12
    case Other => 255
  }

  /** The variant with discriminant `c`, if there is one. */
  function InferenceSupportTypeFromCode(c: int): (r: Option<InferenceSupportType>)
    ensures r.Some? <==> (0 <= c <= 12 || c == 255)
    ensures r.Some? ==> InferenceSupportTypeCode(r.value) == c
  {
    if c == 0 then Some(InferenceSupportType.NotSet)
    else if c == 1 then Some(InferenceSupportType.SimilarToSequence)
    else if c == 2 then Some(InferenceSupportType.SimilarToAA)
    else if c == 3 then Some(InferenceSupportType.SimilarToDNA)
    else if c == 4 then Some(InferenceSupportType.SimilarToRNA)
    else if c == 5 then Some(InferenceSupportType.SimilarTomRNA)
    else if c == 6 then Some(InferenceSupportType.SimilarToEst)
    else if c == 7 then Some(InferenceSupportType.SimilarToOtherRNA)
    else if c == 8 then Some(InferenceSupportType.Profile)
    else if c == 9 then Some(InferenceSupportType.NucleotideMotif)
    else if c == 10 then Some(InferenceSupportType.ProteinMotif)
    else if c == 11 then Some(InferenceSupportType.AbInitioPrediction)
    else if c == 12 then Some(InferenceSupportType.Alignment)
    else if c == 255 then Some(InferenceSupportType.Other)
    else None
  }

  /** Decoding the discriminant of a variant gives the variant back, so the codes are distinct. */
  lemma InferenceSupportTypeRoundTrip(x: InferenceSupportType)
    ensures InferenceSupportTypeFromCode(InferenceSupportTypeCode(x)) == Some(x)
  {
  }

  lemma InferenceSupportTypeCodeInjective(x: InferenceSupportType, y: InferenceSupportType)
    ensures InferenceSupportTypeCode(x) == InferenceSupportTypeCode(y) ==> x == y
  {
    InferenceSupportTypeRoundTrip(x);
    InferenceSupportTypeRoundTrip(y);
  }

  /** `#[default]`: NotSet. */
  const DefaultInferenceSupportType: InferenceSupportType := InferenceSupportType.NotSet
  /** `CdRegionFrame`: the reading frame of a coding region. */
  datatype CdRegionFrame = NotSet | One | Two | Three

  /** The discriminant each variant serialises as. */
  function CdRegionFrameCode(x: CdRegionFrame): (c: int)
    ensures -0x8000_0000_0000_0000 <= c < 0x8000_0000_0000_0000
    ensures 0 <= c <= 3
  {
    match x
    case NotSet => 0
    case One => 1
    case Two => 2
    case Three => 3
  }

  /** The variant with discriminant `c`, if there is one. */
  function CdRegionFrameFromCode(c: int): (r: Option<CdRegionFrame>)
    ensures r.Some? <==> (0 <= c <= 3)
    ensures r.Some? ==> CdRegionFrameCode(r.value) == c
  {
    if c == 0 then Some(CdRegionFrame.NotSet)
    else if c == 1 then Some(CdRegionFrame.One)
    else if c == 2 then Some(CdRegionFrame.Two)
    else if c == 3 then Some(CdRegionFrame.Three)
    else None
  }

  /** Decoding the discriminant of a variant gives the variant back, so the codes are distinct. */
  lemma CdRegionFrameRoundTrip(x: CdRegionFrame)
    ensures CdRegionFrameFromCode(CdRegionFrameCode(x)) == Some(x)
  {
  }

  lemma CdRegionFrameCodeInjective(x: CdRegionFrame, y: CdRegionFrame)
    ensures CdRegionFrameCode(x) == CdRegionFrameCode(y) ==> x == y
  {
    CdRegionFrameRoundTrip(x);
    CdRegionFrameRoundTrip(y);
  }

  /** `#[default]`: NotSet. */
  const DefaultCdRegionFrame: CdRegionFrame := CdRegionFrame.NotSet
  /** `CloneRefPlacementMethod`: how a clone was placed. */
  datatype CloneRefPlacementMethod =
    | EndSeq
    | InsertAlignment
    | STS
    | Fish
    | Fingerprint
    | EndSeqInsertAlignment
    | External
    | Curated
    | Other

  /** The discriminant each variant serialises as. */
  function CloneRefPlacementMethodCode(x: CloneRefPlacementMethod): (c: int)
    ensures -0x8000_0000_0000_0000 <= c < 0x8000_0000_0000_0000
    ensures 0 <= c <= 5 || 253 <= c <= 255
  {
    match x
    case EndSeq => 0
    case InsertAlignment => 1
    case STS => 2
    case Fish => 3
    case Fingerprint => 4
    case EndSeqInsertAlignment => 5
    case External => 253
    case Curated => 254
    case Other => 255
  }

  /** The variant with discriminant `c`, if there is one. */
  function CloneRefPlacementMethodFromCode(c: int): (r: Option<CloneRefPlacementMethod>)
    ensures r.Some? <==> (0 <= c <= 5 || 253 <= c <= 255)
    ensures r.Some? ==> CloneRefPlacementMethodCode(r.value) == c
  {
    if c == 0 then Some(CloneRefPlacementMethod.EndSeq)
    else if c == 1 then Some(CloneRefPlacementMethod.InsertAlignment)
    else if c == 2 then Some(CloneRefPlacementMethod.STS)
    else if c == 3 then Some(CloneRefPlacementMethod.Fish)
    else if c == 4 then Some(CloneRefPlacementMethod.Fingerprint)
    else if c == 5 then Some(CloneRefPlacementMethod.EndSeqInsertAlignment)
    else if c == 253 then Some(CloneRefPlacementMethod.External)
    else if c == 254 then Some(CloneRefPlacementMethod.Curated)
    else if c == 255 then Some(CloneRefPlacementMethod.Other)
    else None
  }

  /** Decoding the discriminant of a variant gives the variant back, so the codes are distinct. */
  lemma CloneRefPlacementMethodRoundTrip(x: CloneRefPlacementMethod)
    ensures CloneRefPlacementMethodFromCode(CloneRefPlacementMethodCode(x)) == Some(x)
  {
  }

  lemma CloneRefPlacementMethodCodeInjective(x: CloneRefPlacementMethod, y: CloneRefPlacementMethod)
    ensures CloneRefPlacementMethodCode(x) == CloneRefPlacementMethodCode(y) ==> x == y
  {
    CloneRefPlacementMethodRoundTrip(x);
    CloneRefPlacementMethodRoundTrip(y);
  }
  /** `CloneSeqType`. */
  datatype CloneSeqType = Insert | End | Other

  /** The discriminant each variant serialises as. */
  function CloneSeqTypeCode(x: CloneSeqType): (c: int)
    ensures -0x8000_0000_0000_0000 <= c < 0x8000_0000_0000_0000
    ensures 0 <= c <= 1 || c == 255
  {
    match x
    case Insert => 0
    case End => 1
    case Other => 255
  }

  /** The variant with discriminant `c`, if there is one. */
  function CloneSeqTypeFromCode(c: int): (r: Option<CloneSeqType>)
    ensures r.Some? <==> (0 <= c <= 1 || c == 255)
    ensures r.Some? ==> CloneSeqTypeCode(r.value) == c
  {
    if c == 0 then Some(CloneSeqType.Insert)
    else if c == 1 then Some(CloneSeqType.End)
    else if c == 255 then Some(CloneSeqType.Other)
    else None
  }

  /** Decoding the discriminant of a variant gives the variant back, so the codes are distinct. */
  lemma CloneSeqTypeRoundTrip(x: CloneSeqType)
    ensures CloneSeqTypeFromCode(CloneSeqTypeCode(x)) == Some(x)
  {
  }

  lemma CloneSeqTypeCodeInjective(x: CloneSeqType, y: CloneSeqType)
    ensures CloneSeqTypeCode(x) == CloneSeqTypeCode(y) ==> x == y
  {
    CloneSeqTypeRoundTrip(x);
    CloneSeqTypeRoundTrip(y);
  }
  /** `CloneSeqConfidence`. */
  datatype CloneSeqConfidence =
    | Multiple
    | NA
    | NoHitRep
    | NoHitNoRep
    | OtherChrm
    | Unique
    | Virtual
    | MultipleRep
    | MultipleNoRep
    | NoHit
    | Other

  /** The discriminant each variant serialises as. */
  function CloneSeqConfidenceCode(x: CloneSeqConfidence): (c: int)
    ensures -0x8000_0000_0000_0000 <= c < 0x8000_0000_0000_0000
    ensures 0 <= c <= 9 || c == 255
  {
    match x
    case Multiple => 0
    case NA => 1
    case NoHitRep => 2
    case NoHitNoRep => 3
    case OtherChrm => 4
    case Unique => 5
    case Virtual => 6
    case MultipleRep => 7
    case MultipleNoRep => 8
    case NoHit => 9
    case Other => 255
  }

  /** The variant with discriminant `c`, if there is one. */
  function CloneSeqConfidenceFromCode(c: int): (r: Option<CloneSeqConfidence>)
    ensures r.Some? <==> (0 <= c <= 9 || c == 255)
    ensures r.Some? ==> CloneSeqConfidenceCode(r.value) == c
  {
    if c == 0 then Some(CloneSeqConfidence.Multiple)
    else if c == 1 then Some(CloneSeqConfidence.NA)
    else if c == 2 then Some(CloneSeqConfidence.NoHitRep)
    else if c == 3 then Some(CloneSeqConfidence.NoHitNoRep)
    else if c == 4 then Some(CloneSeqConfidence.OtherChrm)
    else if c == 5 then Some(CloneSeqConfidence.Unique)
    else if c == 6 then Some(CloneSeqConfidence.Virtual)
    else if c == 7 then Some(CloneSeqConfidence.MultipleRep)
    else if c == 8 then Some(CloneSeqConfidence.MultipleNoRep)
    else if c == 9 then Some(CloneSeqConfidence.NoHit)
    else if c == 255 then Some(CloneSeqConfidence.Other)
    else None
  }

  /** Decoding the discriminant of a variant gives the variant back, so the codes are distinct. */
  lemma CloneSeqConfidenceRoundTrip(x: CloneSeqConfidence)
    ensures CloneSeqConfidenceFromCode(CloneSeqConfidenceCode(x)) == Some(x)
  {
  }

  lemma CloneSeqConfidenceCodeInjective(x: CloneSeqConfidence, y: CloneSeqConfidence)
    ensures CloneSeqConfidenceCode(x) == CloneSeqConfidenceCode(y) ==> x == y
  {
    CloneSeqConfidenceRoundTrip(x);
    CloneSeqConfidenceRoundTrip(y);
  }
  /** `CloneSeqSupport`. */
  datatype CloneSeqSupport = Prototype | Supporting | SupportsOther | NonSupporting

  /** The discriminant each variant serialises as. */
  function CloneSeqSupportCode(x: CloneSeqSupport): (c: int)
    ensures -0x8000_0000_0000_0000 <= c < 0x8000_0000_0000_0000
    ensures 0 <= c <= 3
  {
    match x
    case Prototype => 0
    case Supporting => 1
    case SupportsOther => 2
    case NonSupporting => 3
  }

  /** The variant with discriminant `c`, if there is one. */
  function CloneSeqSupportFromCode(c: int): (r: Option<CloneSeqSupport>)
    ensures r.Some? <==> (0 <= c <= 3)
    ensures r.Some? ==> CloneSeqSupportCode(r.value) == c
  {
    if c == 0 then Some(CloneSeqSupport.Prototype)
    else if c == 1 then Some(CloneSeqSupport.Supporting)
    else if c == 2 then Some(CloneSeqSupport.SupportsOther)
    else if c == 3 then Some(CloneSeqSupport.NonSupporting)
    else None
  }

  /** Decoding the discriminant of a variant gives the variant back, so the codes are distinct. */
  lemma CloneSeqSupportRoundTrip(x: CloneSeqSupport)
    ensures CloneSeqSupportFromCode(CloneSeqSupportCode(x)) == Some(x)
  {
  }

  lemma CloneSeqSupportCodeInjective(x: CloneSeqSupport, y: CloneSeqSupport)
    ensures CloneSeqSupportCode(x) == CloneSeqSupportCode(y) ==> x == y
  {
    CloneSeqSupportRoundTrip(x);
    CloneSeqSupportRoundTrip(y);
  }
  /** `VariantResourceLink`: bit flags. */
  datatype VariantResourceLink =
    | Preserved
    | Provisional
    | Has3D
    | SubmitterLinkout
    | Clinical
    | GenotypeKit

  /** The discriminant each variant serialises as. */
  function VariantResourceLinkCode(x: VariantResourceLink): (c: int)
    ensures -0x8000_0000_0000_0000 <= c < 0x8000_0000_0000_0000
    ensures 1 <= c <= 2 || c == 4 || c == 8 || c == 16 || c == 32
  {
    match x
    case Preserved => 1
    case Provisional => 2
    case Has3D => 4
    case SubmitterLinkout => 8
    case Clinical => 16
    case GenotypeKit => 32
  }

  /** The variant with discriminant `c`, if there is one. */
  function VariantResourceLinkFromCode(c: int): (r: Option<VariantResourceLink>)
    ensures r.Some? <==> (1 <= c <= 2 || c == 4 || c == 8 || c == 16 || c == 32)
    ensures r.Some? ==> VariantResourceLinkCode(r.value) == c
  {
    if c == 1 then Some(VariantResourceLink.Preserved)
    else if c == 2 then Some(VariantResourceLink.Provisional)
    else if c == 4 then Some(VariantResourceLink.Has3D)
    else if c == 8 then Some(VariantResourceLink.SubmitterLinkout)
    else if c == 16 then Some(VariantResourceLink.Clinical)
    else if c == 32 then Some(VariantResourceLink.GenotypeKit)
    else None
  }

  /** Decoding the discriminant of a variant gives the variant back, so the codes are distinct. */
  lemma VariantResourceLinkRoundTrip(x: VariantResourceLink)
    ensures VariantResourceLinkFromCode(VariantResourceLinkCode(x)) == Some(x)
  {
  }

  lemma VariantResourceLinkCodeInjective(x: VariantResourceLink, y: VariantResourceLink)
    ensures VariantResourceLinkCode(x) == VariantResourceLinkCode(y) ==> x == y
  {
    VariantResourceLinkRoundTrip(x);
    VariantResourceLinkRoundTrip(y);
  }
  /** `VariantGeneLocation`: bit flags. */
  datatype VariantGeneLocation =
    | InGene
    | NearGene5
    | NearGene3
    | Intron
    | Donor
    | Acceptor
    | UTR5
    | UTR3
    | InStartCodon
    | InStopCodon
    | Intergenic
    | ConservedNonCoding

  /** The discriminant each variant serialises as. */
  function VariantGeneLocationCode(x: VariantGeneLocation): (c: int)
    ensures -0x8000_0000_0000_0000 <= c < 0x8000_0000_0000_0000
    ensures 1 <= c <= 2 || c == 4 || c == 8 || c == 16 || c == 32 || c == 64 || c == 128 || c == 256 || c == 512 || c == 1024 || c == 2048
  {
    match x
    case InGene => 1
    case NearGene5 => 2
    case NearGene3 => 4
    case Intron => 8
    case Donor => 16
    case Acceptor => 32
    case UTR5 => 64
    case UTR3 => 128
    case InStartCodon => 256
    case InStopCodon => 512
    case Intergenic => 1024
    case ConservedNonCoding => 2048
  }

  /** The variant with discriminant `c`, if there is one. */
  function VariantGeneLocationFromCode(c: int): (r: Option<VariantGeneLocation>)
    ensures r.Some? <==> (1 <= c <= 2 || c == 4 || c == 8 || c == 16 || c == 32 || c == 64 || c == 128 || c == 256 || c == 512 || c == 1024 || c == 2048)
    ensures r.Some? ==> VariantGeneLocationCode(r.value) == c
  {
    if c == 1 then Some(VariantGeneLocation.InGene)
    else if c == 2 then Some(VariantGeneLocation.NearGene5)
    else if c == 4 then Some(VariantGeneLocation.NearGene3)
    else if c == 8 then Some(VariantGeneLocation.Intron)
    else if c == 16 then Some(VariantGeneLocation.Donor)
    else if c == 32 then Some(VariantGeneLocation.Acceptor)
    else if c == 64 then Some(VariantGeneLocation.UTR5)
    else if c == 128 then Some(VariantGeneLocation.UTR3)
    else if c == 256 then Some(VariantGeneLocation.InStartCodon)
    else if c == 512 then Some(VariantGeneLocation.InStopCodon)
    else if c == 1024 then Some(VariantGeneLocation.Intergenic)
    else if c == 2048 then Some(VariantGeneLocation.ConservedNonCoding)
    else None
  }

  /** Decoding the discriminant of a variant gives the variant back, so the codes are distinct. */
  lemma VariantGeneLocationRoundTrip(x: VariantGeneLocation)
    ensures VariantGeneLocationFromCode(VariantGeneLocationCode(x)) == Some(x)
  {
  }

  lemma VariantGeneLocationCodeInjective(x: VariantGeneLocation, y: VariantGeneLocation)
    ensures VariantGeneLocationCode(x) == VariantGeneLocationCode(y) ==> x == y
  {
    VariantGeneLocationRoundTrip(x);
    VariantGeneLocationRoundTrip(y);
  }
  /** `VariantEffect`: bit flags, with NoChange as the empty set. */
  datatype VariantEffect =
    | NoChange
    | Synonymous
    | Nonsense
    | Missense
    | Frameshift
    | UpRegulator
    | DownRegulator
    | Methylation
    | StopGain
    | StopLose

  /** The discriminant each variant serialises as. */
  function VariantEffectCode(x: VariantEffect): (c: int)
    ensures -0x8000_0000_0000_0000 <= c < 0x8000_0000_0000_0000
    ensures 0 <= c <= 2 || c == 4 || c == 8 || c == 16 || c == 32 || c == 64 || c == 128 || c == 256
  {
    match x
    case NoChange => 0
    case Synonymous => 1
    case Nonsense => 2
    case Missense => 4
    case Frameshift => 8
    case UpRegulator => 16
    case DownRegulator => 32
    case Methylation => 64
    case StopGain => 128
    case StopLose => 256
  }

  /** The variant with discriminant `c`, if there is one. */
  function VariantEffectFromCode(c: int): (r: Option<VariantEffect>)
    ensures r.Some? <==> (0 <= c <= 2 || c == 4 || c == 8 || c == 16 || c == 32 || c == 64 || c == 128 || c == 256)
    ensures r.Some? ==> VariantEffectCode(r.value) == c
  {
    if c == 0 then Some(VariantEffect.NoChange)
    else if c == 1 then Some(VariantEffect.Synonymous)
    else if c == 2 then Some(VariantEffect.Nonsense)
    else if c == 4 then Some(VariantEffect.Missense)
    else if c == 8 then Some(VariantEffect.Frameshift)
    else if c == 16 then Some(VariantEffect.UpRegulator)
    else if c == 32 then Some(VariantEffect.DownRegulator)
    else if c == 64 then Some(VariantEffect.Methylation)
    else if c == 128 then Some(VariantEffect.StopGain)
    else if c == 256 then Some(VariantEffect.StopLose)
    else None
  }

  /** Decoding the discriminant of a variant gives the variant back, so the codes are distinct. */
  lemma VariantEffectRoundTrip(x: VariantEffect)
    ensures VariantEffectFromCode(VariantEffectCode(x)) == Some(x)
  {
  }

  lemma VariantEffectCodeInjective(x: VariantEffect, y: VariantEffect)
    ensures VariantEffectCode(x) == VariantEffectCode(y) ==> x == y
  {
    VariantEffectRoundTrip(x);
    VariantEffectRoundTrip(y);
  }
  /** `VariantMapping`: bit flags. */
  datatype VariantMapping = HasOtherSNP | HasAssemblyConflict | IsAssemblySpecific

  /** The discriminant each variant serialises as. */
  function VariantMappingCode(x: VariantMapping): (c: int)
    ensures -0x8000_0000_0000_0000 <= c < 0x8000_0000_0000_0000
    ensures 1 <= c <= 2 || c == 4
  {
    match x
    case HasOtherSNP => 1
    case HasAssemblyConflict => 2
    case IsAssemblySpecific => 4
  }

  /** The variant with discriminant `c`, if there is one. */
  function VariantMappingFromCode(c: int): (r: Option<VariantMapping>)
    ensures r.Some? <==> (1 <= c <= 2 || c == 4)
    ensures r.Some? ==> VariantMappingCode(r.value) == c
  {
    if c == 1 then Some(VariantMapping.HasOtherSNP)
    else if c == 2 then Some(VariantMapping.HasAssemblyConflict)
    else if c == 4 then Some(VariantMapping.IsAssemblySpecific)
    else None
  }

  /** Decoding the discriminant of a variant gives the variant back, so the codes are distinct. */
  lemma VariantMappingRoundTrip(x: VariantMapping)
    ensures VariantMappingFromCode(VariantMappingCode(x)) == Some(x)
  {
  }

  lemma VariantMappingCodeInjective(x: VariantMapping, y: VariantMapping)
    ensures VariantMappingCode(x) == VariantMappingCode(y) ==> x == y
  {
    VariantMappingRoundTrip(x);
    VariantMappingRoundTrip(y);
  }
  /** `VariantMapWeight`: how often a variant is placed (a count, not flags). */
  datatype VariantMapWeight =
    | IsUniquelyPlaced
    | PlacedTwiceOnSameChrom
    | PlacedTypeOnDiffChrom
    | ManyPlacements

  /** The discriminant each variant serialises as. */
  function VariantMapWeightCode(x: VariantMapWeight): (c: int)
    ensures -0x8000_0000_0000_0000 <= c < 0x8000_0000_0000_0000
    ensures 1 <= c <= 3 || c == 10
  {
    match x
    case IsUniquelyPlaced => 1
    case PlacedTwiceOnSameChrom => 2
    case PlacedTypeOnDiffChrom => 3
    case ManyPlacements => 10
  }

  /** The variant with discriminant `c`, if there is one. */
  function VariantMapWeightFromCode(c: int): (r: Option<VariantMapWeight>)
    ensures r.Some? <==> (1 <= c <= 3 || c == 10)
    ensures r.Some? ==> VariantMapWeightCode(r.value) == c
  {
    if c == 1 then Some(VariantMapWeight.IsUniquelyPlaced)
    else if c == 2 then Some(VariantMapWeight.PlacedTwiceOnSameChrom)
    else if c == 3 then Some(VariantMapWeight.PlacedTypeOnDiffChrom)
    else if c == 10 then Some(VariantMapWeight.ManyPlacements)
    else None
  }

  /** Decoding the discriminant of a variant gives the variant back, so the codes are distinct. */
  lemma VariantMapWeightRoundTrip(x: VariantMapWeight)
    ensures VariantMapWeightFromCode(VariantMapWeightCode(x)) == Some(x)
  {
  }

  lemma VariantMapWeightCodeInjective(x: VariantMapWeight, y: VariantMapWeight)
    ensures VariantMapWeightCode(x) == VariantMapWeightCode(y) ==> x == y
  {
    VariantMapWeightRoundTrip(x);
    VariantMapWeightRoundTrip(y);
  }
  /** `FrequencyBasedValidation`. */
  datatype FrequencyBasedValidation =
    | IsMutation
    | Above5Pct1Plus
    | Validated
    | Above1PctAll
    | Above1Pct1Plus

  /** The discriminant each variant serialises as. */
  function FrequencyBasedValidationCode(x: FrequencyBasedValidation): (c: int)
    ensures -0x8000_0000_0000_0000 <= c < 0x8000_0000_0000_0000
    ensures 0 <= c <= 4
  {
    match x
    case IsMutation => 0
    case Above5Pct1Plus => 1
    case Validated => 2
    case Above1PctAll => 3
    case Above1Pct1Plus => 4
  }

  /** The variant with discriminant `c`, if there is one. */
  function FrequencyBasedValidationFromCode(c: int): (r: Option<FrequencyBasedValidation>)
    ensures r.Some? <==> (0 <= c <= 4)
    ensures r.Some? ==> FrequencyBasedValidationCode(r.value) == c
  {
    if c == 0 then Some(FrequencyBasedValidation.IsMutation)
    else if c == 1 then Some(FrequencyBasedValidation.Above5Pct1Plus)
    else if c == 2 then Some(FrequencyBasedValidation.Validated)
    else if c == 3 then Some(FrequencyBasedValidation.Above1PctAll)
    else if c == 4 then Some(FrequencyBasedValidation.Above1Pct1Plus)
    else None
  }

  /** Decoding the discriminant of a variant gives the variant back, so the codes are distinct. */
  lemma FrequencyBasedValidationRoundTrip(x: FrequencyBasedValidation)
    ensures FrequencyBasedValidationFromCode(FrequencyBasedValidationCode(x)) == Some(x)
  {
  }

  lemma FrequencyBasedValidationCodeInjective(x: FrequencyBasedValidation, y: FrequencyBasedValidation)
    ensures FrequencyBasedValidationCode(x) == FrequencyBasedValidationCode(y) ==> x == y
  {
    FrequencyBasedValidationRoundTrip(x);
    FrequencyBasedValidationRoundTrip(y);
  }
  /** `VariantGenotype`. */
  datatype VariantGenotype = InHaplotypeSet | HasGenotypes

  /** The discriminant each variant serialises as. */
  function VariantGenotypeCode(x: VariantGenotype): (c: int)
    ensures -0x8000_0000_0000_0000 <= c < 0x8000_0000_0000_0000
    ensures 0 <= c <= 1
  {
    match x
    case InHaplotypeSet => 0
    case HasGenotypes => 1
  }

  /** The variant with discriminant `c`, if there is one. */
  function VariantGenotypeFromCode(c: int): (r: Option<VariantGenotype>)
    ensures r.Some? <==> (0 <= c <= 1)
    ensures r.Some? ==> VariantGenotypeCode(r.value) == c
  {
    if c == 0 then Some(VariantGenotype.InHaplotypeSet)
    else if c == 1 then Some(VariantGenotype.HasGenotypes)
    else None
  }

  /** Decoding the discriminant of a variant gives the variant back, so the codes are distinct. */
  lemma VariantGenotypeRoundTrip(x: VariantGenotype)
    ensures VariantGenotypeFromCode(VariantGenotypeCode(x)) == Some(x)
  {
  }

  lemma VariantGenotypeCodeInjective(x: VariantGenotype, y: VariantGenotype)
    ensures VariantGenotypeCode(x) == VariantGenotypeCode(y) ==> x == y
  {
    VariantGenotypeRoundTrip(x);
    VariantGenotypeRoundTrip(y);
  }
  /** `VariantQualityCheck`. */
  datatype VariantQualityCheck =
    | ContigAlleleMissing
    | WithdrawnBySubmitter
    | NonOverlappingAlleles
    | StrainSpecific
    | GenotypeConflict

  /** The discriminant each variant serialises as. */
  function VariantQualityCheckCode(x: VariantQualityCheck): (c: int)
    ensures -0x8000_0000_0000_0000 <= c < 0x8000_0000_0000_0000
    ensures 0 <= c <= 4
  {
    match x
    case ContigAlleleMissing => 0
    case WithdrawnBySubmitter => 1
    case NonOverlappingAlleles => 2
    case StrainSpecific => 3
    case GenotypeConflict => 4
  }

  /** The variant with discriminant `c`, if there is one. */
  function VariantQualityCheckFromCode(c: int): (r: Option<VariantQualityCheck>)
    ensures r.Some? <==> (0 <= c <= 4)
    ensures r.Some? ==> VariantQualityCheckCode(r.value) == c
  {
    if c == 0 then Some(VariantQualityCheck.ContigAlleleMissing)
    else if c == 1 then Some(VariantQualityCheck.WithdrawnBySubmitter)
    else if c == 2 then Some(VariantQualityCheck.NonOverlappingAlleles)
    else if c == 3 then Some(VariantQualityCheck.StrainSpecific)
    else if c == 4 then Some(VariantQualityCheck.GenotypeConflict)
    else None
  }

  /** Decoding the discriminant of a variant gives the variant back, so the codes are distinct. */
  lemma VariantQualityCheckRoundTrip(x: VariantQualityCheck)
    ensures VariantQualityCheckFromCode(VariantQualityCheckCode(x)) == Some(x)
  {
  }

  lemma VariantQualityCheckCodeInjective(x: VariantQualityCheck, y: VariantQualityCheck)
    ensures VariantQualityCheckCode(x) == VariantQualityCheckCode(y) ==> x == y
  {
    VariantQualityCheckRoundTrip(x);
    VariantQualityCheckRoundTrip(y);
  }
  /** `VariantConfidence`. */
  datatype VariantConfidence = Unknown | LikelyArtifact | Other

  /** The discriminant each variant serialises as. */
  function VariantConfidenceCode(x: VariantConfidence): (c: int)
    ensures -0x8000_0000_0000_0000 <= c < 0x8000_0000_0000_0000
    ensures 0 <= c <= 1 || c == 255
  {
    match x
    case Unknown => 0
    case LikelyArtifact => 1
    case Other => 255
  }

  /** The variant with discriminant `c`, if there is one. */
  function VariantConfidenceFromCode(c: int): (r: Option<VariantConfidence>)
    ensures r.Some? <==> (0 <= c <= 1 || c == 255)
    ensures r.Some? ==> VariantConfidenceCode(r.value) == c
  {
    if c == 0 then Some(VariantConfidence.Unknown)
    else if c == 1 then Some(VariantConfidence.LikelyArtifact)
    else if c == 255 then Some(VariantConfidence.Other)
    else None
  }

  /** Decoding the discriminant of a variant gives the variant back, so the codes are distinct. */
  lemma VariantConfidenceRoundTrip(x: VariantConfidence)
    ensures VariantConfidenceFromCode(VariantConfidenceCode(x)) == Some(x)
  {
  }

  lemma VariantConfidenceCodeInjective(x: VariantConfidence, y: VariantConfidence)
    ensures VariantConfidenceCode(x) == VariantConfidenceCode(y) ==> x == y
  {
    VariantConfidenceRoundTrip(x);
    VariantConfidenceRoundTrip(y);
  }
  /** `VariantAlleleOrigin`: bit flags with Unknown as the empty set; `Other` carries the discriminant as declared. */
  datatype VariantAlleleOrigin =
    | Unknown
    | Germline
    | Somatic
    | Inherited
    | Paternal
    | Maternal
    | DeNovo
    | Biparental
    | Uniparental
    | NotTested
    | TestedInconclusive
    | NotReported
    | Other

  /** The discriminant each variant serialises as. */
  function VariantAlleleOriginCode(x: VariantAlleleOrigin): (c: int)
    ensures -0x8000_0000_0000_0000 <= c < 0x8000_0000_0000_0000
    ensures 0 <= c <= 2 || c == 4 || c == 8 || c == 16 || c == 32 || c == 64 || c == 128 || c == 256 || c == 512 || c == 1024 || c == 10732741824
  {
    match x
    case Unknown => 0
    case Germline => 1
    case Somatic => 2
    case Inherited => 4
    case Paternal => 8
    case Maternal => 16
    case DeNovo => 32
    case Biparental => 64
    case Uniparental => 128
    case NotTested => 256
    case TestedInconclusive => 512
    case NotReported => 1024
    case Other => 10732741824
  }

  /** The variant with discriminant `c`, if there is one. */
  function VariantAlleleOriginFromCode(c: int): (r: Option<VariantAlleleOrigin>)
    ensures r.Some? <==> (0 <= c <= 2 || c == 4 || c == 8 || c == 16 || c == 32 || c == 64 || c == 128 || c == 256 || c == 512 || c == 1024 || c == 10732741824)
    ensures r.Some? ==> VariantAlleleOriginCode(r.value) == c
  {
    if c == 0 then Some(VariantAlleleOrigin.Unknown)
    else if c == 1 then Some(VariantAlleleOrigin.Germline)
    else if c == 2 then Some(VariantAlleleOrigin.Somatic)
    else if c == 4 then Some(VariantAlleleOrigin.Inherited)
    else if c == 8 then Some(VariantAlleleOrigin.Paternal)
    else if c == 16 then Some(VariantAlleleOrigin.Maternal)
    else if c == 32 then Some(VariantAlleleOrigin.DeNovo)
    else if c == 64 then Some(VariantAlleleOrigin.Biparental)
    else if c == 128 then Some(VariantAlleleOrigin.Uniparental)
    else if c == 256 then Some(VariantAlleleOrigin.NotTested)
    else if c == 512 then Some(VariantAlleleOrigin.TestedInconclusive)
    else if c == 1024 then Some(VariantAlleleOrigin.NotReported)
    else if c == 10732741824 then Some(VariantAlleleOrigin.Other)
    else None
  }

  /** Decoding the discriminant of a variant gives the variant back, so the codes are distinct. */
  lemma VariantAlleleOriginRoundTrip(x: VariantAlleleOrigin)
    ensures VariantAlleleOriginFromCode(VariantAlleleOriginCode(x)) == Some(x)
  {
  }

  lemma VariantAlleleOriginCodeInjective(x: VariantAlleleOrigin, y: VariantAlleleOrigin)
    ensures VariantAlleleOriginCode(x) == VariantAlleleOriginCode(y) ==> x == y
  {
    VariantAlleleOriginRoundTrip(x);
    VariantAlleleOriginRoundTrip(y);
  }
  /** `VariantAlleleState`. */
  datatype VariantAlleleState =
    | Unknown
    | Homosygous
    | Heterozygous
    | Hemizygous
    | Nullizygous
    | Other

  /** The discriminant each variant serialises as. */
  function VariantAlleleStateCode(x: VariantAlleleState): (c: int)
    ensures -0x8000_0000_0000_0000 <= c < 0x8000_0000_0000_0000
    ensures 0 <= c <= 4 || c == 255
  {
    match x
    case Unknown => 0
    case Homosygous => 1
    case Heterozygous => 2
    case Hemizygous => 3
    case Nullizygous => 4
    case Other => 255
  }

  /** The variant with discriminant `c`, if there is one. */
  function VariantAlleleStateFromCode(c: int): (r: Option<VariantAlleleState>)
    ensures r.Some? <==> (0 <= c <= 4 || c == 255)
    ensures r.Some? ==> VariantAlleleStateCode(r.value) == c
  {
    if c == 0 then Some(VariantAlleleState.Unknown)
    else if c == 1 then Some(VariantAlleleState.Homosygous)
    else if c == 2 then Some(VariantAlleleState.Heterozygous)
    else if c == 3 then Some(VariantAlleleState.Hemizygous)
    else if c == 4 then Some(VariantAlleleState.Nullizygous)
    else if c == 255 then Some(VariantAlleleState.Other)
    else None
  }

  /** Decoding the discriminant of a variant gives the variant back, so the codes are distinct. */
  lemma VariantAlleleStateRoundTrip(x: VariantAlleleState)
    ensures VariantAlleleStateFromCode(VariantAlleleStateCode(x)) == Some(x)
  {
  }

  lemma VariantAlleleStateCodeInjective(x: VariantAlleleState, y: VariantAlleleState)
    ensures VariantAlleleStateCode(x) == VariantAlleleStateCode(y) ==> x == y
  {
    VariantAlleleStateRoundTrip(x);
    VariantAlleleStateRoundTrip(y);
  }
  /** `PhenotypeClinicalSignificance`. */
  datatype PhenotypeClinicalSignificance =
    | Unknown
    | Untested
    | NonPathogenic
    | ProbableNonPathogenic
    | ProbablePathogenic
    | Pathogenic
    | DrugResponse
    | Histocompatibility
    | Other

  /** The discriminant each variant serialises as. */
  function PhenotypeClinicalSignificanceCode(x: PhenotypeClinicalSignificance): (c: int)
    ensures -0x8000_0000_0000_0000 <= c < 0x8000_0000_0000_0000
    ensures 0 <= c <= 7 || c == 255
  {
    match x
    case Unknown => 0
    case Untested => 1
    case NonPathogenic => 2
    case ProbableNonPathogenic => 3
    case ProbablePathogenic => 4
    case Pathogenic => 5
    case DrugResponse => 6
    case Histocompatibility => 7
    case Other => 255
  }

  /** The variant with discriminant `c`, if there is one. */
  function PhenotypeClinicalSignificanceFromCode(c: int): (r: Option<PhenotypeClinicalSignificance>)
    ensures r.Some? <==> (0 <= c <= 7 || c == 255)
    ensures r.Some? ==> PhenotypeClinicalSignificanceCode(r.value) == c
  {
    if c == 0 then Some(PhenotypeClinicalSignificance.Unknown)
    else if c == 1 then Some(PhenotypeClinicalSignificance.Untested)
    else if c == 2 then Some(PhenotypeClinicalSignificance.NonPathogenic)
    else if c == 3 then Some(PhenotypeClinicalSignificance.ProbableNonPathogenic)
    else if c == 4 then Some(PhenotypeClinicalSignificance.ProbablePathogenic)
    else if c == 5 then Some(PhenotypeClinicalSignificance.Pathogenic)
    else if c == 6 then Some(PhenotypeClinicalSignificance.DrugResponse)
    else if c == 7 then Some(PhenotypeClinicalSignificance.Histocompatibility)
    else if c == 255 then Some(PhenotypeClinicalSignificance.Other)
    else None
  }

  /** Decoding the discriminant of a variant gives the variant back, so the codes are distinct. */
  lemma PhenotypeClinicalSignificanceRoundTrip(x: PhenotypeClinicalSignificance)
    ensures PhenotypeClinicalSignificanceFromCode(PhenotypeClinicalSignificanceCode(x)) == Some(x)
  {
  }

  lemma PhenotypeClinicalSignificanceCodeInjective(x: PhenotypeClinicalSignificance, y: PhenotypeClinicalSignificance)
    ensures PhenotypeClinicalSignificanceCode(x) == PhenotypeClinicalSignificanceCode(y) ==> x == y
  {
    PhenotypeClinicalSignificanceRoundTrip(x);
    PhenotypeClinicalSignificanceRoundTrip(y);
  }
  /** `PopulationDataFlags`: bit flags. */
  datatype PopulationDataFlags = IsDefaultPopulation | IsMinorAllele | IsRareAllele

  /** The discriminant each variant serialises as. */
  function PopulationDataFlagsCode(x: PopulationDataFlags): (c: int)
    ensures -0x8000_0000_0000_0000 <= c < 0x8000_0000_0000_0000
    ensures 1 <= c <= 2 || c == 4
  {
    match x
    case IsDefaultPopulation => 1
    case IsMinorAllele => 2
    case IsRareAllele => 4
  }

  /** The variant with discriminant `c`, if there is one. */
  function PopulationDataFlagsFromCode(c: int): (r: Option<PopulationDataFlags>)
    ensures r.Some? <==> (1 <= c <= 2 || c == 4)
    ensures r.Some? ==> PopulationDataFlagsCode(r.value) == c
  {
    if c == 1 then Some(PopulationDataFlags.IsDefaultPopulation)
    else if c == 2 then Some(PopulationDataFlags.IsMinorAllele)
    else if c == 4 then Some(PopulationDataFlags.IsRareAllele)
    else None
  }

  /** Decoding the discriminant of a variant gives the variant back, so the codes are distinct. */
  lemma PopulationDataFlagsRoundTrip(x: PopulationDataFlags)
    ensures PopulationDataFlagsFromCode(PopulationDataFlagsCode(x)) == Some(x)
  {
  }

  lemma PopulationDataFlagsCodeInjective(x: PopulationDataFlags, y: PopulationDataFlags)
    ensures PopulationDataFlagsCode(x) == PopulationDataFlagsCode(y) ==> x == y
  {
    PopulationDataFlagsRoundTrip(x);
    PopulationDataFlagsRoundTrip(y);
  }
  /** `VariantRefMethod`: how a variation was observed. */
  datatype VariantRefMethod =
    | Unknown
    | BacAcgh
    | Computational
    | Curated
    | DigitalArray
    | ExpressionArray
    | Fish
    | FlankingSequence
    | Maph
    | McdAnalysis
    | Mlpa
    | OeaAssembly
    | OligoAcgh
    | PairedEnd
    | PCR
    | Qpcr
    | ReadDepth
    | Roma
    | RtPcr
    | Sage
    | SequenceAlignment
    | Sequencing
    | SnpArray
    | Southern
    | Western
    | OpticalMapping
    | Other

  /** The discriminant each variant serialises as. */
  function VariantRefMethodCode(x: VariantRefMethod): (c: int)
    ensures -0x8000_0000_0000_0000 <= c < 0x8000_0000_0000_0000
    ensures 0 <= c <= 25 || c == 255
  {
    match x
    case Unknown => 0
    case BacAcgh => 1
    case Computational => 2
    case Curated => 3
    case DigitalArray => 4
    case ExpressionArray => 5
    case Fish => 6
    case FlankingSequence => 7
    case Maph => 8
    case McdAnalysis => 9
    case Mlpa => 10
    case OeaAssembly => 11
    case OligoAcgh => 12
    case PairedEnd => 13
    case PCR => 14
    case Qpcr => 15
    case ReadDepth => 16
    case Roma => 17
    case RtPcr => 18
    case Sage => 19
    case SequenceAlignment => 20
    case Sequencing => 21
    case SnpArray => 22
    case Southern => 23
    case Western => 24
    case OpticalMapping => 25
    case Other => 255
  }

  /** The variant with discriminant `c`, if there is one. */
  function VariantRefMethodFromCode(c: int): (r: Option<VariantRefMethod>)
    ensures r.Some? <==> (0 <= c <= 25 || c == 255)
    ensures r.Some? ==> VariantRefMethodCode(r.value) == c
  {
    if c < 10 then VariantRefMethodFromCode0(c)
    else if c < 20 then VariantRefMethodFromCode1(c)
    else VariantRefMethodFromCode2(c)
  }

  function VariantRefMethodFromCode0(c: int): (r: Option<VariantRefMethod>)
    ensures r.Some? <==> (0 <= c <= 9)
    ensures r.Some? ==> VariantRefMethodCode(r.value) == c
  {
    if c == 0 then Some(VariantRefMethod.Unknown)
    else if c == 1 then Some(VariantRefMethod.BacAcgh)
    else if c == 2 then Some(VariantRefMethod.Computational)
    else if c == 3 then Some(VariantRefMethod.Curated)
    else if c == 4 then Some(VariantRefMethod.DigitalArray)
    else if c == 5 then Some(VariantRefMethod.ExpressionArray)
    else if c == 6 then Some(VariantRefMethod.Fish)
    else if c == 7 then Some(VariantRefMethod.FlankingSequence)
    else if c == 8 then Some(VariantRefMethod.Maph)
    else if c == 9 then Some(VariantRefMethod.McdAnalysis)
    else None
  }

  function VariantRefMethodFromCode1(c: int): (r: Option<VariantRefMethod>)
    ensures r.Some? <==> (10 <= c <= 19)
    ensures r.Some? ==> VariantRefMethodCode(r.value) == c
  {
    if c == 10 then Some(VariantRefMethod.Mlpa)
    else if c == 11 then Some(VariantRefMethod.OeaAssembly)
    else if c == 12 then Some(VariantRefMethod.OligoAcgh)
    else if c == 13 then Some(VariantRefMethod.PairedEnd)
    else if c == 14 then Some(VariantRefMethod.PCR)
    else if c == 15 then Some(VariantRefMethod.Qpcr)
    else if c == 16 then Some(VariantRefMethod.ReadDepth)
    else if c == 17 then Some(VariantRefMethod.Roma)
    else if c == 18 then Some(VariantRefMethod.RtPcr)
    else if c == 19 then Some(VariantRefMethod.Sage)
    else None
  }

  function VariantRefMethodFromCode2(c: int): (r: Option<VariantRefMethod>)
    ensures r.Some? <==> (20 <= c <= 25 || c == 255)
    ensures r.Some? ==> VariantRefMethodCode(r.value) == c
  {
    if c == 20 then Some(VariantRefMethod.SequenceAlignment)
    else if c == 21 then Some(VariantRefMethod.Sequencing)
    else if c == 22 then Some(VariantRefMethod.SnpArray)
    else if c == 23 then Some(VariantRefMethod.Southern)
    else if c == 24 then Some(VariantRefMethod.Western)
    else if c == 25 then Some(VariantRefMethod.OpticalMapping)
    else if c == 255 then Some(VariantRefMethod.Other)
    else None
  }

  /** Decoding the discriminant of a variant gives the variant back, so the codes are distinct. */
  lemma VariantRefMethodRoundTrip(x: VariantRefMethod)
    ensures VariantRefMethodFromCode(VariantRefMethodCode(x)) == Some(x)
  {
  }

  lemma VariantRefMethodCodeInjective(x: VariantRefMethod, y: VariantRefMethod)
    ensures VariantRefMethodCode(x) == VariantRefMethodCode(y) ==> x == y
  {
    VariantRefMethodRoundTrip(x);
    VariantRefMethodRoundTrip(y);
  }
  /** `VariationRefDataSetType`. */
  datatype VariationRefDataSetType =
    | Unknown
    | Compound
    | Products
    | Haplotype
    | Genotype
    | Mosaic
    | Individual
    | Population
    | Alleles
    | Package
    | Other

  /** The discriminant each variant serialises as. */
  function VariationRefDataSetTypeCode(x: VariationRefDataSetType): (c: int)
    ensures -0x8000_0000_0000_0000 <= c < 0x8000_0000_0000_0000
    ensures 0 <= c <= 9 || c == 255
  {
    match x
    case Unknown => 0
    case Compound => 1
    case Products => 2
    case Haplotype => 3
    case Genotype => 4
    case Mosaic => 5
    case Individual => 6
    case Population => 7
    case Alleles => 8
    case Package => 9
    case Other => 255
  }

  /** The variant with discriminant `c`, if there is one. */
  function VariationRefDataSetTypeFromCode(c: int): (r: Option<VariationRefDataSetType>)
    ensures r.Some? <==> (0 <= c <= 9 || c == 255)
    ensures r.Some? ==> VariationRefDataSetTypeCode(r.value) == c
  {
    if c == 0 then Some(VariationRefDataSetType.Unknown)
    else if c == 1 then Some(VariationRefDataSetType.Compound)
    else if c == 2 then Some(VariationRefDataSetType.Products)
    else if c == 3 then Some(VariationRefDataSetType.Haplotype)
    else if c == 4 then Some(VariationRefDataSetType.Genotype)
    else if c == 5 then Some(VariationRefDataSetType.Mosaic)
    else if c == 6 then Some(VariationRefDataSetType.Individual)
    else if c == 7 then Some(VariationRefDataSetType.Population)
    else if c == 8 then Some(VariationRefDataSetType.Alleles)
    else if c == 9 then Some(VariationRefDataSetType.Package)
    else if c == 255 then Some(VariationRefDataSetType.Other)
    else None
  }

  /** Decoding the discriminant of a variant gives the variant back, so the codes are distinct. */
  lemma VariationRefDataSetTypeRoundTrip(x: VariationRefDataSetType)
    ensures VariationRefDataSetTypeFromCode(VariationRefDataSetTypeCode(x)) == Some(x)
  {
  }

  lemma VariationRefDataSetTypeCodeInjective(x: VariationRefDataSetType, y: VariationRefDataSetType)
    ensures VariationRefDataSetTypeCode(x) == VariationRefDataSetTypeCode(y) ==> x == y
  {
    VariationRefDataSetTypeRoundTrip(x);
    VariationRefDataSetTypeRoundTrip(y);
  }
  /** `DeltaAction`: how a delta item applies. */
  datatype DeltaAction = Morph | Offset | DelAt | InsBefore

  /** The discriminant each variant serialises as. */
  function DeltaActionCode(x: DeltaAction): (c: int)
    ensures -0x8000_0000_0000_0000 <= c < 0x8000_0000_0000_0000
    ensures 0 <= c <= 3
  {
    match x
    case Morph => 0
    case Offset => 1
    case DelAt => 2
    case InsBefore => 3
  }

  /** The variant with discriminant `c`, if there is one. */
  function DeltaActionFromCode(c: int): (r: Option<DeltaAction>)
    ensures r.Some? <==> (0 <= c <= 3)
    ensures r.Some? ==> DeltaActionCode(r.value) == c
  {
    if c == 0 then Some(DeltaAction.Morph)
    else if c == 1 then Some(DeltaAction.Offset)
    else if c == 2 then Some(DeltaAction.DelAt)
    else if c == 3 then Some(DeltaAction.InsBefore)
    else None
  }

  /** Decoding the discriminant of a variant gives the variant back, so the codes are distinct. */
  lemma DeltaActionRoundTrip(x: DeltaAction)
    ensures DeltaActionFromCode(DeltaActionCode(x)) == Some(x)
  {
  }

  lemma DeltaActionCodeInjective(x: DeltaAction, y: DeltaAction)
    ensures DeltaActionCode(x) == DeltaActionCode(y) ==> x == y
  {
    DeltaActionRoundTrip(x);
    DeltaActionRoundTrip(y);
  }

  /** `#[default]`: Morph. */
  const DefaultDeltaAction: DeltaAction := DeltaAction.Morph
  /** `VariationInstType`. */
  datatype VariationInstType =
    | Unknown
    | Identity
    | Inv
    | SNV
    | MNP
    | DelIns
    | Del
    | Ins
    | Microsatellite
    | Transposon
    | CNV
    | DirectCopy
    | RevDirectCopy
    | EvertedCopy
    | Translocation
    | ProtMissense
    | ProtNonsense
    | ProtNeutral
    | ProtSilent
    | Other

  /** The discriminant each variant serialises as. */
  function VariationInstTypeCode(x: VariationInstType): (c: int)
    ensures -0x8000_0000_0000_0000 <= c < 0x8000_0000_0000_0000
    ensures 0 <= c <= 18 || c == 255
  {
    match x
    case Unknown => 0
    case Identity => 1
    case Inv => 2
    case SNV => 3
    case MNP => 4
    case DelIns => 5
    case Del => 6
    case Ins => 7
    case Microsatellite => 8
    case Transposon => 9
    case CNV => 10
    case DirectCopy => 11
    case RevDirectCopy => 12
    case EvertedCopy => 13
    case Translocation => 14
    case ProtMissense => 15
    case ProtNonsense => 16
    case ProtNeutral => 17
    case ProtSilent => 18
    case Other => 255
  }

  /** The variant with discriminant `c`, if there is one. */
  function VariationInstTypeFromCode(c: int): (r: Option<VariationInstType>)
    ensures r.Some? <==> (0 <= c <= 18 || c == 255)
    ensures r.Some? ==> VariationInstTypeCode(r.value) == c
  {
    if c == 0 then Some(VariationInstType.Unknown)
    else if c == 1 then Some(VariationInstType.Identity)
    else if c == 2 then Some(VariationInstType.Inv)
    else if c == 3 then Some(VariationInstType.SNV)
    else if c == 4 then Some(VariationInstType.MNP)
    else if c == 5 then Some(VariationInstType.DelIns)
    else if c == 6 then Some(VariationInstType.Del)
    else if c == 7 then Some(VariationInstType.Ins)
    else if c == 8 then Some(VariationInstType.Microsatellite)
    else if c == 9 then Some(VariationInstType.Transposon)
    else if c == 10 then Some(VariationInstType.CNV)
    else if c == 11 then Some(VariationInstType.DirectCopy)
    else if c == 12 then Some(VariationInstType.RevDirectCopy)
    else if c == 13 then Some(VariationInstType.EvertedCopy)
    else if c == 14 then Some(VariationInstType.Translocation)
    else if c == 15 then Some(VariationInstType.ProtMissense)
    else if c == 16 then Some(VariationInstType.ProtNonsense)
    else if c == 17 then Some(VariationInstType.ProtNeutral)
    else if c == 18 then Some(VariationInstType.ProtSilent)
    else if c == 255 then Some(VariationInstType.Other)
    else None
  }

  /** Decoding the discriminant of a variant gives the variant back, so the codes are distinct. */
  lemma VariationInstTypeRoundTrip(x: VariationInstType)
    ensures VariationInstTypeFromCode(VariationInstTypeCode(x)) == Some(x)
  {
  }

  lemma VariationInstTypeCodeInjective(x: VariationInstType, y: VariationInstType)
    ensures VariationInstTypeCode(x) == VariationInstTypeCode(y) ==> x == y
  {
    VariationInstTypeRoundTrip(x);
    VariationInstTypeRoundTrip(y);
  }
  /** `VariationInstObservation`. */
  datatype VariationInstObservation = Asserted | Reference | Variant

  /** The discriminant each variant serialises as. */
  function VariationInstObservationCode(x: VariationInstObservation): (c: int)
    ensures -0x8000_0000_0000_0000 <= c < 0x8000_0000_0000_0000
    ensures 0 <= c <= 2
  {
    match x
    case Asserted => 0
    case Reference => 1
    case Variant => 2
  }

  /** The variant with discriminant `c`, if there is one. */
  function VariationInstObservationFromCode(c: int): (r: Option<VariationInstObservation>)
    ensures r.Some? <==> (0 <= c <= 2)
    ensures r.Some? ==> VariationInstObservationCode(r.value) == c
  {
    if c == 0 then Some(VariationInstObservation.Asserted)
    else if c == 1 then Some(VariationInstObservation.Reference)
    else if c == 2 then Some(VariationInstObservation.Variant)
    else None
  }

  /** Decoding the discriminant of a variant gives the variant back, so the codes are distinct. */
  lemma VariationInstObservationRoundTrip(x: VariationInstObservation)
    ensures VariationInstObservationFromCode(VariationInstObservationCode(x)) == Some(x)
  {
  }

  lemma VariationInstObservationCodeInjective(x: VariationInstObservation, y: VariationInstObservation)
    ensures VariationInstObservationCode(x) == VariationInstObservationCode(y) ==> x == y
  {
    VariationInstObservationRoundTrip(x);
    VariationInstObservationRoundTrip(y);
  }
  /** `RnaRefType`: the kind of an RNA; the implicit discriminants count from 0. */
  datatype RnaRefType =
    | Unknown
    | PreMsg
    | mRNA
    | tRNA
    | rRNA
    | snRNA
    | scRNA
    | snoRNA
    | ncRNA
    | tmRNA
    | MiscRNA
    | Other

  /** The discriminant each variant serialises as. */
  function RnaRefTypeCode(x: RnaRefType): (c: int)
    ensures -0x8000_0000_0000_0000 <= c < 0x8000_0000_0000_0000
    ensures 0 <= c <= 10 || c == 255
  {
    match x
    case Unknown => 0
    case PreMsg => 1
    case mRNA => 2
    case tRNA => 3
    case rRNA => 4
    case snRNA => 5
    case scRNA => 6
    case snoRNA => 7
    case ncRNA => 8
    case tmRNA => 9
    case MiscRNA => 10
    case Other => 255
  }

  /** The variant with discriminant `c`, if there is one. */
  function RnaRefTypeFromCode(c: int): (r: Option<RnaRefType>)
    ensures r.Some? <==> (0 <= c <= 10 || c == 255)
    ensures r.Some? ==> RnaRefTypeCode(r.value) == c
  {
    if c == 0 then Some(RnaRefType.Unknown)
    else if c == 1 then Some(RnaRefType.PreMsg)
    else if c == 2 then Some(RnaRefType.mRNA)
    else if c == 3 then Some(RnaRefType.tRNA)
    else if c == 4 then Some(RnaRefType.rRNA)
    else if c == 5 then Some(RnaRefType.snRNA)
    else if c == 6 then Some(RnaRefType.scRNA)
    else if c == 7 then Some(RnaRefType.snoRNA)
    else if c == 8 then Some(RnaRefType.ncRNA)
    else if c == 9 then Some(RnaRefType.tmRNA)
    else if c == 10 then Some(RnaRefType.MiscRNA)
    else if c == 255 then Some(RnaRefType.Other)
    else None
  }

  /** Decoding the discriminant of a variant gives the variant back, so the codes are distinct. */
  lemma RnaRefTypeRoundTrip(x: RnaRefType)
    ensures RnaRefTypeFromCode(RnaRefTypeCode(x)) == Some(x)
  {
  }

  lemma RnaRefTypeCodeInjective(x: RnaRefType, y: RnaRefType)
    ensures RnaRefTypeCode(x) == RnaRefTypeCode(y) ==> x == y
  {
    RnaRefTypeRoundTrip(x);
    RnaRefTypeRoundTrip(y);
  }

  /** `TRnaExtAa`: the amino acid a tRNA carries, in one of four alphabets. */
  datatype TRnaExtAa = IUPACAa(iupacaa: nat) | NCBIEaa(ncbieaa: nat) | NCBI8aa(ncbi8aa: nat) | NCBIStdAa(ncbistdaa: nat)

  /** `TRnaExt`: the codons are a set, so they hold no duplicates. */
  datatype TRnaExt = TRnaExt(aa: TRnaExtAa, codon: Option<set<nat>>, anticodon: Option<SeqLoc.SeqLoc>)

  /** `RnaQual`: a qualifier and its value. */
  datatype RnaQual = RnaQual(qual: string, val: string)

  /** `RnaGen`. */
  datatype RnaGen = RnaGen(genClass: Option<string>, product: Option<string>, quals: Option<seq<RnaQual>>)

  /** `RnaRefExt`. */
  datatype RnaRefExt = Name(name: string) | tRNA(trna: TRnaExt) | Gen(gen: RnaGen)

  /** `RnaRef`. */
  datatype RnaRef = RnaRef(rnaType: RnaRefType, pseudo: Option<bool>, ext: Option<RnaRefExt>)
  /** `GeneNomenclatureStatus`. */
  datatype GeneNomenclatureStatus = Unknown | Official | Interim

  /** The discriminant each variant serialises as. */
  function GeneNomenclatureStatusCode(x: GeneNomenclatureStatus): (c: int)
    ensures -0x8000_0000_0000_0000 <= c < 0x8000_0000_0000_0000
    ensures 0 <= c <= 2
  {
    match x
    case Unknown => 0
    case Official => 1
    case Interim => 2
  }

  /** The variant with discriminant `c`, if there is one. */
  function GeneNomenclatureStatusFromCode(c: int): (r: Option<GeneNomenclatureStatus>)
    ensures r.Some? <==> (0 <= c <= 2)
    ensures r.Some? ==> GeneNomenclatureStatusCode(r.value) == c
  {
    if c == 0 then Some(GeneNomenclatureStatus.Unknown)
    else if c == 1 then Some(GeneNomenclatureStatus.Official)
    else if c == 2 then Some(GeneNomenclatureStatus.Interim)
    else None
  }

  /** Decoding the discriminant of a variant gives the variant back, so the codes are distinct. */
  lemma GeneNomenclatureStatusRoundTrip(x: GeneNomenclatureStatus)
    ensures GeneNomenclatureStatusFromCode(GeneNomenclatureStatusCode(x)) == Some(x)
  {
  }

  lemma GeneNomenclatureStatusCodeInjective(x: GeneNomenclatureStatus, y: GeneNomenclatureStatus)
    ensures GeneNomenclatureStatusCode(x) == GeneNomenclatureStatusCode(y) ==> x == y
  {
    GeneNomenclatureStatusRoundTrip(x);
    GeneNomenclatureStatusRoundTrip(y);
  }
  /** `OrgModSubType`: the kind of an organism modifier; the discriminants count on from Strain = 2. */
  datatype OrgModSubType =
    | Strain
    | SubStrain
    | Type
    | SubType
    | Variety
    | Serotype
    | Serogroup
    | Serovar
    | Cultivar
    | Pathovar
    | Chemovar
    | Biovar
    | Biotype
    | Group
    | SubGroup
    | Isolate
    | Common
    | Acronym
    | Dosage
    | NatHost
    | SubSpecies
    | SpecimenVoucher
    | Authority
    | Forma
    | FormaSpecialis
    | Ecotype
    | Synonym
    | Anamorph
    | Breed
    | GbAcronym
    | GbAnamorph
    | GbSynonym
    | CultureCollection
    | BioMaterial
    | MetagenomeSource
    | TypeMaterial
    | Nomenclature
    | OldLineage
    | OldName
    | Other

  /** The discriminant each variant serialises as. */
  function OrgModSubTypeCode(x: OrgModSubType): (c: int)
    ensures -0x8000_0000_0000_0000 <= c < 0x8000_0000_0000_0000
    ensures 2 <= c <= 38 || 253 <= c <= 255
  {
    match x
    case Strain => 2
    case SubStrain => 3
    case Type => 4
    case SubType => 5
    case Variety => 6
    case Serotype => 7
    case Serogroup => 8
    case Serovar => 9
    case Cultivar => 10
    case Pathovar => 11
    case Chemovar => 12
    case Biovar => 13
    case Biotype => 14
    case Group => 15
    case SubGroup => 16
    case Isolate => 17
    case Common => 18
    case Acronym => 19
    case Dosage => 20
    case NatHost => 21
    case SubSpecies => 22
    case SpecimenVoucher => 23
    case Authority => 24
    case Forma => 25
    case FormaSpecialis => 26
    case Ecotype => 27
    case Synonym => 28
    case Anamorph => 29
    case Breed => 30
    case GbAcronym => 31
    case GbAnamorph => 32
    case GbSynonym => 33
    case CultureCollection => 34
    case BioMaterial => 35
    case MetagenomeSource => 36
    case TypeMaterial => 37
    case Nomenclature => 38
    case OldLineage => 253
    case OldName => 254
    case Other => 255
  }

  /** The variant with discriminant `c`, if there is one. */
  function OrgModSubTypeFromCode(c: int): (r: Option<OrgModSubType>)
    ensures r.Some? <==> (2 <= c <= 38 || 253 <= c <= 255)
    ensures r.Some? ==> OrgModSubTypeCode(r.value) == c
  {
    if c < 12 then OrgModSubTypeFromCode0(c)
    else if c < 22 then OrgModSubTypeFromCode1(c)
    else if c < 32 then OrgModSubTypeFromCode2(c)
    else OrgModSubTypeFromCode3(c)
  }

  function OrgModSubTypeFromCode0(c: int): (r: Option<OrgModSubType>)
    ensures r.Some? <==> (2 <= c <= 11)
    ensures r.Some? ==> OrgModSubTypeCode(r.value) == c
  {
    if c == 2 then Some(OrgModSubType.Strain)
    else if c == 3 then Some(OrgModSubType.SubStrain)
    else if c == 4 then Some(OrgModSubType.Type)
    else if c == 5 then Some(OrgModSubType.SubType)
    else if c == 6 then Some(OrgModSubType.Variety)
    else if c == 7 then Some(OrgModSubType.Serotype)
    else if c == 8 then Some(OrgModSubType.Serogroup)
    else if c == 9 then Some(OrgModSubType.Serovar)
    else if c == 10 then Some(OrgModSubType.Cultivar)
    else if c == 11 then Some(OrgModSubType.Pathovar)
    else None
  }

  function OrgModSubTypeFromCode1(c: int): (r: Option<OrgModSubType>)
    ensures r.Some? <==> (12 <= c <= 21)
    ensures r.Some? ==> OrgModSubTypeCode(r.value) == c
  {
    if c == 12 then Some(OrgModSubType.Chemovar)
    else if c == 13 then Some(OrgModSubType.Biovar)
    else if c == 14 then Some(OrgModSubType.Biotype)
    else if c == 15 then Some(OrgModSubType.Group)
    else if c == 16 then Some(OrgModSubType.SubGroup)
    else if c == 17 then Some(OrgModSubType.Isolate)
    else if c == 18 then Some(OrgModSubType.Common)
    else if c == 19 then Some(OrgModSubType.Acronym)
    else if c == 20 then Some(OrgModSubType.Dosage)
    else if c == 21 then Some(OrgModSubType.NatHost)
    else None
  }

  function OrgModSubTypeFromCode2(c: int): (r: Option<OrgModSubType>)
    ensures r.Some? <==> (22 <= c <= 31)
    ensures r.Some? ==> OrgModSubTypeCode(r.value) == c
  {
    if c == 22 then Some(OrgModSubType.SubSpecies)
    else if c == 23 then Some(OrgModSubType.SpecimenVoucher)
    else if c == 24 then Some(OrgModSubType.Authority)
    else if c == 25 then Some(OrgModSubType.Forma)
    else if c == 26 then Some(OrgModSubType.FormaSpecialis)
    else if c == 27 then Some(OrgModSubType.Ecotype)
    else if c == 28 then Some(OrgModSubType.Synonym)
    else if c == 29 then Some(OrgModSubType.Anamorph)
    else if c == 30 then Some(OrgModSubType.Breed)
    else if c == 31 then Some(OrgModSubType.GbAcronym)
    else None
  }

  function OrgModSubTypeFromCode3(c: int): (r: Option<OrgModSubType>)
    ensures r.Some? <==> (32 <= c <= 38 || 253 <= c <= 255)
    ensures r.Some? ==> OrgModSubTypeCode(r.value) == c
  {
    if c == 32 then Some(OrgModSubType.GbAnamorph)
    else if c == 33 then Some(OrgModSubType.GbSynonym)
    else if c == 34 then Some(OrgModSubType.CultureCollection)
    else if c == 35 then Some(OrgModSubType.BioMaterial)
    else if c == 36 then Some(OrgModSubType.MetagenomeSource)
    else if c == 37 then Some(OrgModSubType.TypeMaterial)
    else if c == 38 then Some(OrgModSubType.Nomenclature)
    else if c == 253 then Some(OrgModSubType.OldLineage)
    else if c == 254 then Some(OrgModSubType.OldName)
    else if c == 255 then Some(OrgModSubType.Other)
    else None
  }

  /** Decoding the discriminant of a variant gives the variant back, so the codes are distinct. */
  lemma OrgModSubTypeRoundTrip(x: OrgModSubType)
    ensures OrgModSubTypeFromCode(OrgModSubTypeCode(x)) == Some(x)
  {
  }

  lemma OrgModSubTypeCodeInjective(x: OrgModSubType, y: OrgModSubType)
    ensures OrgModSubTypeCode(x) == OrgModSubTypeCode(y) ==> x == y
  {
    OrgModSubTypeRoundTrip(x);
    OrgModSubTypeRoundTrip(y);
  }
  /** `TaxElementFixedLevel`. */
  datatype TaxElementFixedLevel = Other | Family | Order | Class

  /** The discriminant each variant serialises as. */
  function TaxElementFixedLevelCode(x: TaxElementFixedLevel): (c: int)
    ensures -0x8000_0000_0000_0000 <= c < 0x8000_0000_0000_0000
    ensures 0 <= c <= 3
  {
    match x
    case Other => 0
    case Family => 1
    case Order => 2
    case Class => 3
  }

  /** The variant with discriminant `c`, if there is one. */
  function TaxElementFixedLevelFromCode(c: int): (r: Option<TaxElementFixedLevel>)
    ensures r.Some? <==> (0 <= c <= 3)
    ensures r.Some? ==> TaxElementFixedLevelCode(r.value) == c
  {
    if c == 0 then Some(TaxElementFixedLevel.Other)
    else if c == 1 then Some(TaxElementFixedLevel.Family)
    else if c == 2 then Some(TaxElementFixedLevel.Order)
    else if c == 3 then Some(TaxElementFixedLevel.Class)
    else None
  }

  /** Decoding the discriminant of a variant gives the variant back, so the codes are distinct. */
  lemma TaxElementFixedLevelRoundTrip(x: TaxElementFixedLevel)
    ensures TaxElementFixedLevelFromCode(TaxElementFixedLevelCode(x)) == Some(x)
  {
  }

  lemma TaxElementFixedLevelCodeInjective(x: TaxElementFixedLevel, y: TaxElementFixedLevel)
    ensures TaxElementFixedLevelCode(x) == TaxElementFixedLevelCode(y) ==> x == y
  {
    TaxElementFixedLevelRoundTrip(x);
    TaxElementFixedLevelRoundTrip(y);
  }
  /** `BioSourceGenome`: where in the cell a sequence lives. */
  datatype BioSourceGenome =
    | Unknown
    | Genomic
    | Chloroplast
    | Chromoplast
    | Kinetoplast
    | Mitochondrion
    | Plastid
    | Macronuclear
    | Extrachrom
    | Plasmid
    | Transposon
    | INsertionSeq
    | Cyanelle
    | Proviral
    | Virion
    | Nucleomorph
    | Apicoplast
    | Leucoplast
    | Proplastid
    | EndogenousVirus
    | Hydrogenosome
    | Chromosome
    | PlasmidInMitochondrion
    | PlasmidInPlastid

  /** The discriminant each variant serialises as. */
  function BioSourceGenomeCode(x: BioSourceGenome): (c: int)
    ensures -0x8000_0000_0000_0000 <= c < 0x8000_0000_0000_0000
    ensures 0 <= c <= 23
  {
    match x
    case Unknown => 0
    case Genomic => 1
    case Chloroplast => 2
    case Chromoplast => 3
    case Kinetoplast => 4
    case Mitochondrion => 5
    case Plastid => 6
    case Macronuclear => 7
    case Extrachrom => 8
    case Plasmid => 9
    case Transposon => 10
    case INsertionSeq => 11
    case Cyanelle => 12
    case Proviral => 13
    case Virion => 14
    case Nucleomorph => 15
    case Apicoplast => 16
    case Leucoplast => 17
    case Proplastid => 18
    case EndogenousVirus => 19
    case Hydrogenosome => 20
    case Chromosome => 21
    case PlasmidInMitochondrion => 22
    case PlasmidInPlastid => 23
  }

  /** The variant with discriminant `c`, if there is one. */
  function BioSourceGenomeFromCode(c: int): (r: Option<BioSourceGenome>)
    ensures r.Some? <==> (0 <= c <= 23)
    ensures r.Some? ==> BioSourceGenomeCode(r.value) == c
  {
    if c == 0 then Some(BioSourceGenome.Unknown)
    else if c == 1 then Some(BioSourceGenome.Genomic)
    else if c == 2 then Some(BioSourceGenome.Chloroplast)
    else if c == 3 then Some(BioSourceGenome.Chromoplast)
    else if c == 4 then Some(BioSourceGenome.Kinetoplast)
    else if c == 5 then Some(BioSourceGenome.Mitochondrion)
    else if c == 6 then Some(BioSourceGenome.Plastid)
    else if c == 7 then Some(BioSourceGenome.Macronuclear)
    else if c == 8 then Some(BioSourceGenome.Extrachrom)
    else if c == 9 then Some(BioSourceGenome.Plasmid)
    else if c == 10 then Some(BioSourceGenome.Transposon)
    else if c == 11 then Some(BioSourceGenome.INsertionSeq)
    else if c == 12 then Some(BioSourceGenome.Cyanelle)
    else if c == 13 then Some(BioSourceGenome.Proviral)
    else if c == 14 then Some(BioSourceGenome.Virion)
    else if c == 15 then Some(BioSourceGenome.Nucleomorph)
    else if c == 16 then Some(BioSourceGenome.Apicoplast)
    else if c == 17 then Some(BioSourceGenome.Leucoplast)
    else if c == 18 then Some(BioSourceGenome.Proplastid)
    else if c == 19 then Some(BioSourceGenome.EndogenousVirus)
    else if c == 20 then Some(BioSourceGenome.Hydrogenosome)
    else if c == 21 then Some(BioSourceGenome.Chromosome)
    else if c == 22 then Some(BioSourceGenome.PlasmidInMitochondrion)
    else if c == 23 then Some(BioSourceGenome.PlasmidInPlastid)
    else None
  }

  /** Decoding the discriminant of a variant gives the variant back, so the codes are distinct. */
  lemma BioSourceGenomeRoundTrip(x: BioSourceGenome)
    ensures BioSourceGenomeFromCode(BioSourceGenomeCode(x)) == Some(x)
  {
  }

  lemma BioSourceGenomeCodeInjective(x: BioSourceGenome, y: BioSourceGenome)
    ensures BioSourceGenomeCode(x) == BioSourceGenomeCode(y) ==> x == y
  {
    BioSourceGenomeRoundTrip(x);
    BioSourceGenomeRoundTrip(y);
  }

  /** `#[default]`: Unknown. */
  const DefaultBioSourceGenome: BioSourceGenome := BioSourceGenome.Unknown
  /** `BioSourceOrigin`. */
  datatype BioSourceOrigin = Unknown | Natural | NatMut | Mut | Artificial | Synthetic | Other

  /** The discriminant each variant serialises as. */
  function BioSourceOriginCode(x: BioSourceOrigin): (c: int)
    ensures -0x8000_0000_0000_0000 <= c < 0x8000_0000_0000_0000
    ensures 0 <= c <= 5 || c == 255
  {
    match x
    case Unknown => 0
    case Natural => 1
    case NatMut => 2
    case Mut => 3
    case Artificial => 4
    case Synthetic => 5
    case Other => 255
  }

  /** The variant with discriminant `c`, if there is one. */
  function BioSourceOriginFromCode(c: int): (r: Option<BioSourceOrigin>)
    ensures r.Some? <==> (0 <= c <= 5 || c == 255)
    ensures r.Some? ==> BioSourceOriginCode(r.value) == c
  {
    if c == 0 then Some(BioSourceOrigin.Unknown)
    else if c == 1 then Some(BioSourceOrigin.Natural)
    else if c == 2 then Some(BioSourceOrigin.NatMut)
    else if c == 3 then Some(BioSourceOrigin.Mut)
    else if c == 4 then Some(BioSourceOrigin.Artificial)
    else if c == 5 then Some(BioSourceOrigin.Synthetic)
    else if c == 255 then Some(BioSourceOrigin.Other)
    else None
  }

  /** Decoding the discriminant of a variant gives the variant back, so the codes are distinct. */
  lemma BioSourceOriginRoundTrip(x: BioSourceOrigin)
    ensures BioSourceOriginFromCode(BioSourceOriginCode(x)) == Some(x)
  {
  }

  lemma BioSourceOriginCodeInjective(x: BioSourceOrigin, y: BioSourceOrigin)
    ensures BioSourceOriginCode(x) == BioSourceOriginCode(y) ==> x == y
  {
    BioSourceOriginRoundTrip(x);
    BioSourceOriginRoundTrip(y);
  }

  /** `#[default]`: Unknown. */
  const DefaultBioSourceOrigin: BioSourceOrigin := BioSourceOrigin.Unknown
  /** `SubSourceSubType`: the kind of a source qualifier; the discriminants count on from Chromosome = 1. */
  datatype SubSourceSubType =
    | Chromosome
    | Map
    | Clone
    | Subclone
    | Haplotype
    | Genotype
    | Sex
    | CellLine
    | CellType
    | TissueType
    | CloneLib
    | DevStage
    | Frequency
    | Germline
    | Rearranged
    | LabHost
    | PopVariant
    | TissueLib
    | PlasmidName
    | TransposonName
    | InsertionSeqName
    | PlastidName
    | Country
    | Segment
    | EndogenousVirusName
    | Transgenic
    | EnvironmentalSample
    | IsolationSource
    | LatLon
    | CollectionDate
    | CollectedBy
    | IdentifiedBy
    | FwdPrimerSeq
    | RevPrimerSeq
    | FwdPrimerName
    | RevPrimerName
    | Metagenomic
    | MatingType
    | LinkageGroup
    | Haplogroup
    | WholeReplicon
    | Phenotype
    | Altitude
    | Other

  /** The discriminant each variant serialises as. */
  function SubSourceSubTypeCode(x: SubSourceSubType): (c: int)
    ensures -0x8000_0000_0000_0000 <= c < 0x8000_0000_0000_0000
    ensures 1 <= c <= 43 || c == 255
  {
    match x
    case Chromosome => 1
    case Map => 2
    case Clone => 3
    case Subclone => 4
    case Haplotype => 5
    case Genotype => 6
    case Sex => 7
    case CellLine => 8
    case CellType => 9
    case TissueType => 10
    case CloneLib => 11
    case DevStage => 12
    case Frequency => 13
    case Germline => 14
    case Rearranged => 15
    case LabHost => 16
    case PopVariant => 17
    case TissueLib => 18
    case PlasmidName => 19
    case TransposonName => 20
    case InsertionSeqName => 21
    case PlastidName => 22
    case Country => 23
    case Segment => 24
    case EndogenousVirusName => 25
    case Transgenic => 26
    case EnvironmentalSample => 27
    case IsolationSource => 28
    case LatLon => 29
    case CollectionDate => 30
    case CollectedBy => 31
    case IdentifiedBy => 32
    case FwdPrimerSeq => 33
    case RevPrimerSeq => 34
    case FwdPrimerName => 35
    case RevPrimerName => 36
    case Metagenomic => 37
    case MatingType => 38
    case LinkageGroup => 39
    case Haplogroup => 40
    case WholeReplicon => 41
    case Phenotype => 42
    case Altitude => 43
    case Other => 255
  }

  /** The variant with discriminant `c`, if there is one. */
  function SubSourceSubTypeFromCode(c: int): (r: Option<SubSourceSubType>)
    ensures r.Some? <==> (1 <= c <= 43 || c == 255)
    ensures r.Some? ==> SubSourceSubTypeCode(r.value) == c
  {
    if c < 11 then SubSourceSubTypeFromCode0(c)
    else if c < 21 then SubSourceSubTypeFromCode1(c)
    else if c < 31 then SubSourceSubTypeFromCode2(c)
    else if c < 41 then SubSourceSubTypeFromCode3(c)
    else SubSourceSubTypeFromCode4(c)
  }

  function SubSourceSubTypeFromCode0(c: int): (r: Option<SubSourceSubType>)
    ensures r.Some? <==> (1 <= c <= 10)
    ensures r.Some? ==> SubSourceSubTypeCode(r.value) == c
  {
    if c == 1 then Some(SubSourceSubType.Chromosome)
    else if c == 2 then Some(SubSourceSubType.Map)
    else if c == 3 then Some(SubSourceSubType.Clone)
    else if c == 4 then Some(SubSourceSubType.Subclone)
    else if c == 5 then Some(SubSourceSubType.Haplotype)
    else if c == 6 then Some(SubSourceSubType.Genotype)
    else if c == 7 then Some(SubSourceSubType.Sex)
    else if c == 8 then Some(SubSourceSubType.CellLine)
    else if c == 9 then Some(SubSourceSubType.CellType)
    else if c == 10 then Some(SubSourceSubType.TissueType)
    else None
  }

  function SubSourceSubTypeFromCode1(c: int): (r: Option<SubSourceSubType>)
    ensures r.Some? <==> (11 <= c <= 20)
    ensures r.Some? ==> SubSourceSubTypeCode(r.value) == c
  {
    if c == 11 then Some(SubSourceSubType.CloneLib)
    else if c == 12 then Some(SubSourceSubType.DevStage)
    else if c == 13 then Some(SubSourceSubType.Frequency)
    else if c == 14 then Some(SubSourceSubType.Germline)
    else if c == 15 then Some(SubSourceSubType.Rearranged)
    else if c == 16 then Some(SubSourceSubType.LabHost)
    else if c == 17 then Some(SubSourceSubType.PopVariant)
    else if c == 18 then Some(SubSourceSubType.TissueLib)
    else if c == 19 then Some(SubSourceSubType.PlasmidName)
    else if c == 20 then Some(SubSourceSubType.TransposonName)
    else None
  }

  function SubSourceSubTypeFromCode2(c: int): (r: Option<SubSourceSubType>)
    ensures r.Some? <==> (21 <= c <= 30)
    ensures r.Some? ==> SubSourceSubTypeCode(r.value) == c
  {
    if c == 21 then Some(SubSourceSubType.InsertionSeqName)
    else if c == 22 then Some(SubSourceSubType.PlastidName)
    else if c == 23 then Some(SubSourceSubType.Country)
    else if c == 24 then Some(SubSourceSubType.Segment)
    else if c == 25 then Some(SubSourceSubType.EndogenousVirusName)
    else if c == 26 then Some(SubSourceSubType.Transgenic)
    else if c == 27 then Some(SubSourceSubType.EnvironmentalSample)
    else if c == 28 then Some(SubSourceSubType.IsolationSource)
    else if c == 29 then Some(SubSourceSubType.LatLon)
    else if c == 30 then Some(SubSourceSubType.CollectionDate)
    else None
  }

  function SubSourceSubTypeFromCode3(c: int): (r: Option<SubSourceSubType>)
    ensures r.Some? <==> (31 <= c <= 40)
    ensures r.Some? ==> SubSourceSubTypeCode(r.value) == c
  {
    if c == 31 then Some(SubSourceSubType.CollectedBy)
    else if c == 32 then Some(SubSourceSubType.IdentifiedBy)
    else if c == 33 then Some(SubSourceSubType.FwdPrimerSeq)
    else if c == 34 then Some(SubSourceSubType.RevPrimerSeq)
    else if c == 35 then Some(SubSourceSubType.FwdPrimerName)
    else if c == 36 then Some(SubSourceSubType.RevPrimerName)
    else if c == 37 then Some(SubSourceSubType.Metagenomic)
    else if c == 38 then Some(SubSourceSubType.MatingType)
    else if c == 39 then Some(SubSourceSubType.LinkageGroup)
    else if c == 40 then Some(SubSourceSubType.Haplogroup)
    else None
  }

  function SubSourceSubTypeFromCode4(c: int): (r: Option<SubSourceSubType>)
    ensures r.Some? <==> (41 <= c <= 43 || c == 255)
    ensures r.Some? ==> SubSourceSubTypeCode(r.value) == c
  {
    if c == 41 then Some(SubSourceSubType.WholeReplicon)
    else if c == 42 then Some(SubSourceSubType.Phenotype)
    else if c == 43 then Some(SubSourceSubType.Altitude)
    else if c == 255 then Some(SubSourceSubType.Other)
    else None
  }

  /** Decoding the discriminant of a variant gives the variant back, so the codes are distinct. */
  lemma SubSourceSubTypeRoundTrip(x: SubSourceSubType)
    ensures SubSourceSubTypeFromCode(SubSourceSubTypeCode(x)) == Some(x)
  {
  }

  lemma SubSourceSubTypeCodeInjective(x: SubSourceSubType, y: SubSourceSubType)
    ensures SubSourceSubTypeCode(x) == SubSourceSubTypeCode(y) ==> x == y
  {
    SubSourceSubTypeRoundTrip(x);
    SubSourceSubTypeRoundTrip(y);
  }
  /** `ProtRefProcessingStatus`. */
  datatype ProtRefProcessingStatus =
    | NotSet
    | PreProtein
    | Mature
    | SignalPeptide
    | TransitPeptide
    | ProPeptide

  /** The discriminant each variant serialises as. */
  function ProtRefProcessingStatusCode(x: ProtRefProcessingStatus): (c: int)
    ensures -0x8000_0000_0000_0000 <= c < 0x8000_0000_0000_0000
    ensures 0 <= c <= 5
  {
    match x
    case NotSet => 0
    case PreProtein => 1
    case Mature => 2
    case SignalPeptide => 3
    case TransitPeptide => 4
    case ProPeptide => 5
  }

  /** The variant with discriminant `c`, if there is one. */
  function ProtRefProcessingStatusFromCode(c: int): (r: Option<ProtRefProcessingStatus>)
    ensures r.Some? <==> (0 <= c <= 5)
    ensures r.Some? ==> ProtRefProcessingStatusCode(r.value) == c
  {
    if c == 0 then Some(ProtRefProcessingStatus.NotSet)
    else if c == 1 then Some(ProtRefProcessingStatus.PreProtein)
    else if c == 2 then Some(ProtRefProcessingStatus.Mature)
    else if c == 3 then Some(ProtRefProcessingStatus.SignalPeptide)
    else if c == 4 then Some(ProtRefProcessingStatus.TransitPeptide)
    else if c == 5 then Some(ProtRefProcessingStatus.ProPeptide)
    else None
  }

  /** Decoding the discriminant of a variant gives the variant back, so the codes are distinct. */
  lemma ProtRefProcessingStatusRoundTrip(x: ProtRefProcessingStatus)
    ensures ProtRefProcessingStatusFromCode(ProtRefProcessingStatusCode(x)) == Some(x)
  {
  }

  lemma ProtRefProcessingStatusCodeInjective(x: ProtRefProcessingStatus, y: ProtRefProcessingStatus)
    ensures ProtRefProcessingStatusCode(x) == ProtRefProcessingStatusCode(y) ==> x == y
  {
    ProtRefProcessingStatusRoundTrip(x);
    ProtRefProcessingStatusRoundTrip(y);
  }

  /** `#[default]`: NotSet. */
  const DefaultProtRefProcessingStatus: ProtRefProcessingStatus := ProtRefProcessingStatus.NotSet
  /** `Txsystem`: the transcription system. */
  datatype Txsystem = Unknown | Pol1 | Pol2 | Pol3 | Bacterial | Viral | Rna | Organelle | Other

  /** The discriminant each variant serialises as. */
  function TxsystemCode(x: Txsystem): (c: int)
    ensures -0x8000_0000_0000_0000 <= c < 0x8000_0000_0000_0000
    ensures 0 <= c <= 7 || c == 255
  {
    match x
    case Unknown => 0
    case Pol1 => 1
    case Pol2 => 2
    case Pol3 => 3
    case Bacterial => 4
    case Viral => 5
    case Rna => 6
    case Organelle => 7
    case Other => 255
  }

  /** The variant with discriminant `c`, if there is one. */
  function TxsystemFromCode(c: int): (r: Option<Txsystem>)
    ensures r.Some? <==> (0 <= c <= 7 || c == 255)
    ensures r.Some? ==> TxsystemCode(r.value) == c
  {
    if c == 0 then Some(Txsystem.Unknown)
    else if c == 1 then Some(Txsystem.Pol1)
    else if c == 2 then Some(Txsystem.Pol2)
    else if c == 3 then Some(Txsystem.Pol3)
    else if c == 4 then Some(Txsystem.Bacterial)
    else if c == 5 then Some(Txsystem.Viral)
    else if c == 6 then Some(Txsystem.Rna)
    else if c == 7 then Some(Txsystem.Organelle)
    else if c == 255 then Some(Txsystem.Other)
    else None
  }

  /** Decoding the discriminant of a variant gives the variant back, so the codes are distinct. */
  lemma TxsystemRoundTrip(x: Txsystem)
    ensures TxsystemFromCode(TxsystemCode(x)) == Some(x)
  {
  }

  lemma TxsystemCodeInjective(x: Txsystem, y: Txsystem)
    ensures TxsystemCode(x) == TxsystemCode(y) ==> x == y
  {
    TxsystemRoundTrip(x);
    TxsystemRoundTrip(y);
  }
  /** `InitType`. */
  datatype InitType = Unknown | Single | Multiple | Region

  /** The discriminant each variant serialises as. */
  function InitTypeCode(x: InitType): (c: int)
    ensures -0x8000_0000_0000_0000 <= c < 0x8000_0000_0000_0000
    ensures 0 <= c <= 3
  {
    match x
    case Unknown => 0
    case Single => 1
    case Multiple => 2
    case Region => 3
  }

  /** The variant with discriminant `c`, if there is one. */
  function InitTypeFromCode(c: int): (r: Option<InitType>)
    ensures r.Some? <==> (0 <= c <= 3)
    ensures r.Some? ==> InitTypeCode(r.value) == c
  {
    if c == 0 then Some(InitType.Unknown)
    else if c == 1 then Some(InitType.Single)
    else if c == 2 then Some(InitType.Multiple)
    else if c == 3 then Some(InitType.Region)
    else None
  }

  /** Decoding the discriminant of a variant gives the variant back, so the codes are distinct. */
  lemma InitTypeRoundTrip(x: InitType)
    ensures InitTypeFromCode(InitTypeCode(x)) == Some(x)
  {
  }

  lemma InitTypeCodeInjective(x: InitType, y: InitType)
    ensures InitTypeCode(x) == InitTypeCode(y) ==> x == y
  {
    InitTypeRoundTrip(x);
    InitTypeRoundTrip(y);
  }
  /** `TxEvidenceExpCode`. */
  datatype TxEvidenceExpCode =
    | Unknown
    | RnaSeq
    | RnaSize
    | NpMap
    | NpSize
    | PeSeq
    | CDnaSeq
    | PeMap
    | PeSize
    | PseudoSeq
    | RevPeMap
    | Other

  /** The discriminant each variant serialises as. */
  function TxEvidenceExpCodeCode(x: TxEvidenceExpCode): (c: int)
    ensures -0x8000_0000_0000_0000 <= c < 0x8000_0000_0000_0000
    ensures 0 <= c <= 10 || c == 255
  {
    match x
    case Unknown => 0
    case RnaSeq => 1
    case RnaSize => 2
    case NpMap => 3
    case NpSize => 4
    case PeSeq => 5
    case CDnaSeq => 6
    case PeMap => 7
    case PeSize => 8
    case PseudoSeq => 9
    case RevPeMap => 10
    case Other => 255
  }

  /** The variant with discriminant `c`, if there is one. */
  function TxEvidenceExpCodeFromCode(c: int): (r: Option<TxEvidenceExpCode>)
    ensures r.Some? <==> (0 <= c <= 10 || c == 255)
    ensures r.Some? ==> TxEvidenceExpCodeCode(r.value) == c
  {
    if c == 0 then Some(TxEvidenceExpCode.Unknown)
    else if c == 1 then Some(TxEvidenceExpCode.RnaSeq)
    else if c == 2 then Some(TxEvidenceExpCode.RnaSize)
    else if c == 3 then Some(TxEvidenceExpCode.NpMap)
    else if c == 4 then Some(TxEvidenceExpCode.NpSize)
    else if c == 5 then Some(TxEvidenceExpCode.PeSeq)
    else if c == 6 then Some(TxEvidenceExpCode.CDnaSeq)
    else if c == 7 then Some(TxEvidenceExpCode.PeMap)
    else if c == 8 then Some(TxEvidenceExpCode.PeSize)
    else if c == 9 then Some(TxEvidenceExpCode.PseudoSeq)
    else if c == 10 then Some(TxEvidenceExpCode.RevPeMap)
    else if c == 255 then Some(TxEvidenceExpCode.Other)
    else None
  }

  /** Decoding the discriminant of a variant gives the variant back, so the codes are distinct. */
  lemma TxEvidenceExpCodeRoundTrip(x: TxEvidenceExpCode)
    ensures TxEvidenceExpCodeFromCode(TxEvidenceExpCodeCode(x)) == Some(x)
  {
  }

  lemma TxEvidenceExpCodeCodeInjective(x: TxEvidenceExpCode, y: TxEvidenceExpCode)
    ensures TxEvidenceExpCodeCode(x) == TxEvidenceExpCodeCode(y) ==> x == y
  {
    TxEvidenceExpCodeRoundTrip(x);
    TxEvidenceExpCodeRoundTrip(y);
  }
  /** `TxEvidenceExpressionSystem`. */
  datatype TxEvidenceExpressionSystem =
    | Unknown
    | Physiological
    | InVitro
    | Oocyte
    | Transfection
    | Transgenic
    | Other

  /** The discriminant each variant serialises as. */
  function TxEvidenceExpressionSystemCode(x: TxEvidenceExpressionSystem): (c: int)
    ensures -0x8000_0000_0000_0000 <= c < 0x8000_0000_0000_0000
    ensures 0 <= c <= 5 || c == 255
  {
    match x
    case Unknown => 0
    case Physiological => 1
    case InVitro => 2
    case Oocyte => 3
    case Transfection => 4
    case Transgenic => 5
    case Other => 255
  }

  /** The variant with discriminant `c`, if there is one. */
  function TxEvidenceExpressionSystemFromCode(c: int): (r: Option<TxEvidenceExpressionSystem>)
    ensures r.Some? <==> (0 <= c <= 5 || c == 255)
    ensures r.Some? ==> TxEvidenceExpressionSystemCode(r.value) == c
  {
    if c == 0 then Some(TxEvidenceExpressionSystem.Unknown)
    else if c == 1 then Some(TxEvidenceExpressionSystem.Physiological)
    else if c == 2 then Some(TxEvidenceExpressionSystem.InVitro)
    else if c == 3 then Some(TxEvidenceExpressionSystem.Oocyte)
    else if c == 4 then Some(TxEvidenceExpressionSystem.Transfection)
    else if c == 5 then Some(TxEvidenceExpressionSystem.Transgenic)
    else if c == 255 then Some(TxEvidenceExpressionSystem.Other)
    else None
  }

  /** Decoding the discriminant of a variant gives the variant back, so the codes are distinct. */
  lemma TxEvidenceExpressionSystemRoundTrip(x: TxEvidenceExpressionSystem)
    ensures TxEvidenceExpressionSystemFromCode(TxEvidenceExpressionSystemCode(x)) == Some(x)
  {
  }

  lemma TxEvidenceExpressionSystemCodeInjective(x: TxEvidenceExpressionSystem, y: TxEvidenceExpressionSystem)
    ensures TxEvidenceExpressionSystemCode(x) == TxEvidenceExpressionSystemCode(y) ==> x == y
  {
    TxEvidenceExpressionSystemRoundTrip(x);
    TxEvidenceExpressionSystemRoundTrip(y);
  }

  /** `#[default]`: Physiological, the second variant. */
  const DefaultTxEvidenceExpressionSystem: TxEvidenceExpressionSystem := TxEvidenceExpressionSystem.Physiological

  /** Each VariantResourceLink flag is a single bit. */
  lemma VariantResourceLinkBits(x: VariantResourceLink)
    ensures IsPowerOfTwo(VariantResourceLinkCode(x))
  {
    match x
    case Preserved => Pow2IsPowerOfTwo(0);
    case Provisional => Pow2IsPowerOfTwo(1);
    case Has3D => Pow2IsPowerOfTwo(2);
    case SubmitterLinkout => Pow2IsPowerOfTwo(3);
    case Clinical => Pow2IsPowerOfTwo(4);
    case GenotypeKit => Pow2IsPowerOfTwo(5);
  }

  /** Each VariantGeneLocation flag is a single bit. */
  lemma VariantGeneLocationBits(x: VariantGeneLocation)
    ensures IsPowerOfTwo(VariantGeneLocationCode(x))
  {
    match x
    case InGene => Pow2IsPowerOfTwo(0);
    case NearGene5 => Pow2IsPowerOfTwo(1);
    case NearGene3 => Pow2IsPowerOfTwo(2);
    case Intron => Pow2IsPowerOfTwo(3);
    case Donor => Pow2IsPowerOfTwo(4);
    case Acceptor => Pow2IsPowerOfTwo(5);
    case UTR5 => Pow2IsPowerOfTwo(6);
    case UTR3 => Pow2IsPowerOfTwo(7);
    case InStartCodon => Pow2IsPowerOfTwo(8);
    case InStopCodon => Pow2IsPowerOfTwo(9);
    case Intergenic => Pow2IsPowerOfTwo(10);
    case ConservedNonCoding => Pow2IsPowerOfTwo(11);
  }

  /** Each VariantEffect flag other than NoChange is a single bit, and NoChange is no bit. */
  lemma VariantEffectBits(x: VariantEffect)
    ensures x != VariantEffect.NoChange ==> IsPowerOfTwo(VariantEffectCode(x))
    ensures x == VariantEffect.NoChange <==> VariantEffectCode(x) == 0
  {
    match x
    case NoChange =>
    case Synonymous => Pow2IsPowerOfTwo(0);
    case Nonsense => Pow2IsPowerOfTwo(1);
    case Missense => Pow2IsPowerOfTwo(2);
    case Frameshift => Pow2IsPowerOfTwo(3);
    case UpRegulator => Pow2IsPowerOfTwo(4);
    case DownRegulator => Pow2IsPowerOfTwo(5);
    case Methylation => Pow2IsPowerOfTwo(6);
    case StopGain => Pow2IsPowerOfTwo(7);
    case StopLose => Pow2IsPowerOfTwo(8);
  }

  /** Each VariantMapping flag is a single bit. */
  lemma VariantMappingBits(x: VariantMapping)
    ensures IsPowerOfTwo(VariantMappingCode(x))
  {
    match x
    case HasOtherSNP => Pow2IsPowerOfTwo(0);
    case HasAssemblyConflict => Pow2IsPowerOfTwo(1);
    case IsAssemblySpecific => Pow2IsPowerOfTwo(2);
  }

  /** Each PopulationDataFlags flag is a single bit. */
  lemma PopulationDataFlagsBits(x: PopulationDataFlags)
    ensures IsPowerOfTwo(PopulationDataFlagsCode(x))
  {
    match x
    case IsDefaultPopulation => Pow2IsPowerOfTwo(0);
    case IsMinorAllele => Pow2IsPowerOfTwo(1);
    case IsRareAllele => Pow2IsPowerOfTwo(2);
  }

  // The discriminant of VariantAlleleOrigin::Other.

  /** As declared, `Other` is neither a single bit nor a 32-bit value. */
  lemma AlleleOriginOtherAsWritten()
    ensures !IsPowerOfTwo(VariantAlleleOriginCode(VariantAlleleOrigin.Other))
    ensures VariantAlleleOriginCode(VariantAlleleOrigin.Other) > 0xFFFF_FFFF
  {
    var n := 10732741824;
    assert n == 64 * 167699091;
    assert !IsPowerOfTwo(167699091);
    assert !IsPowerOfTwo(2 * 167699091);
    assert !IsPowerOfTwo(4 * 167699091);
    assert !IsPowerOfTwo(8 * 167699091);
    assert !IsPowerOfTwo(16 * 167699091);
    assert !IsPowerOfTwo(32 * 167699091);
  }

  /** The discriminants with `Other` as bit 30, 1073741824, the value in the NCBI specification. */
  function VariantAlleleOriginIntendedCode(x: VariantAlleleOrigin): (c: int)
    ensures x != VariantAlleleOrigin.Other ==> c == VariantAlleleOriginCode(x)
    ensures 0 <= c < 0x8000_0000
  {
    if x == VariantAlleleOrigin.Other then 1073741824 else VariantAlleleOriginCode(x)
  }

  /** The flags declared as bits 0 to 10 are single bits. */
  lemma AlleleOriginDeclaredBits(x: VariantAlleleOrigin)
    requires x != VariantAlleleOrigin.Unknown && x != VariantAlleleOrigin.Other
    ensures IsPowerOfTwo(VariantAlleleOriginCode(x))
  {
    match x
    case Germline => Pow2IsPowerOfTwo(0);
    case Somatic => Pow2IsPowerOfTwo(1);
    case Inherited => Pow2IsPowerOfTwo(2);
    case Paternal => Pow2IsPowerOfTwo(3);
    case Maternal => Pow2IsPowerOfTwo(4);
    case DeNovo => Pow2IsPowerOfTwo(5);
    case Biparental => Pow2IsPowerOfTwo(6);
    case Uniparental => Pow2IsPowerOfTwo(7);
    case NotTested => Pow2IsPowerOfTwo(8);
    case TestedInconclusive => Pow2IsPowerOfTwo(9);
    case NotReported => Pow2IsPowerOfTwo(10);
  }

  /** With the intended value every flag but Unknown is a single bit. */
  lemma AlleleOriginIntendedBits(x: VariantAlleleOrigin)
    ensures x != VariantAlleleOrigin.Unknown ==> IsPowerOfTwo(VariantAlleleOriginIntendedCode(x))
    ensures x == VariantAlleleOrigin.Unknown <==> VariantAlleleOriginIntendedCode(x) == 0
  {
    if x == VariantAlleleOrigin.Other {
      Pow2IsPowerOfTwo(30);
      Pow2Thirty();
    } else if x != VariantAlleleOrigin.Unknown {
      AlleleOriginDeclaredBits(x);
    }
  }

  lemma Pow2Thirty()
    ensures Pow2(30) == 1073741824
  {
    assert Pow2(10) == 1024;
    Pow2Shift(10, 10);
    Pow2Shift(20, 10);
  }

  lemma {:induction false} Pow2Shift(a: nat, b: nat)
    ensures Pow2(a + b) == Pow2(b) * Pow2(a)
    decreases b
  {
    if b > 0 {
      Pow2Shift(a, b - 1);
      assert Pow2(a + b) == 2 * Pow2(a + b - 1);
    }
  }

  /** With the intended value the discriminants are still distinct. */
  lemma AlleleOriginIntendedInjective(x: VariantAlleleOrigin, y: VariantAlleleOrigin)
    ensures VariantAlleleOriginIntendedCode(x) == VariantAlleleOriginIntendedCode(y) ==> x == y
  {
    VariantAlleleOriginCodeInjective(x, y);
  }


  /** `OrgMod`: an organism modifier. */
  datatype OrgMod = OrgMod(subtype: OrgModSubType, subname: string, attrib: Option<string>)

  /** `SubSource`: a source qualifier. */
  datatype SubSource = SubSource(subtype: SubSourceSubType, name: string, attrib: Option<string>)

  /** `TaxElement`. */
  datatype TaxElement = TaxElement(fixedLevel: TaxElementFixedLevel, level: Option<string>, name: string)

  /** `TxEvidence`; the two flags are plain `bool`s, so they default to false. */
  datatype TxEvidence = TxEvidence(expCode: TxEvidenceExpCode, expressionSystem: TxEvidenceExpressionSystem, lowPrecData: bool, fromHomolog: bool)
}
