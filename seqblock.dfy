/**
 * Database-specific blocks of `src/asn/seqblock.rs` (NCBI seqblock.asn):
 * the EMBL, SWISS-PROT, PIR, GenBank, PRF and PDB descriptors. Its four
 * enumerations are `#[repr(u8)]` and serialise as their discriminants.
 */
module SeqBlock {
  import opened Wrappers
  import opened General
  import SeqLoc

  /** `EMBLDbNameCode`: a database known to EMBL cross references. */
  datatype EMBLDbNameCode =
    | EMBL
    | GenBank
    | DDBJ
    | GenInfo
    | MedLine
    | SWISSPROT
    | PIR
    | PDB
    | EPD
    | ECD
    | TFD
    | FlyBase
    | ProSite
    | Enzyme
    | MIM
    | EcoSeq
    | HIV
    | Other

  /** The discriminant each variant serialises as. */
  function EMBLDbNameCodeCode(x: EMBLDbNameCode): (c: int)
    ensures 0 <= c < 256
    ensures 0 <= c <= 16 || c == 255
  {
    match x
    case EMBL => 0
    case GenBank => 1
    case DDBJ => 2
    case GenInfo => 3
    case MedLine => 4
    case SWISSPROT => 5
    case PIR => 6
    case PDB => 7
    case EPD => 8
    case ECD => 9
    case TFD => 10
    case FlyBase => 11
    case ProSite => 12
    case Enzyme => 13
    case MIM => 14
    case EcoSeq => 15
    case HIV => 16
    case Other => 255
  }

  /** The variant with discriminant `c`, if there is one. */
  function EMBLDbNameCodeFromCode(c: int): (r: Option<EMBLDbNameCode>)
    ensures r.Some? <==> (0 <= c <= 16 || c == 255)
    ensures r.Some? ==> EMBLDbNameCodeCode(r.value) == c
  {
    if c == 0 then Some(EMBLDbNameCode.EMBL)
    else if c == 1 then Some(EMBLDbNameCode.GenBank)
    else if c == 2 then Some(EMBLDbNameCode.DDBJ)
    else if c == 3 then Some(EMBLDbNameCode.GenInfo)
    else if c == 4 then Some(EMBLDbNameCode.MedLine)
    else if c == 5 then Some(EMBLDbNameCode.SWISSPROT)
    else if c == 6 then Some(EMBLDbNameCode.PIR)
    else if c == 7 then Some(EMBLDbNameCode.PDB)
    else if c == 8 then Some(EMBLDbNameCode.EPD)
    else if c == 9 then Some(EMBLDbNameCode.ECD)
    else if c == 10 then Some(EMBLDbNameCode.TFD)
    else if c == 11 then Some(EMBLDbNameCode.FlyBase)
    else if c == 12 then Some(EMBLDbNameCode.ProSite)
    else if c == 13 then Some(EMBLDbNameCode.Enzyme)
    else if c == 14 then Some(EMBLDbNameCode.MIM)
    else if c == 15 then Some(EMBLDbNameCode.EcoSeq)
    else if c == 16 then Some(EMBLDbNameCode.HIV)
    else if c == 255 then Some(EMBLDbNameCode.Other)
    else None
  }

  /** Decoding the discriminant of a variant gives the variant back, so the codes are distinct. */
  lemma EMBLDbNameCodeRoundTrip(x: EMBLDbNameCode)
    ensures EMBLDbNameCodeFromCode(EMBLDbNameCodeCode(x)) == Some(x)
  {
  }

  lemma EMBLDbNameCodeCodeInjective(x: EMBLDbNameCode, y: EMBLDbNameCode)
    ensures EMBLDbNameCodeCode(x) == EMBLDbNameCodeCode(y) ==> x == y
  {
    EMBLDbNameCodeRoundTrip(x);
    EMBLDbNameCodeRoundTrip(y);
  }

  /** `EMBLDbName`: exactly one of a known database code or a free name. */
  datatype EMBLDbName = Code(code: EMBLDbNameCode) | Name(name: string)

  /** `EMBLXref`. */
  datatype EMBLXref = EMBLXref(dbname: EMBLDbName, id: seq<ObjectId>)

  /** `EMBLBlockClass`: the class of an EMBL entry. */
  datatype EMBLBlockClass =
    | NotSet
    | Standard
    | Unannotated
    | Other

  /** The discriminant each variant serialises as. */
  function EMBLBlockClassCode(x: EMBLBlockClass): (c: int)
    ensures 0 <= c < 256
    ensures 0 <= c <= 2 || c == 255
  {
    match x
    case NotSet => 0
    case Standard => 1
    case Unannotated => 2
    case Other => 255
  }

  /** The variant with discriminant `c`, if there is one. */
  function EMBLBlockClassFromCode(c: int): (r: Option<EMBLBlockClass>)
    ensures r.Some? <==> (0 <= c <= 2 || c == 255)
    ensures r.Some? ==> EMBLBlockClassCode(r.value) == c
  {
    if c == 0 then Some(EMBLBlockClass.NotSet)
    else if c == 1 then Some(EMBLBlockClass.Standard)
    else if c == 2 then Some(EMBLBlockClass.Unannotated)
    else if c == 255 then Some(EMBLBlockClass.Other)
    else None
  }

  /** Decoding the discriminant of a variant gives the variant back, so the codes are distinct. */
  lemma EMBLBlockClassRoundTrip(x: EMBLBlockClass)
    ensures EMBLBlockClassFromCode(EMBLBlockClassCode(x)) == Some(x)
  {
  }

  lemma EMBLBlockClassCodeInjective(x: EMBLBlockClass, y: EMBLBlockClass)
    ensures EMBLBlockClassCode(x) == EMBLBlockClassCode(y) ==> x == y
  {
    EMBLBlockClassRoundTrip(x);
    EMBLBlockClassRoundTrip(y);
  }

  /** `#[default]`: Standard. */
  const DefaultEMBLBlockClass: EMBLBlockClass := EMBLBlockClass.Standard

  /** `EMBLBlockDiv`: the EMBL division of an entry. */
  datatype EMBLBlockDiv =
    | Fun
    | Inv
    | Mam
    | Org
    | Pln
    | Pri
    | Pro
    | Rod
    | Syn
    | Una
    | Vrl
    | Vrt
    | Pat
    | Est
    | STS
    | Other

  /** The discriminant each variant serialises as. */
  function EMBLBlockDivCode(x: EMBLBlockDiv): (c: int)
    ensures 0 <= c < 256
    ensures 0 <= c <= 14 || c == 255
  {
    match x
    case Fun => 0
    case Inv => 1
    case Mam => 2
    case Org => 3
    case Pln => 4
    case Pri => 5
    case Pro => 6
    case Rod => 7
    case Syn => 8
    case Una => 9
    case Vrl => 10
    case Vrt => 11
    case Pat => 12
    case Est => 13
    case STS => 14
    case Other => 255
  }

  /** The variant with discriminant `c`, if there is one. */
  function EMBLBlockDivFromCode(c: int): (r: Option<EMBLBlockDiv>)
    ensures r.Some? <==> (0 <= c <= 14 || c == 255)
    ensures r.Some? ==> EMBLBlockDivCode(r.value) == c
  {
    if c == 0 then Some(EMBLBlockDiv.Fun)
    else if c == 1 then Some(EMBLBlockDiv.Inv)
    else if c == 2 then Some(EMBLBlockDiv.Mam)
    else if c == 3 then Some(EMBLBlockDiv.Org)
    else if c == 4 then Some(EMBLBlockDiv.Pln)
    else if c == 5 then Some(EMBLBlockDiv.Pri)
    else if c == 6 then Some(EMBLBlockDiv.Pro)
    else if c == 7 then Some(EMBLBlockDiv.Rod)
    else if c == 8 then Some(EMBLBlockDiv.Syn)
    else if c == 9 then Some(EMBLBlockDiv.Una)
    else if c == 10 then Some(EMBLBlockDiv.Vrl)
    else if c == 11 then Some(EMBLBlockDiv.Vrt)
    else if c == 12 then Some(EMBLBlockDiv.Pat)
    else if c == 13 then Some(EMBLBlockDiv.Est)
    else if c == 14 then Some(EMBLBlockDiv.STS)
    else if c == 255 then Some(EMBLBlockDiv.Other)
    else None
  }

  /** Decoding the discriminant of a variant gives the variant back, so the codes are distinct. */
  lemma EMBLBlockDivRoundTrip(x: EMBLBlockDiv)
    ensures EMBLBlockDivFromCode(EMBLBlockDivCode(x)) == Some(x)
  {
  }

  lemma EMBLBlockDivCodeInjective(x: EMBLBlockDiv, y: EMBLBlockDiv)
    ensures EMBLBlockDivCode(x) == EMBLBlockDivCode(y) ==> x == y
  {
    EMBLBlockDivRoundTrip(x);
    EMBLBlockDivRoundTrip(y);
  }

  /** `EMBLBlock`. */
  datatype EMBLBlock = EMBLBlock(
    blockClass: EMBLBlockClass,
    div: EMBLBlockDiv,
    creationDate: Date,
    updateDate: Date,
    extraAcc: Option<seq<string>>,
    keywords: Option<seq<string>>,
    xref: Option<seq<EMBLXref>>)

  /** `SPBlockClass`: how thoroughly a SWISS-PROT entry was checked. */
  datatype SPBlockClass =
    | NotSet
    | Standard
    | Prelim
    | Other

  /** The discriminant each variant serialises as. */
  function SPBlockClassCode(x: SPBlockClass): (c: int)
    ensures 0 <= c < 256
    ensures 0 <= c <= 2 || c == 255
  {
    match x
    case NotSet => 0
    case Standard => 1
    case Prelim => 2
    case Other => 255
  }

  /** The variant with discriminant `c`, if there is one. */
  function SPBlockClassFromCode(c: int): (r: Option<SPBlockClass>)
    ensures r.Some? <==> (0 <= c <= 2 || c == 255)
    ensures r.Some? ==> SPBlockClassCode(r.value) == c
  {
    if c == 0 then Some(SPBlockClass.NotSet)
    else if c == 1 then Some(SPBlockClass.Standard)
    else if c == 2 then Some(SPBlockClass.Prelim)
    else if c == 255 then Some(SPBlockClass.Other)
    else None
  }

  /** Decoding the discriminant of a variant gives the variant back, so the codes are distinct. */
  lemma SPBlockClassRoundTrip(x: SPBlockClass)
    ensures SPBlockClassFromCode(SPBlockClassCode(x)) == Some(x)
  {
  }

  lemma SPBlockClassCodeInjective(x: SPBlockClass, y: SPBlockClass)
    ensures SPBlockClassCode(x) == SPBlockClassCode(y) ==> x == y
  {
    SPBlockClassRoundTrip(x);
    SPBlockClassRoundTrip(y);
  }

  /** `SPBlock`; `imeth` is a plain `bool`. */
  datatype SPBlock = SPBlock(
    spClass: SPBlockClass,
    extraAcc: Option<seq<string>>,
    imeth: bool,
    plasnm: Option<seq<string>>,
    seqref: Option<seq<SeqLoc.SeqId>>,
    dbref: Option<seq<DbTag>>,
    keywords: Option<seq<string>>,
    created: Option<Date>,
    sequpd: Option<Date>,
    annotupd: Option<Date>)

  /** `PDBReplace`. */
  datatype PDBReplace = PDBReplace(date: Date, ids: seq<string>)

  /** `PDBBlock`: `exp_method` is present only when the structure is not from X-ray diffraction. */
  datatype PDBBlock = PDBBlock(
    deposition: Date,
    pdbClass: string,
    compound: seq<string>,
    source: seq<string>,
    expMethod: Option<string>,
    replace: Option<PDBReplace>)
}
