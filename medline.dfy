/**
 * MEDLINE records of `src/asn/medline.rs` (NCBI medline.asn): the entry,
 * its MeSH terms, substances, cross references and extra fields, with
 * list-valued collections.
 */
module Medline {
  import opened Wrappers
  import opened General
  import Biblio

  /** `MedlineEntryStatus`: discriminants start at 1 (no `repr`). */
  datatype MedlineEntryStatus =
    | Publisher
    | PreMedline
    | Medline

  /** The discriminant each variant serialises as. */
  function MedlineEntryStatusCode(x: MedlineEntryStatus): (c: int)
    ensures 1 <= c <= 3
  {
    match x
    case Publisher => 1
    case PreMedline => 2
    case Medline => 3
  }

  /** The variant with discriminant `c`, if there is one. */
  function MedlineEntryStatusFromCode(c: int): (r: Option<MedlineEntryStatus>)
    ensures r.Some? <==> (1 <= c <= 3)
    ensures r.Some? ==> MedlineEntryStatusCode(r.value) == c
  {
    if c == 1 then Some(MedlineEntryStatus.Publisher)
    else if c == 2 then Some(MedlineEntryStatus.PreMedline)
    else if c == 3 then Some(MedlineEntryStatus.Medline)
    else None
  }

  /** Decoding the discriminant of a variant gives the variant back, so the codes are distinct. */
  lemma MedlineEntryStatusRoundTrip(x: MedlineEntryStatus)
    ensures MedlineEntryStatusFromCode(MedlineEntryStatusCode(x)) == Some(x)
  {
  }

  lemma MedlineEntryStatusCodeInjective(x: MedlineEntryStatus, y: MedlineEntryStatus)
    ensures MedlineEntryStatusCode(x) == MedlineEntryStatusCode(y) ==> x == y
  {
    MedlineEntryStatusRoundTrip(x);
    MedlineEntryStatusRoundTrip(y);
  }

  /** `#[default]`: Medline. */
  const DefaultMedlineEntryStatus: MedlineEntryStatus := MedlineEntryStatus.Medline

  /** `MedlineQual`: a MeSH subheading, flagged when it is a main point. */
  datatype MedlineQual = MedlineQual(mp: bool, subh: string)

  /** `MedlineMesh`: a MeSH term with its qualifiers. */
  datatype MedlineMesh = MedlineMesh(mp: bool, term: string, qual: Option<seq<MedlineQual>>)

  /** `MedlineSiType`: the database of a cross reference; discriminants start at 1. */
  datatype MedlineSiType =
    | DDBJ
    | CarbBank
    | EMBL
    | HDB
    | GenBank
    | HGML
    | MIM
    | MSD
    | PDB
    | PIR
    | PrfSeqDb
    | PSD
    | SwissProt
    | GDB

  /** The discriminant each variant serialises as. */
  function MedlineSiTypeCode(x: MedlineSiType): (c: int)
    ensures 1 <= c <= 14
  {
    match x
    case DDBJ => 1
    case CarbBank => 2
    case EMBL => 3
    case HDB => 4
    case GenBank => 5
    case HGML => 6
    case MIM => 7
    case MSD => 8
    case PDB => 9
    case PIR => 10
    case PrfSeqDb => 11
    case PSD => 12
    case SwissProt => 13
    case GDB => 14
  }

  /** The variant with discriminant `c`, if there is one. */
  function MedlineSiTypeFromCode(c: int): (r: Option<MedlineSiType>)
    ensures r.Some? <==> (1 <= c <= 14)
    ensures r.Some? ==> MedlineSiTypeCode(r.value) == c
  {
    if c == 1 then Some(MedlineSiType.DDBJ)
    else if c == 2 then Some(MedlineSiType.CarbBank)
    else if c == 3 then Some(MedlineSiType.EMBL)
    else if c == 4 then Some(MedlineSiType.HDB)
    else if c == 5 then Some(MedlineSiType.GenBank)
    else if c == 6 then Some(MedlineSiType.HGML)
    else if c == 7 then Some(MedlineSiType.MIM)
    else if c == 8 then Some(MedlineSiType.MSD)
    else if c == 9 then Some(MedlineSiType.PDB)
    else if c == 10 then Some(MedlineSiType.PIR)
    else if c == 11 then Some(MedlineSiType.PrfSeqDb)
    else if c == 12 then Some(MedlineSiType.PSD)
    else if c == 13 then Some(MedlineSiType.SwissProt)
    else if c == 14 then Some(MedlineSiType.GDB)
    else None
  }

  /** Decoding the discriminant of a variant gives the variant back, so the codes are distinct. */
  lemma MedlineSiTypeRoundTrip(x: MedlineSiType)
    ensures MedlineSiTypeFromCode(MedlineSiTypeCode(x)) == Some(x)
  {
  }

  lemma MedlineSiTypeCodeInjective(x: MedlineSiType, y: MedlineSiType)
    ensures MedlineSiTypeCode(x) == MedlineSiTypeCode(y) ==> x == y
  {
    MedlineSiTypeRoundTrip(x);
    MedlineSiTypeRoundTrip(y);
  }

  /** `MedlineRnType`: the kind of a substance record. */
  datatype MedlineRnType =
    | NameOnly
    | CAS
    | EC

  /** The discriminant each variant serialises as. */
  function MedlineRnTypeCode(x: MedlineRnType): (c: int)
    ensures 0 <= c <= 2
  {
    match x
    case NameOnly => 0
    case CAS => 1
    case EC => 2
  }

  /** The variant with discriminant `c`, if there is one. */
  function MedlineRnTypeFromCode(c: int): (r: Option<MedlineRnType>)
    ensures r.Some? <==> (0 <= c <= 2)
    ensures r.Some? ==> MedlineRnTypeCode(r.value) == c
  {
    if c == 0 then Some(MedlineRnType.NameOnly)
    else if c == 1 then Some(MedlineRnType.CAS)
    else if c == 2 then Some(MedlineRnType.EC)
    else None
  }

  /** Decoding the discriminant of a variant gives the variant back, so the codes are distinct. */
  lemma MedlineRnTypeRoundTrip(x: MedlineRnType)
    ensures MedlineRnTypeFromCode(MedlineRnTypeCode(x)) == Some(x)
  {
  }

  lemma MedlineRnTypeCodeInjective(x: MedlineRnType, y: MedlineRnType)
    ensures MedlineRnTypeCode(x) == MedlineRnTypeCode(y) ==> x == y
  {
    MedlineRnTypeRoundTrip(x);
    MedlineRnTypeRoundTrip(y);
  }

  /** `MedlineRn`: a substance record; the name is always present. */
  datatype MedlineRn = MedlineRn(rnType: MedlineRnType, cit: Option<string>, name: string)

  /** `MedlineSi`: a cross reference. */
  datatype MedlineSi = MedlineSi(siType: MedlineSiType, cit: Option<string>)

  /** `MedlineFieldType`: the kind of an additional field. */
  datatype MedlineFieldType =
    | Other
    | Comment
    | Erratum

  /** The discriminant each variant serialises as. */
  function MedlineFieldTypeCode(x: MedlineFieldType): (c: int)
    ensures 0 <= c <= 2
  {
    match x
    case Other => 0
    case Comment => 1
    case Erratum => 2
  }

  /** The variant with discriminant `c`, if there is one. */
  function MedlineFieldTypeFromCode(c: int): (r: Option<MedlineFieldType>)
    ensures r.Some? <==> (0 <= c <= 2)
    ensures r.Some? ==> MedlineFieldTypeCode(r.value) == c
  {
    if c == 0 then Some(MedlineFieldType.Other)
    else if c == 1 then Some(MedlineFieldType.Comment)
    else if c == 2 then Some(MedlineFieldType.Erratum)
    else None
  }

  /** Decoding the discriminant of a variant gives the variant back, so the codes are distinct. */
  lemma MedlineFieldTypeRoundTrip(x: MedlineFieldType)
    ensures MedlineFieldTypeFromCode(MedlineFieldTypeCode(x)) == Some(x)
  {
  }

  lemma MedlineFieldTypeCodeInjective(x: MedlineFieldType, y: MedlineFieldType)
    ensures MedlineFieldTypeCode(x) == MedlineFieldTypeCode(y) ==> x == y
  {
    MedlineFieldTypeRoundTrip(x);
    MedlineFieldTypeRoundTrip(y);
  }

  /** `DocRefType`: the numbering a document reference uses; discriminants start at 1. */
  datatype DocRefType =
    | Medline
    | PubMed
    | NCBIGi

  /** The discriminant each variant serialises as. */
  function DocRefTypeCode(x: DocRefType): (c: int)
    ensures 1 <= c <= 3
  {
    match x
    case Medline => 1
    case PubMed => 2
    case NCBIGi => 3
  }

  /** The variant with discriminant `c`, if there is one. */
  function DocRefTypeFromCode(c: int): (r: Option<DocRefType>)
    ensures r.Some? <==> (1 <= c <= 3)
    ensures r.Some? ==> DocRefTypeCode(r.value) == c
  {
    if c == 1 then Some(DocRefType.Medline)
    else if c == 2 then Some(DocRefType.PubMed)
    else if c == 3 then Some(DocRefType.NCBIGi)
    else None
  }

  /** Decoding the discriminant of a variant gives the variant back, so the codes are distinct. */
  lemma DocRefTypeRoundTrip(x: DocRefType)
    ensures DocRefTypeFromCode(DocRefTypeCode(x)) == Some(x)
  {
  }

  lemma DocRefTypeCodeInjective(x: DocRefType, y: DocRefType)
    ensures DocRefTypeCode(x) == DocRefTypeCode(y) ==> x == y
  {
    DocRefTypeRoundTrip(x);
    DocRefTypeRoundTrip(y);
  }

  /** `DocRef`: a reference to a document by a `u64` id. */
  datatype DocRef = DocRef(refType: DocRefType, uid: nat)

  /** `MedlineField`: an additional field with the documents it points to. */
  datatype MedlineField = MedlineField(fieldType: MedlineFieldType, cit: Option<string>, ids: Option<seq<DocRef>>)

  /** `MedlineEntry`: a MEDLINE or PubMed entry and the article it cites. */
  datatype MedlineEntry = MedlineEntry(
    uid: Option<nat>,
    em: Date,
    cit: Biblio.CitArt,
    abstractText: Option<string>,
    mesh: Option<seq<MedlineMesh>>,
    substance: Option<seq<MedlineRn>>,
    xref: Option<seq<MedlineSi>>,
    idnum: Option<seq<string>>,
    gene: Option<seq<string>>,
    pmid: Option<nat>,
    pubType: Option<seq<string>>,
    mlfield: Option<seq<MedlineField>>,
    status: MedlineEntryStatus)
}
