/**
 * Entrez Gene records of `src/asn/entrezgene.rs` (NCBI entrezgene.asn): the
 * record types, the text-to-enum mappers and the event readers of
 * `Entrezgene`, `Gene-track`, `Gene-source`, `Gene-commentary`,
 * `OtherSource` and `Entrezgene-Set`.
 */
module EntrezGene {
  import opened Wrappers
  import opened Bytes
  import opened Xml
  import opened Standins
  import SeqFeat
  import Element
  import Unexpected
  import ParsingUtils

  // ----------------------------------------------------------------------
  // Codes
  // ----------------------------------------------------------------------

  /** `EntrezgeneType` (`#[repr(u8)]`). */
  datatype EntrezgeneType =
    | Unknown
    | TRna
    | RRna
    | SnRna
    | ScRna
    | SnoRna
    | ProteinCoding
    | Pseudo
    | Transposon
    | MiscRna
    | NcRna
    | BiologicalRegion
    | Other

  /** The discriminant each variant serialises as. */
  function EntrezgeneTypeCode(x: EntrezgeneType): (c: int)
    ensures 0 <= c < 256
    ensures 0 <= c <= 11 || c == 255
  {
    match x
    case Unknown => 0
    case TRna => 1
    case RRna => 2
    case SnRna => 3
    case ScRna => 4
    case SnoRna => 5
    case ProteinCoding => 6
    case Pseudo => 7
    case Transposon => 8
    case MiscRna => 9
    case NcRna => 10
    case BiologicalRegion => 11
    case Other => 255
  }

  /** The variant with discriminant `c`, if there is one. */
  function EntrezgeneTypeFromCode(c: int): (r: Option<EntrezgeneType>)
    ensures r.Some? <==> (0 <= c <= 11 || c == 255)
    ensures r.Some? ==> EntrezgeneTypeCode(r.value) == c
  {
    if c == 0 then Some(EntrezgeneType.Unknown)
    else if c == 1 then Some(EntrezgeneType.TRna)
    else if c == 2 then Some(EntrezgeneType.RRna)
    else if c == 3 then Some(EntrezgeneType.SnRna)
    else if c == 4 then Some(EntrezgeneType.ScRna)
    else if c == 5 then Some(EntrezgeneType.SnoRna)
    else if c == 6 then Some(EntrezgeneType.ProteinCoding)
    else if c == 7 then Some(EntrezgeneType.Pseudo)
    else if c == 8 then Some(EntrezgeneType.Transposon)
    else if c == 9 then Some(EntrezgeneType.MiscRna)
    else if c == 10 then Some(EntrezgeneType.NcRna)
    else if c == 11 then Some(EntrezgeneType.BiologicalRegion)
    else if c == 255 then Some(EntrezgeneType.Other)
    else None
  }

  /** Decoding the discriminant of a variant gives the variant back, so the codes are distinct. */
  lemma EntrezgeneTypeRoundTrip(x: EntrezgeneType)
    ensures EntrezgeneTypeFromCode(EntrezgeneTypeCode(x)) == Some(x)
  {
  }

  lemma EntrezgeneTypeCodeInjective(x: EntrezgeneType, y: EntrezgeneType)
    ensures EntrezgeneTypeCode(x) == EntrezgeneTypeCode(y) ==> x == y
  {
    EntrezgeneTypeRoundTrip(x);
    EntrezgeneTypeRoundTrip(y);
  }

  /** `#[default]`: Unknown. */
  const DefaultEntrezgeneType: EntrezgeneType := EntrezgeneType.Unknown

  /** `GeneCommentaryType` (`#[repr(u8)]`). */
  datatype GeneCommentaryType =
    | Genomic
    | PreRna
    | MRna
    | RRna
    | TRna
    | SnRNA
    | ScRNA
    | Peptide
    | OtherGenetic
    | GenomicMrna
    | CRna
    | MaturePeptide
    | PreProtein
    | MiscRNA
    | SnoRNA
    | Property
    | Reference
    | Generif
    | Phenotype
    | Complex
    | Compound
    | NcRna
    | GeneGroup
    | Assembly
    | AssemblyUnit
    | CRegion
    | DSegment
    | JSegment
    | VSegment
    | Comment
    | Other

  /** The discriminant each variant serialises as. */
  function GeneCommentaryTypeCode(x: GeneCommentaryType): (c: int)
    ensures 0 <= c < 256
    ensures 1 <= c <= 29 || 254 <= c <= 255
  {
    match x
    case Genomic => 1
    case PreRna => 2
    case MRna => 3
    case RRna => 4
    case TRna => 5
    case SnRNA => 6
    case ScRNA => 7
    case Peptide => 8
    case OtherGenetic => 9
    case GenomicMrna => 10
    case CRna => 11
    case MaturePeptide => 12
    case PreProtein => 13
    case MiscRNA => 14
    case SnoRNA => 15
    case Property => 16
    case Reference => 17
    case Generif => 18
    case Phenotype => 19
    case Complex => 20
    case Compound => 21
    case NcRna => 22
    case GeneGroup => 23
    case Assembly => 24
    case AssemblyUnit => 25
    case CRegion => 26
    case DSegment => 27
    case JSegment => 28
    case VSegment => 29
    case Comment => 254
    case Other => 255
  }

  /** The variant with discriminant `c`, if there is one. */
  function GeneCommentaryTypeFromCode(c: int): (r: Option<GeneCommentaryType>)
    ensures r.Some? <==> (1 <= c <= 29 || 254 <= c <= 255)
    ensures r.Some? ==> GeneCommentaryTypeCode(r.value) == c
  {
    if c < 11 then GeneCommentaryTypeFromCode0(c)
    else if c < 21 then GeneCommentaryTypeFromCode1(c)
    else if c < 255 then GeneCommentaryTypeFromCode2(c)
    else GeneCommentaryTypeFromCode3(c)
  }

  function GeneCommentaryTypeFromCode0(c: int): (r: Option<GeneCommentaryType>)
    ensures r.Some? <==> (1 <= c <= 10)
    ensures r.Some? ==> GeneCommentaryTypeCode(r.value) == c
  {
    if c == 1 then Some(GeneCommentaryType.Genomic)
    else if c == 2 then Some(GeneCommentaryType.PreRna)
    else if c == 3 then Some(GeneCommentaryType.MRna)
    else if c == 4 then Some(GeneCommentaryType.RRna)
    else if c == 5 then Some(GeneCommentaryType.TRna)
    else if c == 6 then Some(GeneCommentaryType.SnRNA)
    else if c == 7 then Some(GeneCommentaryType.ScRNA)
    else if c == 8 then Some(GeneCommentaryType.Peptide)
    else if c == 9 then Some(GeneCommentaryType.OtherGenetic)
    else if c == 10 then Some(GeneCommentaryType.GenomicMrna)
    else None
  }

  function GeneCommentaryTypeFromCode1(c: int): (r: Option<GeneCommentaryType>)
    ensures r.Some? <==> (11 <= c <= 20)
    ensures r.Some? ==> GeneCommentaryTypeCode(r.value) == c
  {
    if c == 11 then Some(GeneCommentaryType.CRna)
    else if c == 12 then Some(GeneCommentaryType.MaturePeptide)
    else if c == 13 then Some(GeneCommentaryType.PreProtein)
    else if c == 14 then Some(GeneCommentaryType.MiscRNA)
    else if c == 15 then Some(GeneCommentaryType.SnoRNA)
    else if c == 16 then Some(GeneCommentaryType.Property)
    else if c == 17 then Some(GeneCommentaryType.Reference)
    else if c == 18 then Some(GeneCommentaryType.Generif)
    else if c == 19 then Some(GeneCommentaryType.Phenotype)
    else if c == 20 then Some(GeneCommentaryType.Complex)
    else None
  }

  function GeneCommentaryTypeFromCode2(c: int): (r: Option<GeneCommentaryType>)
    ensures r.Some? <==> (21 <= c <= 29 || c == 254)
    ensures r.Some? ==> GeneCommentaryTypeCode(r.value) == c
  {
    if c == 21 then Some(GeneCommentaryType.Compound)
    else if c == 22 then Some(GeneCommentaryType.NcRna)
    else if c == 23 then Some(GeneCommentaryType.GeneGroup)
    else if c == 24 then Some(GeneCommentaryType.Assembly)
    else if c == 25 then Some(GeneCommentaryType.AssemblyUnit)
    else if c == 26 then Some(GeneCommentaryType.CRegion)
    else if c == 27 then Some(GeneCommentaryType.DSegment)
    else if c == 28 then Some(GeneCommentaryType.JSegment)
    else if c == 29 then Some(GeneCommentaryType.VSegment)
    else if c == 254 then Some(GeneCommentaryType.Comment)
    else None
  }

  function GeneCommentaryTypeFromCode3(c: int): (r: Option<GeneCommentaryType>)
    ensures r.Some? <==> (c == 255)
    ensures r.Some? ==> GeneCommentaryTypeCode(r.value) == c
  {
    if c == 255 then Some(GeneCommentaryType.Other)
    else None
  }

  /** Decoding the discriminant of a variant gives the variant back, so the codes are distinct. */
  lemma GeneCommentaryTypeRoundTrip(x: GeneCommentaryType)
    ensures GeneCommentaryTypeFromCode(GeneCommentaryTypeCode(x)) == Some(x)
  {
  }

  lemma GeneCommentaryTypeCodeInjective(x: GeneCommentaryType, y: GeneCommentaryType)
    ensures GeneCommentaryTypeCode(x) == GeneCommentaryTypeCode(y) ==> x == y
  {
    GeneCommentaryTypeRoundTrip(x);
    GeneCommentaryTypeRoundTrip(y);
  }

  /** `GeneTrackStatus` (`#[repr(u8)]`). */
  datatype GeneTrackStatus = Live | Secondary | Discontinued

  /** The discriminant each variant serialises as. */
  function GeneTrackStatusCode(x: GeneTrackStatus): (c: int)
    ensures 0 <= c < 256
    ensures 0 <= c <= 2
  {
    match x
    case Live => 0
    case Secondary => 1
    case Discontinued => 2
  }

  /** The variant with discriminant `c`, if there is one. */
  function GeneTrackStatusFromCode(c: int): (r: Option<GeneTrackStatus>)
    ensures r.Some? <==> (0 <= c <= 2)
    ensures r.Some? ==> GeneTrackStatusCode(r.value) == c
  {
    if c == 0 then Some(GeneTrackStatus.Live)
    else if c == 1 then Some(GeneTrackStatus.Secondary)
    else if c == 2 then Some(GeneTrackStatus.Discontinued)
    else None
  }

  /** Decoding the discriminant of a variant gives the variant back, so the codes are distinct. */
  lemma GeneTrackStatusRoundTrip(x: GeneTrackStatus)
    ensures GeneTrackStatusFromCode(GeneTrackStatusCode(x)) == Some(x)
  {
  }

  lemma GeneTrackStatusCodeInjective(x: GeneTrackStatus, y: GeneTrackStatus)
    ensures GeneTrackStatusCode(x) == GeneTrackStatusCode(y) ==> x == y
  {
    GeneTrackStatusRoundTrip(x);
    GeneTrackStatusRoundTrip(y);
  }

  /** `MapType`: the units of a map position (`#[repr(u8)]`). */
  datatype MapType = Cyto | Bp | CM | CR | Min

  /** The discriminant each variant serialises as. */
  function MapTypeCode(x: MapType): (c: int)
    ensures 0 <= c < 256
    ensures 0 <= c <= 4
  {
    match x
    case Cyto => 0
    case Bp => 1
    case CM => 2
    case CR => 3
    case Min => 4
  }

  /** The variant with discriminant `c`, if there is one. */
  function MapTypeFromCode(c: int): (r: Option<MapType>)
    ensures r.Some? <==> (0 <= c <= 4)
    ensures r.Some? ==> MapTypeCode(r.value) == c
  {
    if c == 0 then Some(MapType.Cyto)
    else if c == 1 then Some(MapType.Bp)
    else if c == 2 then Some(MapType.CM)
    else if c == 3 then Some(MapType.CR)
    else if c == 4 then Some(MapType.Min)
    else None
  }

  /** Decoding the discriminant of a variant gives the variant back, so the codes are distinct. */
  lemma MapTypeRoundTrip(x: MapType)
    ensures MapTypeFromCode(MapTypeCode(x)) == Some(x)
  {
  }

  lemma MapTypeCodeInjective(x: MapType, y: MapType)
    ensures MapTypeCode(x) == MapTypeCode(y) ==> x == y
  {
    MapTypeRoundTrip(x);
    MapTypeRoundTrip(y);
  }

  // ----------------------------------------------------------------------
  // Records
  // ----------------------------------------------------------------------

  /** `XtraTerms`: a tag/value pair for Entrez indexing. */
  datatype XtraTerms = XtraTerms(tag: string, value: string)

  /** `MapsMethodChoice`: a proxy URL or the units of the display string. */
  datatype MapsMethodChoice = Proxy(proxy: string) | Units(mapType: MapType)

  /** `Maps`. */
  datatype Maps = Maps(displayStr: string, mapMethod: MapsMethodChoice)

  /**
   * `GeneTrack`. A date is kept as the unparsed events of its `Date`
   * element; for the two mandatory dates None stands for `Date::default()`.
   */
  datatype GeneTrack = GeneTrack(
    geneid: nat,
    status: GeneTrackStatus,
    currentId: Option<seq<Opaque>>,
    createDate: Option<Opaque>,
    updateDate: Option<Opaque>,
    discontinueDate: Option<Opaque>)

  /** `GeneSource`. */
  datatype GeneSource = GeneSource(
    src: string,
    srcInt: Option<int>,
    srcStr1: Option<string>,
    srcStr2: Option<string>,
    geneDisplay: bool,
    locusDisplay: bool,
    extraTerms: bool)

  /** `OtherSource`: the database tag is kept as unparsed events. */
  datatype OtherSource = OtherSource(
    src: Option<Opaque>,
    preText: Option<string>,
    anchor: Option<string>,
    url: Option<string>,
    postText: Option<string>)

  /**
   * `GeneCommentary`. Publications, sequence locations and dates are kept as
   * unparsed events, since their readers are not part of this model.
   */
  datatype GeneCommentary = GeneCommentary(
    commentaryType: GeneCommentaryType,
    heading: Option<string>,
    labelText: Option<string>,
    text: Option<string>,
    accession: Option<string>,
    version: Option<nat>,
    xtraProperties: Option<seq<XtraTerms>>,
    refs: Option<seq<Opaque>>,
    source: Option<seq<OtherSource>>,
    genomicCoords: Option<seq<Opaque>>,
    seqs: Option<seq<Opaque>>,
    products: Option<seq<GeneCommentary>>,
    properties: Option<seq<GeneCommentary>>,
    comment: Option<seq<GeneCommentary>>,
    createDate: Option<Opaque>,
    updateDate: Option<Opaque>,
    rna: Option<SeqFeat.RnaRef>)

  /**
   * `Entrezgene`. `source` and `gene` are mandatory: None stands for
   * `BioSource::default()` and `GeneRef::default()`, and a read value is
   * kept as the unparsed events of its element.
   */
  datatype Entrezgene = Entrezgene(
    trackInfo: Option<GeneTrack>,
    geneType: EntrezgeneType,
    source: Option<Opaque>,
    gene: Option<Opaque>,
    prot: Option<Opaque>,
    rna: Option<SeqFeat.RnaRef>,
    summary: Option<string>,
    location: Option<seq<Maps>>,
    geneSource: Option<GeneSource>,
    locus: Option<seq<GeneCommentary>>,
    properties: Option<seq<GeneCommentary>>,
    refgene: Option<seq<GeneCommentary>>,
    homology: Option<seq<GeneCommentary>>,
    comments: Option<seq<GeneCommentary>>,
    uniqueKeys: Option<seq<Opaque>>,
    xtraIndexTerms: Option<seq<string>>,
    xtraProperties: Option<seq<XtraTerms>>,
    xtraIq: Option<seq<XtraTerms>>,
    nonUniqueKeys: Option<seq<Opaque>>)

  // Default values and the starting values of the readers.

  /** `impl Default for XtraTerms`: two empty strings. */
  const DefaultXtraTerms := XtraTerms("", "")

  /** `impl Default for GeneSource`: an empty key, no values, every flag false. */
  const DefaultGeneSource := GeneSource("", None, None, None, false, false, false)

  /** `impl Default for RnaRef`: type Unknown, `pseudo` Some(false), no extension. */
  const DefaultRnaRef := SeqFeat.RnaRef(SeqFeat.RnaRefType.Unknown, Some(false), None)

  /** `impl Default for Maps`: an empty display string in base pairs. */
  const DefaultMaps := Maps("", Units(Bp))

  /** `impl Default for GeneTrack`: gene id 0, status Live, default dates. */
  const DefaultGeneTrack := GeneTrack(0, Live, None, None, None, None)

  /** The derived `Default` of `OtherSource`: nothing set. */
  const DefaultOtherSource := OtherSource(None, None, None, None, None)

  /** The commentary `GeneCommentary::from_reader` starts from: type Other, nothing set. */
  const InitialCommentary := GeneCommentary(GeneCommentaryType.Other, None, None, None, None, None, None, None,
                                            None, None, None, None, None, None, None, None, None)

  /** The record `Entrezgene::from_reader` starts from: type Unknown, default source and gene. */
  const InitialGene := Entrezgene(None, EntrezgeneType.Unknown, None, None, None, None, None, None, None,
                                  None, None, None, None, None, None, None, None, None, None)

  // ----------------------------------------------------------------------
  // Text mappers
  // ----------------------------------------------------------------------

  /** `read_gene_track_status` on a text: "0"/"live", "1"/"secondary"; anything else is Discontinued. */
  function GeneTrackStatusOf(text: string): (t: GeneTrackStatus)
    ensures t == GeneTrackStatus.Live <==> text == "0" || text == "live"
    ensures t == GeneTrackStatus.Secondary <==> text == "1" || text == "secondary"
  {
    if text == "0" || text == "live" then GeneTrackStatus.Live
    else if text == "1" || text == "secondary" then GeneTrackStatus.Secondary
    else if text == "2" || text == "discontinued" then GeneTrackStatus.Discontinued
    else GeneTrackStatus.Discontinued
  }

  /** `read_gene_track_status`: None only when the next event is not a text. */
  function ReadGeneTrackStatus(ev: seq<Event>, pos: nat): (p: Parse<Option<GeneTrackStatus>>)
    requires pos <= |ev|
    ensures p != Hang && Advances(ev, pos, p)
    ensures p.Done? ==> (p.value.None? <==> !At(ev, pos).Text?)
  {
    MapParse(ParsingUtils.ReadStringSpec(ev, pos), (o: Option<string>) => if o.Some? then Some(GeneTrackStatusOf(o.value)) else None)
  }

  /** The decimal text of a variant's discriminant reads back as that variant. */
  lemma GeneTrackStatusOfOfCode(x: GeneTrackStatus)
    ensures GeneTrackStatusOf(NatToString(GeneTrackStatusCode(x))) == x
  {
    match x
    case Live => assert NatToString(0) == "0";
    case Secondary => assert NatToString(1) == "1";
    case Discontinued => assert NatToString(2) == "2";
  }
  /** `read_entrezgene_type` on a text (a missing text reads as the empty string): the listed codes and names; anything else is Unknown. */
  function EntrezgeneTypeOf(text: string): (t: EntrezgeneType)
    ensures t == EntrezgeneType.TRna <==> text == "1" || text == "tRNA"
    ensures t == EntrezgeneType.RRna <==> text == "2" || text == "rRNA"
    ensures t == EntrezgeneType.SnRna <==> text == "3" || text == "snRNA"
    ensures t == EntrezgeneType.ScRna <==> text == "4" || text == "scRNA"
    ensures t == EntrezgeneType.SnoRna <==> text == "5" || text == "snoRNA"
    ensures t == EntrezgeneType.ProteinCoding <==> text == "6" || text == "protein-coding"
    ensures t == EntrezgeneType.Pseudo <==> text == "7" || text == "pseudo"
    ensures t == EntrezgeneType.Transposon <==> text == "8" || text == "transposon"
    ensures t == EntrezgeneType.MiscRna <==> text == "9" || text == "miscRNA"
    ensures t == EntrezgeneType.NcRna <==> text == "10" || text == "ncRNA"
    ensures t == EntrezgeneType.BiologicalRegion <==> text == "11" || text == "biological-region"
    ensures t == EntrezgeneType.Other <==> text == "255" || text == "other"
  {
    if text == "0" || text == "unknown" then EntrezgeneType.Unknown
    else if text == "1" || text == "tRNA" then EntrezgeneType.TRna
    else if text == "2" || text == "rRNA" then EntrezgeneType.RRna
    else if text == "3" || text == "snRNA" then EntrezgeneType.SnRna
    else if text == "4" || text == "scRNA" then EntrezgeneType.ScRna
    else if text == "5" || text == "snoRNA" then EntrezgeneType.SnoRna
    else if text == "6" || text == "protein-coding" then EntrezgeneType.ProteinCoding
    else if text == "7" || text == "pseudo" then EntrezgeneType.Pseudo
    else if text == "8" || text == "transposon" then EntrezgeneType.Transposon
    else if text == "9" || text == "miscRNA" then EntrezgeneType.MiscRna
    else if text == "10" || text == "ncRNA" then EntrezgeneType.NcRna
    else if text == "11" || text == "biological-region" then EntrezgeneType.BiologicalRegion
    else if text == "255" || text == "other" then EntrezgeneType.Other
    else EntrezgeneType.Unknown
  }
  /** The decimal text of a variant's discriminant reads back as that variant. */
  lemma EntrezgeneTypeOfOfCode(x: EntrezgeneType)
    ensures EntrezgeneTypeOf(NatToString(EntrezgeneTypeCode(x))) == x
  {
    match x
    case Unknown => assert NatToString(0) == "0";
    case TRna => assert NatToString(1) == "1";
    case RRna => assert NatToString(2) == "2";
    case SnRna => assert NatToString(3) == "3";
    case ScRna => assert NatToString(4) == "4";
    case SnoRna => assert NatToString(5) == "5";
    case ProteinCoding => assert NatToString(6) == "6";
    case Pseudo => assert NatToString(7) == "7";
    case Transposon => assert NatToString(8) == "8";
    case MiscRna => assert NatToString(9) == "9";
    case NcRna => assert NatToString(10) == "10";
    case BiologicalRegion => assert NatToString(11) == "11";
    case Other => assert NatToString(255) == "255";
  }
  /**
   * The numeric spellings of `GeneCommentaryType` that the reader knows: they are exactly
   * the numerals of the discriminants.
   */
  function GeneCommentaryTypeByCode(text: string): (r: Option<GeneCommentaryType>)
    ensures r.Some? ==> IsNumeral(text)
  {
    if IsNumeral(text) then GeneCommentaryTypeFromCode(DigitsValue(text)) else None
  }

  /** A text is the code of a variant exactly when it is the numeral of its discriminant. */
  lemma GeneCommentaryTypeByCodeSpelling(text: string, x: GeneCommentaryType)
    ensures GeneCommentaryTypeByCode(text) == Some(x) <==> text == NatToString(GeneCommentaryTypeCode(x))
  {
    var c := GeneCommentaryTypeCode(x);
    NatToStringIsNumeral(c);
    GeneCommentaryTypeRoundTrip(x);
    if IsNumeral(text) {
      NumeralIsNatToString(text);
      if GeneCommentaryTypeByCode(text) == Some(x) {
        assert DigitsValue(text) == c;
      }
    }
  }

  /** The names of `GeneCommentaryType` starting with a letter up to `m` (case-sensitive). */
  function GeneCommentaryTypeNameAToM(text: string): (r: Option<GeneCommentaryType>)
    ensures r == Some(GeneCommentaryType.Genomic) <==> text == "Genomic"
    ensures r == Some(GeneCommentaryType.MRna) <==> text == "mRNA"
    ensures r == Some(GeneCommentaryType.GenomicMrna) <==> text == "genome-mRNA"
    ensures r == Some(GeneCommentaryType.CRna) <==> text == "cRNA"
    ensures r == Some(GeneCommentaryType.MaturePeptide) <==> text == "mature-peptide"
    ensures r == Some(GeneCommentaryType.MiscRNA) <==> text == "miscRNA"
    ensures r == Some(GeneCommentaryType.Generif) <==> text == "generif"
    ensures r == Some(GeneCommentaryType.Complex) <==> text == "complex"
    ensures r == Some(GeneCommentaryType.Compound) <==> text == "compound"
    ensures r == Some(GeneCommentaryType.GeneGroup) <==> text == "gene-group"
    ensures r == Some(GeneCommentaryType.Assembly) <==> text == "assembly"
    ensures r == Some(GeneCommentaryType.AssemblyUnit) <==> text == "assembly-unit"
    ensures r == Some(GeneCommentaryType.CRegion) <==> text == "c-region"
    ensures r == Some(GeneCommentaryType.DSegment) <==> text == "d-segment"
    ensures r == Some(GeneCommentaryType.JSegment) <==> text == "j-segment"
    ensures r == Some(GeneCommentaryType.Comment) <==> text == "comment"
    ensures r.Some? ==> |text| > 0 && 'A' <= text[0] <= 'm'
  {
    if text == "Genomic" then Some(GeneCommentaryType.Genomic)
    else if text == "mRNA" then Some(GeneCommentaryType.MRna)
    else if text == "genome-mRNA" then Some(GeneCommentaryType.GenomicMrna)
    else if text == "cRNA" then Some(GeneCommentaryType.CRna)
    else if text == "mature-peptide" then Some(GeneCommentaryType.MaturePeptide)
    else if text == "miscRNA" then Some(GeneCommentaryType.MiscRNA)
    else if text == "generif" then Some(GeneCommentaryType.Generif)
    else if text == "complex" then Some(GeneCommentaryType.Complex)
    else if text == "compound" then Some(GeneCommentaryType.Compound)
    else if text == "gene-group" then Some(GeneCommentaryType.GeneGroup)
    else if text == "assembly" then Some(GeneCommentaryType.Assembly)
    else if text == "assembly-unit" then Some(GeneCommentaryType.AssemblyUnit)
    else if text == "c-region" then Some(GeneCommentaryType.CRegion)
    else if text == "d-segment" then Some(GeneCommentaryType.DSegment)
    else if text == "j-segment" then Some(GeneCommentaryType.JSegment)
    else if text == "comment" then Some(GeneCommentaryType.Comment)
    else None
  }

  /** The names of `GeneCommentaryType` starting with a letter from `n` (case-sensitive). */
  function GeneCommentaryTypeNameNToZ(text: string): (r: Option<GeneCommentaryType>)
    ensures r == Some(GeneCommentaryType.PreRna) <==> text == "pre-RNA"
    ensures r == Some(GeneCommentaryType.RRna) <==> text == "rRNA"
    ensures r == Some(GeneCommentaryType.TRna) <==> text == "tRNA"
    ensures r == Some(GeneCommentaryType.SnRNA) <==> text == "snRNA"
    ensures r == Some(GeneCommentaryType.ScRNA) <==> text == "scRNA"
    ensures r == Some(GeneCommentaryType.Peptide) <==> text == "peptide"
    ensures r == Some(GeneCommentaryType.OtherGenetic) <==> text == "other-genetic"
    ensures r == Some(GeneCommentaryType.PreProtein) <==> text == "pre-protein"
    ensures r == Some(GeneCommentaryType.SnoRNA) <==> text == "snoRNA"
    ensures r == Some(GeneCommentaryType.Property) <==> text == "property"
    ensures r == Some(GeneCommentaryType.Reference) <==> text == "reference"
    ensures r == Some(GeneCommentaryType.Phenotype) <==> text == "phenotype"
    ensures r == Some(GeneCommentaryType.NcRna) <==> text == "ncRNA"
    ensures r == Some(GeneCommentaryType.VSegment) <==> text == "v-segment"
    ensures r == Some(GeneCommentaryType.Other) <==> text == "other"
    ensures r.Some? ==> |text| > 0 && 'n' <= text[0] <= 'z'
  {
    if text == "pre-RNA" then Some(GeneCommentaryType.PreRna)
    else if text == "rRNA" then Some(GeneCommentaryType.RRna)
    else if text == "tRNA" then Some(GeneCommentaryType.TRna)
    else if text == "snRNA" then Some(GeneCommentaryType.SnRNA)
    else if text == "scRNA" then Some(GeneCommentaryType.ScRNA)
    else if text == "peptide" then Some(GeneCommentaryType.Peptide)
    else if text == "other-genetic" then Some(GeneCommentaryType.OtherGenetic)
    else if text == "pre-protein" then Some(GeneCommentaryType.PreProtein)
    else if text == "snoRNA" then Some(GeneCommentaryType.SnoRNA)
    else if text == "property" then Some(GeneCommentaryType.Property)
    else if text == "reference" then Some(GeneCommentaryType.Reference)
    else if text == "phenotype" then Some(GeneCommentaryType.Phenotype)
    else if text == "ncRNA" then Some(GeneCommentaryType.NcRna)
    else if text == "v-segment" then Some(GeneCommentaryType.VSegment)
    else if text == "other" then Some(GeneCommentaryType.Other)
    else None
  }

  /**
   * `read_gene_commentary_type` on a text (a missing text reads as the empty string): the listed codes and case-sensitive names; anything else is Other.
   * No name is a numeral and no name is in both halves, so trying the codes,
   * then the names, gives the same result as trying each variant's pair in
   * turn.
   */
  function GeneCommentaryTypeOf(text: string): (t: GeneCommentaryType)
    ensures t != GeneCommentaryType.Other ==>
      GeneCommentaryTypeByCode(text) == Some(t) || GeneCommentaryTypeNameAToM(text) == Some(t) || GeneCommentaryTypeNameNToZ(text) == Some(t)
  {
    match GeneCommentaryTypeByCode(text)
    case Some(t) => t
    case None =>
      if GeneCommentaryTypeNameAToM(text).Some? then GeneCommentaryTypeNameAToM(text).value
      else GeneCommentaryTypeNameNToZ(text).UnwrapOr(GeneCommentaryType.Other)
  }

  /**
   * A text reads as a variant other than Other exactly when it is the
   * numeral of its discriminant or its name.
   */
  lemma GeneCommentaryTypeOfSpelling(text: string, x: GeneCommentaryType)
    requires x != GeneCommentaryType.Other
    ensures GeneCommentaryTypeOf(text) == x <==>
      text == NatToString(GeneCommentaryTypeCode(x)) || GeneCommentaryTypeNameAToM(text) == Some(x) || GeneCommentaryTypeNameNToZ(text) == Some(x)
  {
    GeneCommentaryTypeByCodeSpelling(text, x);
    var a, z := GeneCommentaryTypeNameAToM(text), GeneCommentaryTypeNameNToZ(text);
    match GeneCommentaryTypeByCode(text)
    case Some(t) =>
      assert '0' <= text[0] <= '9';
      assert a.None? && z.None?;
    case None =>
      if a.Some? {
        assert z.None?;
      }
  }
  /** The decimal text of a variant's discriminant reads back as that variant. */
  lemma GeneCommentaryTypeOfOfCode(x: GeneCommentaryType)
    ensures GeneCommentaryTypeOf(NatToString(GeneCommentaryTypeCode(x))) == x
  {
    GeneCommentaryTypeByCodeSpelling(NatToString(GeneCommentaryTypeCode(x)), x);
  }

  /** The serde name `genomic` is not among the names the reader knows: it reads as Other. */
  lemma LowercaseGenomicIsOther()
    ensures GeneCommentaryTypeOf("genomic") == GeneCommentaryType.Other
    ensures GeneCommentaryTypeOf("Genomic") == GeneCommentaryType.Genomic
  {
  }

  /** The text of a type element, or the empty string when the next event is not a text. */
  function TypeText(o: Option<string>): string
  {
    o.UnwrapOr("")
  }

  // ----------------------------------------------------------------------
  // Item readers handed to the list collector
  // ----------------------------------------------------------------------

  /** `Maps::from_reader` and `XtraTerms::from_reader` are placeholders: a default value, nothing read. */
  function MapsItem(ev: seq<Event>): (item: nat --> Parse<Option<Maps>>)
    ensures Element.ItemReader(ev, item)
  {
    (p: nat) requires p <= |ev| => Done(Some(DefaultMaps), p)
  }

  function XtraItem(ev: seq<Event>): (item: nat --> Parse<Option<XtraTerms>>)
    ensures Element.ItemReader(ev, item)
  {
    (p: nat) requires p <= |ev| => Done(Some(DefaultXtraTerms), p)
  }

  /** `String::from_reader` is `read_string`. */
  function StringItem(ev: seq<Event>): (item: nat --> Parse<Option<string>>)
    ensures Element.ItemReader(ev, item)
  {
    (p: nat) requires p <= |ev| => ParsingUtils.ReadStringSpec(ev, p)
  }

  /** Elements whose readers are not part of this model, kept as events. */
  function OpaqueItem(ev: seq<Event>, element: string): (item: nat --> Parse<Option<Opaque>>)
    ensures Element.ItemReader(ev, item)
  {
    (p: nat) requires p <= |ev| => ReadOpaqueSpec(ev, p, element)
  }

  function CommentaryItem(ev: seq<Event>): (item: nat --> Parse<Option<GeneCommentary>>)
    ensures Element.ItemReader(ev, item)
  {
    (p: nat) requires p <= |ev| => GeneCommentaryLoop(ev, p, InitialCommentary)
  }

  function OtherSourceItem(ev: seq<Event>): (item: nat --> Parse<Option<OtherSource>>)
    ensures Element.ItemReader(ev, item)
  {
    (p: nat) requires p <= |ev| => OtherSourceLoop(ev, p, DefaultOtherSource)
  }

  const GENE_TRACK := "Gene-track"
  const GENE_SOURCE := "Gene-source"
  const GENE_COMMENTARY := "Gene-commentary"
  const OTHER_SOURCE := "OtherSource"
  const ENTREZGENE := "Entrezgene"
  const ENTREZGENE_SET := "Entrezgene-Set"
  const MAPS := "Maps"
  const XTRA_TERMS := "Xtra-terms"
  const STRING := "String"

  // ----------------------------------------------------------------------
  // Gene-track
  // ----------------------------------------------------------------------

  /**
   * How a reader that looks for Eof stopped: with a value right after the
   * End named `element`, or without one on Eof (an Eof event, or the end of
   * the events).
   */
  predicate EndsWith(ev: seq<Event>, pos: nat, next: nat, found: bool, element: string)
  {
    next <= |ev| &&
    if found then pos < next && ev[next - 1] == Event.End(element)
    else next == |ev| || (pos < next && ev[next - 1] == Eof)
  }

  /** `read_string(..).unwrap().parse().unwrap()` for a `u64`. */
  function ReadU64Text(ev: seq<Event>, pos: nat): (p: Parse<nat>)
    requires pos <= |ev|
    ensures p != Hang && Advances(ev, pos, p)
    ensures p.Done? <==> At(ev, pos).Text? && ParseU64(ParsingUtils.BytesToString(At(ev, pos).content)).Some?
    ensures p.Done? ==> p.value <= U64_MAX && Some(p.value as int) == ParseU64(ParsingUtils.BytesToString(At(ev, pos).content))
  {
    match ParsingUtils.ReadStringSpec(ev, pos)
    case Done(Some(s), q) =>
      (match ParseU64(s)
       case Some(v) => Done(v as nat, q)
       case None => Panic)
    case Done(None, _) => Panic
    case Panic => Panic
  }

  /** An `Option` result that the caller unwraps: None panics. */
  function Unwrap<T>(p: Parse<Option<T>>): (r: Parse<T>)
    ensures r.Done? <==> p.Done? && p.value.Some?
    ensures r.Done? ==> r.value == p.value.value && r.next == p.next
    ensures r == Hang <==> p == Hang
  {
    match p
    case Done(Some(v), q) => Done(v, q)
    case Done(None, _) => Panic
    case Panic => Panic
    case Hang => Hang
  }

  /** One child of `Gene-track`, read right after its Start named `n`. */
  function GeneTrackChild(ev: seq<Event>, p: nat, n: string, t: GeneTrack): (r: Parse<GeneTrack>)
    requires p <= |ev|
    ensures Advances(ev, p, r)
  {
    if n == "geneid" || n == "Gene-track_geneid" then
      MapParse(ReadU64Text(ev, p), (v: nat) => t.(geneid := v))
    else if n == "status" || n == "Gene-track_status" then
      MapParse(Unwrap(ReadGeneTrackStatus(ev, p)), (s: GeneTrackStatus) => t.(status := s))
    else if n == "current-id" || n == "Gene-track_current-id" then
      MapParse(Element.CollectLoop(ev, p, DBTAG, n, OpaqueItem(ev, DBTAG), []), (ids: seq<Opaque>) => t.(currentId := Some(ids)))
    else if n == "create-date" || n == "Gene-track_create-date" then
      MapParse(Unwrap(ReadOpaqueSpec(ev, p, DATE)), (d: Opaque) => t.(createDate := Some(d)))
    else if n == "update-date" || n == "Gene-track_update-date" then
      MapParse(Unwrap(ReadOpaqueSpec(ev, p, DATE)), (d: Opaque) => t.(updateDate := Some(d)))
    else if n == "discontinue-date" || n == "Gene-track_discontinue-date" then
      MapParse(ReadOpaqueSpec(ev, p, DATE), (d: Option<Opaque>) => t.(discontinueDate := d))
    else Done(t, p)
  }

  /**
   * The loop of `GeneTrack::from_reader`: children in either spelling fill
   * their field, other tags are ignored; End `Gene-track` returns the track
   * and Eof gives None.
   */
  function GeneTrackLoop(ev: seq<Event>, pos: nat, t: GeneTrack): (p: Parse<Option<GeneTrack>>)
    requires pos <= |ev|
    ensures Advances(ev, pos, p)
    ensures p.Done? ==> EndsWith(ev, pos, p.next, p.value.Some?, GENE_TRACK)
    decreases |ev| - pos
  {
    match At(ev, pos)
    case Error(_) => Panic
    case Eof => Done(None, Next(ev, pos))
    case End(n) => if n == GENE_TRACK then Done(Some(t), pos + 1) else GeneTrackLoop(ev, pos + 1, t)
    case Start(n, _) =>
      (match GeneTrackChild(ev, pos + 1, n, t)
       case Done(t', q) => GeneTrackLoop(ev, q, t')
       case Panic => Panic
       case Hang => Hang)
    case _ => GeneTrackLoop(ev, pos + 1, t)
  }

  // ----------------------------------------------------------------------
  // Gene-source
  // ----------------------------------------------------------------------

  /** One child of `Gene-source`: `Src`, `SrcInt`, `SrcStr1`, `SrcStr2`; others change nothing. */
  function GeneSourceChild(ev: seq<Event>, p: nat, n: string, s: GeneSource): (r: Parse<GeneSource>)
    requires p <= |ev|
    ensures Advances(ev, p, r) && r != Hang
  {
    if n == "Src" then
      MapParse(ParsingUtils.ReadStringSpec(ev, p), (o: Option<string>) => s.(src := o.UnwrapOr("")))
    else if n == "SrcInt" then
      MapParse(ParsingUtils.ReadIntSpec(ev, p, 0, U64_MAX), (o: Option<int>) => s.(srcInt := o))
    else if n == "SrcStr1" then
      MapParse(ParsingUtils.ReadStringSpec(ev, p), (o: Option<string>) => s.(srcStr1 := o))
    else if n == "SrcStr2" then
      MapParse(ParsingUtils.ReadStringSpec(ev, p), (o: Option<string>) => s.(srcStr2 := o))
    else Done(s, p)
  }

  /**
   * The loop of `GeneSource::from_reader`: End `Gene-source` returns the
   * source, Eof gives None. The three display flags are never read.
   */
  function GeneSourceLoop(ev: seq<Event>, pos: nat, s: GeneSource): (p: Parse<Option<GeneSource>>)
    requires pos <= |ev|
    ensures Advances(ev, pos, p) && p != Hang
    ensures p.Done? ==> EndsWith(ev, pos, p.next, p.value.Some?, GENE_SOURCE)
    ensures p.Done? && p.value.Some? ==>
      (p.value.value.geneDisplay, p.value.value.locusDisplay, p.value.value.extraTerms)
      == (s.geneDisplay, s.locusDisplay, s.extraTerms)
    decreases |ev| - pos
  {
    match At(ev, pos)
    case Error(_) => Panic
    case Eof => Done(None, Next(ev, pos))
    case End(n) => if n == GENE_SOURCE then Done(Some(s), pos + 1) else GeneSourceLoop(ev, pos + 1, s)
    case Start(n, _) =>
      (match GeneSourceChild(ev, pos + 1, n, s)
       case Done(s', q) => GeneSourceLoop(ev, q, s')
       case Panic => Panic
       case Hang => Hang)
    case _ => GeneSourceLoop(ev, pos + 1, s)
  }

  // ----------------------------------------------------------------------
  // OtherSource
  // ----------------------------------------------------------------------

  /** One child of `OtherSource`; any other tag panics (its watchdog allows nothing). */
  function OtherSourceChild(ev: seq<Event>, p: nat, n: string, s: OtherSource): (r: Parse<OtherSource>)
    requires p <= |ev|
    ensures Advances(ev, p, r) && r != Hang
    ensures !(n == "src" || n == "pre-text" || n == "anchor" || n == "url" || n == "post-text") ==> r == Panic
  {
    if n == "src" then MapParse(ReadOpaqueSpec(ev, p, DBTAG), (o: Option<Opaque>) => s.(src := o))
    else if n == "pre-text" then MapParse(ParsingUtils.ReadStringSpec(ev, p), (o: Option<string>) => s.(preText := o))
    else if n == "anchor" then MapParse(ParsingUtils.ReadStringSpec(ev, p), (o: Option<string>) => s.(anchor := o))
    else if n == "url" then MapParse(ParsingUtils.ReadStringSpec(ev, p), (o: Option<string>) => s.(url := o))
    else if n == "post-text" then MapParse(ParsingUtils.ReadStringSpec(ev, p), (o: Option<string>) => s.(postText := o))
    else Panic
  }

  /**
   * The loop of `OtherSource::from_reader`: End `OtherSource` returns the
   * source. It does not look for Eof.
   */
  function OtherSourceLoop(ev: seq<Event>, pos: nat, s: OtherSource): (p: Parse<Option<OtherSource>>)
    requires pos <= |ev|
    ensures Advances(ev, pos, p)
    ensures p.Done? ==> p.value.Some? && pos < p.next && ev[p.next - 1] == Event.End(OTHER_SOURCE)
    decreases |ev| - pos
  {
    if pos == |ev| then Hang
    else
      match ev[pos]
      case Error(_) => Panic
      case End(n) => if n == OTHER_SOURCE then Done(Some(s), pos + 1) else OtherSourceLoop(ev, pos + 1, s)
      case Start(n, _) =>
        (match OtherSourceChild(ev, pos + 1, n, s)
         case Done(s', q) => OtherSourceLoop(ev, q, s')
         case Panic => Panic
         case Hang => Hang)
      case _ => OtherSourceLoop(ev, pos + 1, s)
  }

  // ----------------------------------------------------------------------
  // Gene-commentary
  // ----------------------------------------------------------------------

  /** The child tags `GeneCommentary::from_reader` dispatches on. */
  datatype CommentaryTag =
    | Type
    | Heading
    | Label
    | Text
    | Accession
    | Version
    | XtraProps
    | Refs
    | Seqs
    | SourceTag
    | GenomicCoords
    | Products
    | Comment
    | CreateDate
    | UpdateDate

  /** The tag name prefixed with `Gene-commentary_`. */
  function CommentaryPrefixed(t: CommentaryTag): string
  {
    match t
    case Type => "Gene-commentary_type"
    case Heading => "Gene-commentary_heading"
    case Label => "Gene-commentary_label"
    case Text => "Gene-commentary_text"
    case Accession => "Gene-commentary_accession"
    case Version => "Gene-commentary_version"
    case XtraProps => "Gene-commentary_xtra-properties"
    case Refs => "Gene-commentary_refs"
    case Seqs => "Gene-commentary_seqs"
    case SourceTag => "Gene-commentary_source"
    case GenomicCoords => "Gene-commentary_genomic-coords"
    case Products => "Gene-commentary_products"
    case Comment => "Gene-commentary_comment"
    case CreateDate => "Gene-commentary_create-date"
    case UpdateDate => "Gene-commentary_update-date"
  }

  /** The bare tag name, for the tags that have a bare branch. */
  function CommentaryBare(t: CommentaryTag): Option<string>
  {
    match t
    case Type => Some("type")
    case Heading => Some("heading")
    case Label => Some("label")
    case Text => Some("text")
    case Accession => Some("accession")
    case Version => Some("version")
    case XtraProps => Some("xtra-properties")
    case Refs => Some("refs")
    case Seqs => Some("seqs")
    case SourceTag => Some("source")
    case GenomicCoords => Some("genomic-coords")
    case Products => None
    case Comment => None
    case CreateDate => None
    case UpdateDate => None
  }

  /** The arms of the dispatch that match a bare tag name (all lower case). */
  function BareCommentaryTag(n: string): (r: Option<CommentaryTag>)
    ensures r == Some(CommentaryTag.Type) <==> n == "type"
    ensures r == Some(CommentaryTag.Heading) <==> n == "heading"
    ensures r == Some(CommentaryTag.Label) <==> n == "label"
    ensures r == Some(CommentaryTag.Text) <==> n == "text"
    ensures r == Some(CommentaryTag.Accession) <==> n == "accession"
    ensures r == Some(CommentaryTag.Version) <==> n == "version"
    ensures r == Some(CommentaryTag.XtraProps) <==> n == "xtra-properties"
    ensures r == Some(CommentaryTag.Refs) <==> n == "refs"
    ensures r == Some(CommentaryTag.Seqs) <==> n == "seqs"
    ensures r == Some(CommentaryTag.SourceTag) <==> n == "source"
    ensures r == Some(CommentaryTag.GenomicCoords) <==> n == "genomic-coords"
    ensures r.Some? ==> |n| > 0 && 'a' <= n[0] <= 'z'
  {
    if n == "type" then Some(CommentaryTag.Type)
    else if n == "heading" then Some(CommentaryTag.Heading)
    else if n == "label" then Some(CommentaryTag.Label)
    else if n == "text" then Some(CommentaryTag.Text)
    else if n == "accession" then Some(CommentaryTag.Accession)
    else if n == "version" then Some(CommentaryTag.Version)
    else if n == "xtra-properties" then Some(CommentaryTag.XtraProps)
    else if n == "refs" then Some(CommentaryTag.Refs)
    else if n == "seqs" then Some(CommentaryTag.Seqs)
    else if n == "source" then Some(CommentaryTag.SourceTag)
    else if n == "genomic-coords" then Some(CommentaryTag.GenomicCoords)
    else None
  }

  /** The arms of the dispatch that match a `Gene-commentary_` tag name. */
  function PrefixedCommentaryTag(n: string): (r: Option<CommentaryTag>)
    ensures r == Some(CommentaryTag.Type) <==> n == "Gene-commentary_type"
    ensures r == Some(CommentaryTag.Heading) <==> n == "Gene-commentary_heading"
    ensures r == Some(CommentaryTag.Label) <==> n == "Gene-commentary_label"
    ensures r == Some(CommentaryTag.Text) <==> n == "Gene-commentary_text"
    ensures r == Some(CommentaryTag.Accession) <==> n == "Gene-commentary_accession"
    ensures r == Some(CommentaryTag.Version) <==> n == "Gene-commentary_version"
    ensures r == Some(CommentaryTag.XtraProps) <==> n == "Gene-commentary_xtra-properties"
    ensures r == Some(CommentaryTag.Refs) <==> n == "Gene-commentary_refs"
    ensures r == Some(CommentaryTag.Seqs) <==> n == "Gene-commentary_seqs"
    ensures r == Some(CommentaryTag.SourceTag) <==> n == "Gene-commentary_source"
    ensures r == Some(CommentaryTag.GenomicCoords) <==> n == "Gene-commentary_genomic-coords"
    ensures r == Some(CommentaryTag.Products) <==> n == "Gene-commentary_products"
    ensures r == Some(CommentaryTag.Comment) <==> n == "Gene-commentary_comment"
    ensures r == Some(CommentaryTag.CreateDate) <==> n == "Gene-commentary_create-date"
    ensures r == Some(CommentaryTag.UpdateDate) <==> n == "Gene-commentary_update-date"
    ensures r.Some? ==> |n| > 0 && n[0] == 'G'
  {
    if n == "Gene-commentary_type" then Some(CommentaryTag.Type)
    else if n == "Gene-commentary_heading" then Some(CommentaryTag.Heading)
    else if n == "Gene-commentary_label" then Some(CommentaryTag.Label)
    else if n == "Gene-commentary_text" then Some(CommentaryTag.Text)
    else if n == "Gene-commentary_accession" then Some(CommentaryTag.Accession)
    else if n == "Gene-commentary_version" then Some(CommentaryTag.Version)
    else if n == "Gene-commentary_xtra-properties" then Some(CommentaryTag.XtraProps)
    else if n == "Gene-commentary_refs" then Some(CommentaryTag.Refs)
    else if n == "Gene-commentary_seqs" then Some(CommentaryTag.Seqs)
    else if n == "Gene-commentary_source" then Some(CommentaryTag.SourceTag)
    else if n == "Gene-commentary_genomic-coords" then Some(CommentaryTag.GenomicCoords)
    else if n == "Gene-commentary_products" then Some(CommentaryTag.Products)
    else if n == "Gene-commentary_comment" then Some(CommentaryTag.Comment)
    else if n == "Gene-commentary_create-date" then Some(CommentaryTag.CreateDate)
    else if n == "Gene-commentary_update-date" then Some(CommentaryTag.UpdateDate)
    else None
  }

  /**
   * The tag a Start names: most tags in either spelling; `products`,
   * `comment`, `create-date` and `update-date` only prefixed. No name is both
   * bare and prefixed, so trying the bare arms first changes nothing.
   */
  function CommentaryTagOf(n: string): (t: Option<CommentaryTag>)
    ensures t.Some? ==> n == CommentaryPrefixed(t.value) || Some(n) == CommentaryBare(t.value)
  {
    if BareCommentaryTag(n).Some? then BareCommentaryTag(n) else PrefixedCommentaryTag(n)
  }

  /** Every tag is reached by its prefixed name and by its bare name when it has one. */
  lemma CommentaryTagNames(t: CommentaryTag)
    ensures CommentaryTagOf(CommentaryPrefixed(t)) == Some(t)
    ensures CommentaryBare(t).Some? ==> CommentaryTagOf(CommentaryBare(t).value) == Some(t)
  {
  }

  /** The four late tags have no bare spelling. */
  lemma CommentaryPrefixOnly()
    ensures CommentaryTagOf("products") == None && CommentaryTagOf("comment") == None
    ensures CommentaryTagOf("create-date") == None && CommentaryTagOf("update-date") == None
  {
  }

  /**
   * One child of `Gene-commentary`, read right after its Start named `n`.
   * The `refs` list is stored in `comment`; a tag that is not dispatched
   * panics unless it is `unknown-tag`.
   */
  function CommentaryChild(ev: seq<Event>, p: nat, n: string, c: GeneCommentary): (r: Parse<GeneCommentary>)
    requires p <= |ev|
    ensures Advances(ev, p, r)
    ensures CommentaryTagOf(n).None? ==> r == if n == "unknown-tag" then Done(c, p) else Panic
    ensures r.Done? ==> r.value.refs == c.refs && r.value.rna == c.rna
    decreases |ev| - p, 1
  {
    match CommentaryTagOf(n)
    case None => if n == "unknown-tag" then Done(c, p) else Panic
    case Some(Type) =>
      MapParse(ParsingUtils.ReadStringSpec(ev, p), (o: Option<string>) => c.(commentaryType := GeneCommentaryTypeOf(TypeText(o))))
    case Some(Heading) => MapParse(ParsingUtils.ReadStringSpec(ev, p), (o: Option<string>) => c.(heading := o))
    case Some(Label) => MapParse(ParsingUtils.ReadStringSpec(ev, p), (o: Option<string>) => c.(labelText := o))
    case Some(Text) => MapParse(ParsingUtils.ReadStringSpec(ev, p), (o: Option<string>) => c.(text := o))
    case Some(Accession) => MapParse(ParsingUtils.ReadStringSpec(ev, p), (o: Option<string>) => c.(accession := o))
    case Some(Version) => MapParse(ReadU64Text(ev, p), (v: nat) => c.(version := Some(v)))
    case Some(XtraProps) =>
      MapParse(Element.CollectLoop(ev, p, XTRA_TERMS, n, XtraItem(ev), []), (l: seq<XtraTerms>) => c.(xtraProperties := Some(l)))
    case Some(Refs) => MapParse(CommentaryVecLoop(ev, p, n, []), (l: seq<GeneCommentary>) => c.(comment := Some(l)))
    case Some(Seqs) =>
      MapParse(Element.CollectLoop(ev, p, SEQ_LOC, n, OpaqueItem(ev, SEQ_LOC), []), (l: seq<Opaque>) => c.(seqs := Some(l)))
    case Some(SourceTag) =>
      MapParse(Element.CollectLoop(ev, p, OTHER_SOURCE, n, OtherSourceItem(ev), []), (l: seq<OtherSource>) => c.(source := Some(l)))
    case Some(GenomicCoords) =>
      MapParse(Element.CollectLoop(ev, p, SEQ_LOC, n, OpaqueItem(ev, SEQ_LOC), []), (l: seq<Opaque>) => c.(genomicCoords := Some(l)))
    case Some(Products) => MapParse(CommentaryVecLoop(ev, p, n, []), (l: seq<GeneCommentary>) => c.(products := Some(l)))
    case Some(Comment) => MapParse(CommentaryVecLoop(ev, p, n, []), (l: seq<GeneCommentary>) => c.(comment := Some(l)))
    case Some(CreateDate) => MapParse(ReadOpaqueSpec(ev, p, DATE), (o: Option<Opaque>) => c.(createDate := o))
    case Some(UpdateDate) => MapParse(ReadOpaqueSpec(ev, p, DATE), (o: Option<Opaque>) => c.(updateDate := o))
  }

  /**
   * The loop of `GeneCommentary::from_reader`: End `Gene-commentary`
   * returns the commentary, Eof gives None.
   */
  function GeneCommentaryLoop(ev: seq<Event>, pos: nat, c: GeneCommentary): (p: Parse<Option<GeneCommentary>>)
    requires pos <= |ev|
    ensures Advances(ev, pos, p)
    ensures p.Done? ==> EndsWith(ev, pos, p.next, p.value.Some?, GENE_COMMENTARY)
    ensures p.Done? && p.value.Some? ==> p.value.value.refs == c.refs && p.value.value.rna == c.rna
    decreases |ev| - pos, 2
  {
    match At(ev, pos)
    case Error(_) => Panic
    case Eof => Done(None, Next(ev, pos))
    case End(n) => if n == GENE_COMMENTARY then Done(Some(c), pos + 1) else GeneCommentaryLoop(ev, pos + 1, c)
    case Start(n, _) =>
      (match CommentaryChild(ev, pos + 1, n, c)
       case Done(c', q) => GeneCommentaryLoop(ev, q, c')
       case Panic => Panic
       case Hang => Hang)
    case _ => GeneCommentaryLoop(ev, pos + 1, c)
  }

  /**
   * `read_vec_node::<GeneCommentary>` up to the End named `end`: the list
   * collector with the commentary reader called directly, since it is in
   * the same recursion; `CommentaryVecIsCollector` shows it is the generic
   * collector.
   */
  function CommentaryVecLoop(ev: seq<Event>, pos: nat, end: string, items: seq<GeneCommentary>): (p: Parse<seq<GeneCommentary>>)
    requires pos <= |ev|
    ensures Advances(ev, pos, p)
    ensures p.Done? ==> items <= p.value
    decreases |ev| - pos, 0
  {
    match At(ev, pos)
    case Error(_) => Panic
    case Eof => Done(items, Next(ev, pos))
    case End(n) =>
      if Element.IsEnd(n, end) then Done(items, pos + 1) else CommentaryVecLoop(ev, pos + 1, end, items)
    case Start(n, _) =>
      if n == GENE_COMMENTARY then
        match GeneCommentaryLoop(ev, pos + 1, InitialCommentary)
        case Panic => Panic
        case Hang => Hang
        case Done(v, q) => CommentaryVecLoop(ev, q, end, if v.Some? then items + [v.value] else items)
      else CommentaryVecLoop(ev, pos + 1, end, items)
    case _ => CommentaryVecLoop(ev, pos + 1, end, items)
  }

  lemma {:induction false} CommentaryVecIsCollector(ev: seq<Event>, pos: nat, end: string, items: seq<GeneCommentary>)
    requires pos <= |ev|
    ensures CommentaryVecLoop(ev, pos, end, items)
      == Element.CollectLoop(ev, pos, GENE_COMMENTARY, end, CommentaryItem(ev), items)
    decreases |ev| - pos
  {
    if pos < |ev| {
      match ev[pos]
      case Start(n, _) =>
        if n == GENE_COMMENTARY {
          var r := GeneCommentaryLoop(ev, pos + 1, InitialCommentary);
          if r.Done? {
            CommentaryVecIsCollector(ev, r.next, end, if r.value.Some? then items + [r.value.value] else items);
          }
        } else {
          CommentaryVecIsCollector(ev, pos + 1, end, items);
        }
      case End(n) =>
        if !Element.IsEnd(n, end) {
          CommentaryVecIsCollector(ev, pos + 1, end, items);
        }
      case Error(_) =>
      case Eof =>
      case Text(_) =>
        CommentaryVecIsCollector(ev, pos + 1, end, items);
      case Other =>
        CommentaryVecIsCollector(ev, pos + 1, end, items);
    }
  }

  /** A `refs` child fills `comment` with the commentaries it holds and leaves `refs` unset. */
  lemma RefsFillComment(ev: seq<Event>, p: nat, c: GeneCommentary)
    requires p <= |ev|
    ensures var r := CommentaryChild(ev, p, "Gene-commentary_refs", c);
      r.Done? ==> r.value == c.(comment := Some(CommentaryVecLoop(ev, p, "Gene-commentary_refs", []).value))
    ensures var r := CommentaryChild(ev, p, "refs", c);
      r.Done? ==> r.value == c.(comment := Some(CommentaryVecLoop(ev, p, "refs", []).value))
  {
    assert CommentaryTagOf("Gene-commentary_refs") == Some(Refs);
    assert CommentaryTagOf("refs") == Some(Refs);
  }

  // ----------------------------------------------------------------------
  // Entrezgene
  // ----------------------------------------------------------------------

  /** The members of `Entrezgene` that a child tag fills. */
  datatype GeneTag =
    | TrackInfo
    | GeneType
    | Source
    | Gene
    | Prot
    | Rna
    | Summary
    | Location
    | GeneSourceTag
    | Locus
    | Properties
    | Comments
    | UniqueKeys
    | XtraIndexTerms
    | XtraProperties
    | XtraIq
    | NonUniqueKeys

  /** The bare tag name of a member. */
  function BareTag(f: GeneTag): string
  {
    match f
    case TrackInfo => "track-info"
    case GeneType => "type"
    case Source => "source"
    case Gene => "gene"
    case Prot => "prot"
    case Rna => "rna"
    case Summary => "summary"
    case Location => "location"
    case GeneSourceTag => "gene-source"
    case Locus => "locus"
    case Properties => "properties"
    case Comments => "comments"
    case UniqueKeys => "unique-keys"
    case XtraIndexTerms => "xtra-index-terms"
    case XtraProperties => "xtra-properties"
    case XtraIq => "xtra-iq"
    case NonUniqueKeys => "non-unique-keys"
  }

  /** The tag name prefixed with `Entrezgene_`. */
  function PrefixedTag(f: GeneTag): string
  {
    match f
    case TrackInfo => "Entrezgene_track-info"
    case GeneType => "Entrezgene_type"
    case Source => "Entrezgene_source"
    case Gene => "Entrezgene_gene"
    case Prot => "Entrezgene_prot"
    case Rna => "Entrezgene_rna"
    case Summary => "Entrezgene_summary"
    case Location => "Entrezgene_location"
    case GeneSourceTag => "Entrezgene_gene-source"
    case Locus => "Entrezgene_locus"
    case Properties => "Entrezgene_properties"
    case Comments => "Entrezgene_comments"
    case UniqueKeys => "Entrezgene_unique-keys"
    case XtraIndexTerms => "Entrezgene_xtra-index-terms"
    case XtraProperties => "Entrezgene_xtra-properties"
    case XtraIq => "Entrezgene_xtra-iq"
    case NonUniqueKeys => "Entrezgene_non-unique-keys"
  }

  /** The arms of the dispatch that match a bare tag name (all lower case). */
  function BareGeneTag(n: string): (r: Option<GeneTag>)
    ensures r == Some(GeneTag.TrackInfo) <==> n == "track-info"
    ensures r == Some(GeneTag.GeneType) <==> n == "type"
    ensures r == Some(GeneTag.Source) <==> n == "source"
    ensures r == Some(GeneTag.Gene) <==> n == "gene"
    ensures r == Some(GeneTag.Prot) <==> n == "prot"
    ensures r == Some(GeneTag.Rna) <==> n == "rna"
    ensures r == Some(GeneTag.Summary) <==> n == "summary"
    ensures r == Some(GeneTag.Location) <==> n == "location"
    ensures r == Some(GeneTag.GeneSourceTag) <==> n == "gene-source"
    ensures r == Some(GeneTag.Locus) <==> n == "locus"
    ensures r == Some(GeneTag.Properties) <==> n == "properties"
    ensures r == Some(GeneTag.Comments) <==> n == "comments"
    ensures r == Some(GeneTag.UniqueKeys) <==> n == "unique-keys"
    ensures r == Some(GeneTag.XtraIndexTerms) <==> n == "xtra-index-terms"
    ensures r == Some(GeneTag.XtraProperties) <==> n == "xtra-properties"
    ensures r == Some(GeneTag.XtraIq) <==> n == "xtra-iq"
    ensures r == Some(GeneTag.NonUniqueKeys) <==> n == "non-unique-keys"
    ensures r.Some? ==> |n| > 0 && 'a' <= n[0] <= 'z'
  {
    if n == "track-info" then Some(GeneTag.TrackInfo)
    else if n == "type" then Some(GeneTag.GeneType)
    else if n == "source" then Some(GeneTag.Source)
    else if n == "gene" then Some(GeneTag.Gene)
    else if n == "prot" then Some(GeneTag.Prot)
    else if n == "rna" then Some(GeneTag.Rna)
    else if n == "summary" then Some(GeneTag.Summary)
    else if n == "location" then Some(GeneTag.Location)
    else if n == "gene-source" then Some(GeneTag.GeneSourceTag)
    else if n == "locus" then Some(GeneTag.Locus)
    else if n == "properties" then Some(GeneTag.Properties)
    else if n == "comments" then Some(GeneTag.Comments)
    else if n == "unique-keys" then Some(GeneTag.UniqueKeys)
    else if n == "xtra-index-terms" then Some(GeneTag.XtraIndexTerms)
    else if n == "xtra-properties" then Some(GeneTag.XtraProperties)
    else if n == "xtra-iq" then Some(GeneTag.XtraIq)
    else if n == "non-unique-keys" then Some(GeneTag.NonUniqueKeys)
    else None
  }

  /** The arms of the dispatch that match an `Entrezgene_` tag name; `rna` has none. */
  function PrefixedGeneTag(n: string): (r: Option<GeneTag>)
    ensures r == Some(GeneTag.TrackInfo) <==> n == "Entrezgene_track-info"
    ensures r == Some(GeneTag.GeneType) <==> n == "Entrezgene_type"
    ensures r == Some(GeneTag.Source) <==> n == "Entrezgene_source"
    ensures r == Some(GeneTag.Gene) <==> n == "Entrezgene_gene"
    ensures r == Some(GeneTag.Prot) <==> n == "Entrezgene_prot"
    ensures r == Some(GeneTag.Summary) <==> n == "Entrezgene_summary"
    ensures r == Some(GeneTag.Location) <==> n == "Entrezgene_location"
    ensures r == Some(GeneTag.GeneSourceTag) <==> n == "Entrezgene_gene-source"
    ensures r == Some(GeneTag.Locus) <==> n == "Entrezgene_locus"
    ensures r == Some(GeneTag.Properties) <==> n == "Entrezgene_properties"
    ensures r == Some(GeneTag.Comments) <==> n == "Entrezgene_comments"
    ensures r == Some(GeneTag.UniqueKeys) <==> n == "Entrezgene_unique-keys"
    ensures r == Some(GeneTag.XtraIndexTerms) <==> n == "Entrezgene_xtra-index-terms"
    ensures r == Some(GeneTag.XtraProperties) <==> n == "Entrezgene_xtra-properties"
    ensures r == Some(GeneTag.XtraIq) <==> n == "Entrezgene_xtra-iq"
    ensures r == Some(GeneTag.NonUniqueKeys) <==> n == "Entrezgene_non-unique-keys"
    ensures r.Some? ==> |n| > 0 && n[0] == 'E'
  {
    if n == "Entrezgene_track-info" then Some(GeneTag.TrackInfo)
    else if n == "Entrezgene_type" then Some(GeneTag.GeneType)
    else if n == "Entrezgene_source" then Some(GeneTag.Source)
    else if n == "Entrezgene_gene" then Some(GeneTag.Gene)
    else if n == "Entrezgene_prot" then Some(GeneTag.Prot)
    else if n == "Entrezgene_summary" then Some(GeneTag.Summary)
    else if n == "Entrezgene_location" then Some(GeneTag.Location)
    else if n == "Entrezgene_gene-source" then Some(GeneTag.GeneSourceTag)
    else if n == "Entrezgene_locus" then Some(GeneTag.Locus)
    else if n == "Entrezgene_properties" then Some(GeneTag.Properties)
    else if n == "Entrezgene_comments" then Some(GeneTag.Comments)
    else if n == "Entrezgene_unique-keys" then Some(GeneTag.UniqueKeys)
    else if n == "Entrezgene_xtra-index-terms" then Some(GeneTag.XtraIndexTerms)
    else if n == "Entrezgene_xtra-properties" then Some(GeneTag.XtraProperties)
    else if n == "Entrezgene_xtra-iq" then Some(GeneTag.XtraIq)
    else if n == "Entrezgene_non-unique-keys" then Some(GeneTag.NonUniqueKeys)
    else None
  }

  /**
   * The member a Start tag fills: either spelling names it, except that
   * `rna` is recognised only bare; `refgene` and `homology` have no branch.
   * The arms are tried bare names first; no name is both bare and prefixed,
   * so the order is immaterial.
   */
  function GeneTagOf(n: string): (f: Option<GeneTag>)
    ensures f.Some? ==> n == BareTag(f.value) || (f.value != GeneTag.Rna && n == PrefixedTag(f.value))
  {
    if BareGeneTag(n).Some? then BareGeneTag(n) else PrefixedGeneTag(n)
  }

  /** Every member is reached by its bare name and, except `rna`, by its prefixed name. */
  lemma GeneTagNames(f: GeneTag)
    ensures GeneTagOf(BareTag(f)) == Some(f)
    ensures f != GeneTag.Rna ==> GeneTagOf(PrefixedTag(f)) == Some(f)
    ensures f == GeneTag.Rna ==> GeneTagOf(PrefixedTag(f)) == None
  {
  }

  /** `refgene` and `homology` are not dispatched, in either spelling. */
  lemma UndispatchedGeneTags()
    ensures GeneTagOf("refgene") == None && GeneTagOf("Entrezgene_refgene") == None
    ensures GeneTagOf("homology") == None && GeneTagOf("Entrezgene_homology") == None
  {
  }

  /** The tags the `Entrezgene` watchdog knows about: they are passed over. */
  predicate KnownUnparsedGeneTag(n: string)
  {
    n == "extra-field" || n == "other-field"
  }

  /** `e` and `g` hold the same value for the member `f`. */
  predicate Agree(e: Entrezgene, g: Entrezgene, f: GeneTag)
  {
    match f
    case TrackInfo => e.trackInfo == g.trackInfo
    case GeneType => e.geneType == g.geneType
    case Source => e.source == g.source
    case Gene => e.gene == g.gene
    case Prot => e.prot == g.prot
    case Rna => e.rna == g.rna
    case Summary => e.summary == g.summary
    case Location => e.location == g.location
    case GeneSourceTag => e.geneSource == g.geneSource
    case Locus => e.locus == g.locus
    case Properties => e.properties == g.properties
    case Comments => e.comments == g.comments
    case UniqueKeys => e.uniqueKeys == g.uniqueKeys
    case XtraIndexTerms => e.xtraIndexTerms == g.xtraIndexTerms
    case XtraProperties => e.xtraProperties == g.xtraProperties
    case XtraIq => e.xtraIq == g.xtraIq
    case NonUniqueKeys => e.nonUniqueKeys == g.nonUniqueKeys
  }

  /** `g` with its member `f` taken from `e`. */
  function Splice(g: Entrezgene, f: GeneTag, e: Entrezgene): Entrezgene
  {
    match f
    case TrackInfo => g.(trackInfo := e.trackInfo)
    case GeneType => g.(geneType := e.geneType)
    case Source => g.(source := e.source)
    case Gene => g.(gene := e.gene)
    case Prot => g.(prot := e.prot)
    case Rna => g.(rna := e.rna)
    case Summary => g.(summary := e.summary)
    case Location => g.(location := e.location)
    case GeneSourceTag => g.(geneSource := e.geneSource)
    case Locus => g.(locus := e.locus)
    case Properties => g.(properties := e.properties)
    case Comments => g.(comments := e.comments)
    case UniqueKeys => g.(uniqueKeys := e.uniqueKeys)
    case XtraIndexTerms => g.(xtraIndexTerms := e.xtraIndexTerms)
    case XtraProperties => g.(xtraProperties := e.xtraProperties)
    case XtraIq => g.(xtraIq := e.xtraIq)
    case NonUniqueKeys => g.(nonUniqueKeys := e.nonUniqueKeys)
  }

  /**
   * `e` differs from `g` at most in the member `f`: it is `g` with that one
   * member replaced (so `refgene` and `homology` are the same).
   */
  predicate OnlyChanges(e: Entrezgene, g: Entrezgene, f: GeneTag)
  {
    e == Splice(g, f, e)
  }

  /** A record that only changes `f` agrees with the original on every other member. */
  lemma OnlyChangesAgree(e: Entrezgene, g: Entrezgene, f: GeneTag, h: GeneTag)
    requires OnlyChanges(e, g, f) && h != f
    ensures Agree(e, g, h) && e.refgene == g.refgene && e.homology == g.homology
  {
  }

  /** Reading the member `f` from right after its Start named `n`. */
  function GeneMember(ev: seq<Event>, p: nat, n: string, f: GeneTag, g: Entrezgene): (r: Parse<Entrezgene>)
    requires p <= |ev|
    ensures Advances(ev, p, r)
    ensures r.Done? ==> OnlyChanges(r.value, g, f)
    ensures r.Done? ==> r.value.refgene == g.refgene && r.value.homology == g.homology
  {
    match f
    case TrackInfo => MapParse(GeneTrackLoop(ev, p, DefaultGeneTrack), (o: Option<GeneTrack>) => g.(trackInfo := o))
    case GeneType =>
      MapParse(ParsingUtils.ReadStringSpec(ev, p), (o: Option<string>) => g.(geneType := EntrezgeneTypeOf(TypeText(o))))
    case Source => MapParse(ReadOpaqueSpec(ev, p, BIO_SOURCE), (o: Option<Opaque>) => g.(source := o))
    case Gene => MapParse(Unwrap(ReadOpaqueSpec(ev, p, GENE_REF)), (x: Opaque) => g.(gene := Some(x)))
    case Prot => MapParse(ReadOpaqueSpec(ev, p, PROT_REF), (o: Option<Opaque>) => g.(prot := o))
    case Rna => Done(g.(rna := Some(DefaultRnaRef)), p)
    case Summary => MapParse(ParsingUtils.ReadStringSpec(ev, p), (o: Option<string>) => g.(summary := o))
    case Location => MapParse(Element.CollectLoop(ev, p, MAPS, n, MapsItem(ev), []), (l: seq<Maps>) => g.(location := Some(l)))
    case GeneSourceTag => MapParse(GeneSourceLoop(ev, p, DefaultGeneSource), (o: Option<GeneSource>) => g.(geneSource := o))
    case Locus =>
      MapParse(Element.CollectLoop(ev, p, GENE_COMMENTARY, n, CommentaryItem(ev), []), (l: seq<GeneCommentary>) => g.(locus := Some(l)))
    case Properties =>
      MapParse(Element.CollectLoop(ev, p, GENE_COMMENTARY, n, CommentaryItem(ev), []), (l: seq<GeneCommentary>) => g.(properties := Some(l)))
    case Comments =>
      MapParse(Element.CollectLoop(ev, p, GENE_COMMENTARY, n, CommentaryItem(ev), []), (l: seq<GeneCommentary>) => g.(comments := Some(l)))
    case UniqueKeys =>
      MapParse(Element.CollectLoop(ev, p, DBTAG, n, OpaqueItem(ev, DBTAG), []), (l: seq<Opaque>) => g.(uniqueKeys := Some(l)))
    case XtraIndexTerms =>
      MapParse(Element.CollectLoop(ev, p, STRING, n, StringItem(ev), []), (l: seq<string>) => g.(xtraIndexTerms := Some(l)))
    case XtraProperties =>
      MapParse(Element.CollectLoop(ev, p, XTRA_TERMS, n, XtraItem(ev), []), (l: seq<XtraTerms>) => g.(xtraProperties := Some(l)))
    case XtraIq =>
      MapParse(Element.CollectLoop(ev, p, XTRA_TERMS, n, XtraItem(ev), []), (l: seq<XtraTerms>) => g.(xtraIq := Some(l)))
    case NonUniqueKeys =>
      MapParse(Element.CollectLoop(ev, p, DBTAG, n, OpaqueItem(ev, DBTAG), []), (l: seq<Opaque>) => g.(nonUniqueKeys := Some(l)))
  }

  /**
   * One child of `Entrezgene`: a dispatched tag reads its member; any other
   * tag goes to the watchdog, which passes over `extra-field` and
   * `other-field` and panics on everything else.
   */
  function GeneChild(ev: seq<Event>, p: nat, n: string, g: Entrezgene): (r: Parse<Entrezgene>)
    requires p <= |ev|
    ensures Advances(ev, p, r)
    ensures GeneTagOf(n).None? ==> r == if KnownUnparsedGeneTag(n) then Done(g, p) else Panic
    ensures GeneTagOf(n).Some? && r.Done? ==> OnlyChanges(r.value, g, GeneTagOf(n).value)
    ensures r.Done? ==> r.value.refgene == g.refgene && r.value.homology == g.homology
  {
    match GeneTagOf(n)
    case None => if KnownUnparsedGeneTag(n) then Done(g, p) else Panic
    case Some(f) => GeneMember(ev, p, n, f, g)
  }

  /**
   * The loop of `Entrezgene::from_reader`: End `Entrezgene` returns the
   * record, Eof gives None. `refgene` and `homology` are never filled.
   */
  function EntrezgeneLoop(ev: seq<Event>, pos: nat, g: Entrezgene): (p: Parse<Option<Entrezgene>>)
    requires pos <= |ev|
    ensures Advances(ev, pos, p)
    ensures p.Done? ==> EndsWith(ev, pos, p.next, p.value.Some?, ENTREZGENE)
    ensures p.Done? && p.value.Some? ==> p.value.value.refgene == g.refgene && p.value.value.homology == g.homology
    decreases |ev| - pos
  {
    match At(ev, pos)
    case Error(_) => Panic
    case Eof => Done(None, Next(ev, pos))
    case End(n) => if n == ENTREZGENE then Done(Some(g), pos + 1) else EntrezgeneLoop(ev, pos + 1, g)
    case Start(n, _) =>
      (match GeneChild(ev, pos + 1, n, g)
       case Done(g', q) => EntrezgeneLoop(ev, q, g')
       case Panic => Panic
       case Hang => Hang)
    case _ => EntrezgeneLoop(ev, pos + 1, g)
  }

  /** No Start event in `ev[lo..hi]` names the member `f`. */
  predicate NoTagFor(ev: seq<Event>, lo: nat, hi: nat, f: GeneTag)
    requires lo <= hi <= |ev|
  {
    forall j :: lo <= j < hi && ev[j].Start? ==> GeneTagOf(ev[j].name) != Some(f)
  }

  /** Agreeing on a member is transitive. */
  lemma AgreeTrans(a: Entrezgene, b: Entrezgene, c: Entrezgene, f: GeneTag)
    requires Agree(a, b, f) && Agree(b, c, f)
    ensures Agree(a, c, f)
  {
  }

  /** A child whose tag does not name `f` leaves `f` as it was. */
  lemma ChildKeeps(ev: seq<Event>, p: nat, n: string, g: Entrezgene, f: GeneTag)
    requires p <= |ev| && GeneTagOf(n) != Some(f)
    ensures GeneChild(ev, p, n, g).Done? ==> Agree(GeneChild(ev, p, n, g).value, g, f)
  {
    var r := GeneChild(ev, p, n, g);
    if r.Done? && GeneTagOf(n).Some? {
      OnlyChangesAgree(r.value, g, GeneTagOf(n).value, f);
    }
  }

  /** A member whose tag never starts among the events read keeps its starting value. */
  lemma {:induction false} UntouchedMemberKept(ev: seq<Event>, pos: nat, g: Entrezgene, f: GeneTag)
    requires pos <= |ev|
    ensures var p := EntrezgeneLoop(ev, pos, g);
      p.Done? && p.value.Some? && NoTagFor(ev, pos, p.next, f) ==> Agree(p.value.value, g, f)
    decreases |ev| - pos, 1
  {
    var p := EntrezgeneLoop(ev, pos, g);
    if p.Done? && p.value.Some? && NoTagFor(ev, pos, p.next, f) {
      var e := At(ev, pos);
      if e.Start? {
        UntouchedAfterStart(ev, pos, g, f);
      } else if !(e.End? && e.name == ENTREZGENE) {
        UntouchedAfterOther(ev, pos, g, f);
      }
    }
  }

  /** The step of `UntouchedMemberKept` at an event that is neither a Start nor the closing End. */
  lemma {:induction false} UntouchedAfterOther(ev: seq<Event>, pos: nat, g: Entrezgene, f: GeneTag)
    requires pos < |ev| && !ev[pos].Start? && !ev[pos].Error? && !ev[pos].Eof?
    requires !(ev[pos].End? && ev[pos].name == ENTREZGENE)
    ensures var p := EntrezgeneLoop(ev, pos, g);
      p.Done? && p.value.Some? && NoTagFor(ev, pos, p.next, f) ==> Agree(p.value.value, g, f)
    decreases |ev| - pos, 0
  {
    var p := EntrezgeneLoop(ev, pos, g);
    LoopSkips(ev, pos, g);
    if p.Done? && p.value.Some? && NoTagFor(ev, pos, p.next, f) {
      NarrowNoTag(ev, pos, pos + 1, p.next, f);
      UntouchedMemberKept(ev, pos + 1, g, f);
    }
  }

  /** The loop passes over an event that is neither a Start nor the closing End. */
  lemma LoopSkips(ev: seq<Event>, pos: nat, g: Entrezgene)
    requires pos < |ev| && !ev[pos].Start? && !ev[pos].Error? && !ev[pos].Eof?
    requires !(ev[pos].End? && ev[pos].name == ENTREZGENE)
    ensures EntrezgeneLoop(ev, pos, g) == EntrezgeneLoop(ev, pos + 1, g)
  {
  }

  lemma NarrowNoTag(ev: seq<Event>, lo: nat, lo': nat, hi: nat, f: GeneTag)
    requires lo <= lo' <= hi <= |ev| && NoTagFor(ev, lo, hi, f)
    ensures NoTagFor(ev, lo', hi, f)
  {
  }

  /** The step of `UntouchedMemberKept` at a Start event. */
  lemma {:induction false} UntouchedAfterStart(ev: seq<Event>, pos: nat, g: Entrezgene, f: GeneTag)
    requires pos < |ev| && ev[pos].Start?
    ensures var p := EntrezgeneLoop(ev, pos, g);
      p.Done? && p.value.Some? && NoTagFor(ev, pos, p.next, f) ==> Agree(p.value.value, g, f)
    decreases |ev| - pos, 0
  {
    var p := EntrezgeneLoop(ev, pos, g);
    if p.Done? && p.value.Some? && NoTagFor(ev, pos, p.next, f) {
      var n := ev[pos].name;
      var r := GeneChild(ev, pos + 1, n, g);
      assert r.Done? && EntrezgeneLoop(ev, r.next, r.value) == p;
      ChildKeeps(ev, pos + 1, n, g, f);
      UntouchedMemberKept(ev, r.next, r.value, f);
      AgreeTrans(p.value.value, r.value, g, f);
    }
  }

  // ----------------------------------------------------------------------
  // Entrezgene-Set
  // ----------------------------------------------------------------------

  /**
   * The loop of `Vec<Entrezgene>::from_reader`: each `Entrezgene` read is
   * appended, a failed one skipped; any other Start panics (the watchdog
   * allows nothing); End `Entrezgene-Set` returns the list, Eof gives None.
   */
  function EntrezgeneSetLoop(ev: seq<Event>, pos: nat, genes: seq<Entrezgene>): (p: Parse<Option<seq<Entrezgene>>>)
    requires pos <= |ev|
    ensures Advances(ev, pos, p)
    ensures p.Done? ==> EndsWith(ev, pos, p.next, p.value.Some?, ENTREZGENE_SET)
    ensures p.Done? && p.value.Some? ==> genes <= p.value.value
    decreases |ev| - pos
  {
    match At(ev, pos)
    case Error(_) => Panic
    case Eof => Done(None, Next(ev, pos))
    case End(n) => if n == ENTREZGENE_SET then Done(Some(genes), pos + 1) else EntrezgeneSetLoop(ev, pos + 1, genes)
    case Start(n, _) =>
      if n == ENTREZGENE then
        match EntrezgeneLoop(ev, pos + 1, InitialGene)
        case Done(v, q) => EntrezgeneSetLoop(ev, q, if v.Some? then genes + [v.value] else genes)
        case Panic => Panic
        case Hang => Hang
      else Panic
    case _ => EntrezgeneSetLoop(ev, pos + 1, genes)
  }

  // ----------------------------------------------------------------------
  // Reader methods
  // ----------------------------------------------------------------------

  /** `read_string(..).unwrap().parse::<u64>().unwrap()`. */
  method ReadU64(r: Reader) returns (res: Parse<nat>)
    requires r.Valid()
    modifies r
    ensures r.Valid() && res == ReadU64Text(r.events, old(r.pos))
    ensures res.Done? ==> r.pos == res.next
  {
    var s := ParsingUtils.ReadString(r);
    match s {
      case Done(Some(text), q) =>
        match ParseU64(text) {
          case Some(v) => return Done(v as nat, q);
          case None => return Panic;
        }
      case Done(None, _) => return Panic;
      case Panic => return Panic;
      case Hang => return Hang;
    }
  }

  /** `read_gene_track_status`. */
  method GeneTrackStatusFromReader(r: Reader) returns (res: Parse<Option<GeneTrackStatus>>)
    requires r.Valid()
    modifies r
    ensures r.Valid() && res == ReadGeneTrackStatus(r.events, old(r.pos))
    ensures res.Done? ==> r.pos == res.next
  {
    var s := ParsingUtils.ReadString(r);
    match s {
      case Done(Some(text), q) => return Done(Some(GeneTrackStatusOf(text)), q);
      case Done(None, q) => return Done(None, q);
      case Panic => return Panic;
      case Hang => return Hang;
    }
  }

  method GeneTrackChildFromReader(r: Reader, n: string, t: GeneTrack) returns (res: Parse<GeneTrack>)
    requires r.Valid()
    modifies r
    ensures r.Valid() && res == GeneTrackChild(r.events, old(r.pos), n, t)
    ensures res.Done? ==> r.pos == res.next
  {
    if n == "geneid" || n == "Gene-track_geneid" {
      var v := ReadU64(r);
      res := MapParse(v, (x: nat) => t.(geneid := x));
    } else if n == "status" || n == "Gene-track_status" {
      var s := GeneTrackStatusFromReader(r);
      res := MapParse(Unwrap(s), (x: GeneTrackStatus) => t.(status := x));
    } else if n == "current-id" || n == "Gene-track_current-id" {
      var ids := Element.VecFromReader(r, DBTAG, Some(n), OpaqueItem(r.events, DBTAG));
      res := MapParse(ids, (x: seq<Opaque>) => t.(currentId := Some(x)));
    } else if n == "create-date" || n == "Gene-track_create-date" {
      var d := ReadOpaque(r, DATE);
      res := MapParse(Unwrap(d), (x: Opaque) => t.(createDate := Some(x)));
    } else if n == "update-date" || n == "Gene-track_update-date" {
      var d := ReadOpaque(r, DATE);
      res := MapParse(Unwrap(d), (x: Opaque) => t.(updateDate := Some(x)));
    } else if n == "discontinue-date" || n == "Gene-track_discontinue-date" {
      var d := ReadOpaque(r, DATE);
      res := MapParse(d, (x: Option<Opaque>) => t.(discontinueDate := x));
    } else {
      res := Done(t, r.pos);
    }
  }

  /** `GeneTrack::from_reader`. */
  method GeneTrackFromReader(r: Reader) returns (res: Parse<Option<GeneTrack>>)
    requires r.Valid()
    modifies r
    ensures r.Valid() && res == GeneTrackLoop(r.events, old(r.pos), DefaultGeneTrack)
    ensures res.Done? ==> r.pos == res.next
  {
    var track := DefaultGeneTrack;
    while true
      invariant r.Valid()
      invariant GeneTrackLoop(r.events, r.pos, track) == GeneTrackLoop(r.events, old(r.pos), DefaultGeneTrack)
      decreases |r.events| - r.pos
    {
      var e := r.ReadEvent();
      match e {
        case Error(_) => return Panic;
        case Eof => return Done(None, r.pos);
        case End(n) =>
          if n == GENE_TRACK {
            return Done(Some(track), r.pos);
          }
        case Start(n, _) =>
          var c := GeneTrackChildFromReader(r, n, track);
          match c {
            case Done(t, _) => track := t;
            case Panic => return Panic;
            case Hang => return Hang;
          }
        case _ =>
      }
    }
  }

  /** `GeneSource::from_reader`. */
  method GeneSourceFromReader(r: Reader) returns (res: Parse<Option<GeneSource>>)
    requires r.Valid()
    modifies r
    ensures r.Valid() && res == GeneSourceLoop(r.events, old(r.pos), DefaultGeneSource)
    ensures res.Done? ==> r.pos == res.next
  {
    var source := DefaultGeneSource;
    while true
      invariant r.Valid()
      invariant GeneSourceLoop(r.events, r.pos, source) == GeneSourceLoop(r.events, old(r.pos), DefaultGeneSource)
      decreases |r.events| - r.pos
    {
      var e := r.ReadEvent();
      match e {
        case Error(_) => return Panic;
        case Eof => return Done(None, r.pos);
        case End(n) =>
          if n == GENE_SOURCE {
            return Done(Some(source), r.pos);
          }
        case Start(n, _) =>
          var c: Parse<GeneSource>;
          if n == "Src" {
            var s := ParsingUtils.ReadString(r);
            c := MapParse(s, (o: Option<string>) => source.(src := o.UnwrapOr("")));
          } else if n == "SrcInt" {
            var i := ParsingUtils.ReadInt(r, 0, U64_MAX);
            c := MapParse(i, (o: Option<int>) => source.(srcInt := o));
          } else if n == "SrcStr1" {
            var s := ParsingUtils.ReadString(r);
            c := MapParse(s, (o: Option<string>) => source.(srcStr1 := o));
          } else if n == "SrcStr2" {
            var s := ParsingUtils.ReadString(r);
            c := MapParse(s, (o: Option<string>) => source.(srcStr2 := o));
          } else {
            c := Done(source, r.pos);
          }
          match c {
            case Done(s', _) => source := s';
            case Panic => return Panic;
            case Hang => return Hang;
          }
        case _ =>
      }
    }
  }

  /** `OtherSource::from_reader`: loops until End `OtherSource`, with no Eof check. */
  method OtherSourceFromReader(r: Reader) returns (res: Parse<Option<OtherSource>>)
    requires r.Valid()
    modifies r
    ensures r.Valid() && res == OtherSourceLoop(r.events, old(r.pos), DefaultOtherSource)
    ensures res.Done? ==> r.pos == res.next
  {
    var source := DefaultOtherSource;
    while true
      invariant r.Valid()
      invariant OtherSourceLoop(r.events, r.pos, source) == OtherSourceLoop(r.events, old(r.pos), DefaultOtherSource)
      decreases |r.events| - r.pos
    {
      if r.pos == |r.events| {
        // Past the end the reader answers Eof for ever, which the loop ignores.
        return Hang;
      }
      var e := r.ReadEvent();
      match e {
        case Error(_) => return Panic;
        case End(n) =>
          if n == OTHER_SOURCE {
            return Done(Some(source), r.pos);
          }
        case Start(n, _) =>
          var c: Parse<OtherSource>;
          if n == "src" {
            var d := ReadOpaque(r, DBTAG);
            c := MapParse(d, (o: Option<Opaque>) => source.(src := o));
          } else if n == "pre-text" {
            var s := ParsingUtils.ReadString(r);
            c := MapParse(s, (o: Option<string>) => source.(preText := o));
          } else if n == "anchor" {
            var s := ParsingUtils.ReadString(r);
            c := MapParse(s, (o: Option<string>) => source.(anchor := o));
          } else if n == "url" {
            var s := ParsingUtils.ReadString(r);
            c := MapParse(s, (o: Option<string>) => source.(url := o));
          } else if n == "post-text" {
            var s := ParsingUtils.ReadString(r);
            c := MapParse(s, (o: Option<string>) => source.(postText := o));
          } else {
            var warnings, outcome := Unexpected.UnexpectedTags([]).Check(n);
            assert outcome == Panics;
            return Panic;
          }
          match c {
            case Done(s', _) => source := s';
            case Panic => return Panic;
            case Hang => return Hang;
          }
        case _ =>
      }
    }
  }

  /** `GeneCommentary::from_reader`. */
  method GeneCommentaryFromReader(r: Reader) returns (res: Parse<Option<GeneCommentary>>)
    requires r.Valid()
    modifies r
    ensures r.Valid() && res == GeneCommentaryLoop(r.events, old(r.pos), InitialCommentary)
    ensures res.Done? ==> r.pos == res.next
    decreases |r.events| - r.pos, 2
  {
    var commentary := InitialCommentary;
    while true
      invariant r.Valid() && r.pos >= old(r.pos)
      invariant GeneCommentaryLoop(r.events, r.pos, commentary) == GeneCommentaryLoop(r.events, old(r.pos), InitialCommentary)
      decreases |r.events| - r.pos
    {
      var e := r.ReadEvent();
      match e {
        case Error(_) => return Panic;
        case Eof => return Done(None, r.pos);
        case End(n) =>
          if n == GENE_COMMENTARY {
            return Done(Some(commentary), r.pos);
          }
        case Start(n, _) =>
          var c := CommentaryChildFromReader(r, n, commentary);
          match c {
            case Done(c', _) => commentary := c';
            case Panic => return Panic;
            case Hang => return Hang;
          }
        case _ =>
      }
    }
  }

  /** One child of `Gene-commentary`; the watchdog allows only `unknown-tag`. */
  method CommentaryChildFromReader(r: Reader, n: string, c: GeneCommentary) returns (res: Parse<GeneCommentary>)
    requires r.Valid()
    modifies r
    ensures r.Valid() && res == CommentaryChild(r.events, old(r.pos), n, c)
    ensures res.Done? ==> r.pos == res.next
    decreases |r.events| - r.pos, 1
  {
    match CommentaryTagOf(n) {
      case None =>
        var warnings, outcome := Unexpected.UnexpectedTags(["unknown-tag"]).Check(n);
        if outcome == Panics {
          return Panic;
        }
        return Done(c, r.pos);
      case Some(Type) =>
        var s := ParsingUtils.ReadString(r);
        res := MapParse(s, (o: Option<string>) => c.(commentaryType := GeneCommentaryTypeOf(TypeText(o))));
      case Some(Heading) =>
        var s := ParsingUtils.ReadString(r);
        res := MapParse(s, (o: Option<string>) => c.(heading := o));
      case Some(Label) =>
        var s := ParsingUtils.ReadString(r);
        res := MapParse(s, (o: Option<string>) => c.(labelText := o));
      case Some(Text) =>
        var s := ParsingUtils.ReadString(r);
        res := MapParse(s, (o: Option<string>) => c.(text := o));
      case Some(Accession) =>
        var s := ParsingUtils.ReadString(r);
        res := MapParse(s, (o: Option<string>) => c.(accession := o));
      case Some(Version) =>
        var v := ReadU64(r);
        res := MapParse(v, (x: nat) => c.(version := Some(x)));
      case Some(XtraProps) =>
        var l := Element.VecFromReader(r, XTRA_TERMS, Some(n), XtraItem(r.events));
        res := MapParse(l, (x: seq<XtraTerms>) => c.(xtraProperties := Some(x)));
      case Some(Refs) =>
        var l := CommentaryVecFromReader(r, n);
        res := MapParse(l, (x: seq<GeneCommentary>) => c.(comment := Some(x)));
      case Some(Seqs) =>
        var l := Element.VecFromReader(r, SEQ_LOC, Some(n), OpaqueItem(r.events, SEQ_LOC));
        res := MapParse(l, (x: seq<Opaque>) => c.(seqs := Some(x)));
      case Some(SourceTag) =>
        var l := Element.VecFromReader(r, OTHER_SOURCE, Some(n), OtherSourceItem(r.events));
        res := MapParse(l, (x: seq<OtherSource>) => c.(source := Some(x)));
      case Some(GenomicCoords) =>
        var l := Element.VecFromReader(r, SEQ_LOC, Some(n), OpaqueItem(r.events, SEQ_LOC));
        res := MapParse(l, (x: seq<Opaque>) => c.(genomicCoords := Some(x)));
      case Some(Products) =>
        var l := CommentaryVecFromReader(r, n);
        res := MapParse(l, (x: seq<GeneCommentary>) => c.(products := Some(x)));
      case Some(Comment) =>
        var l := CommentaryVecFromReader(r, n);
        res := MapParse(l, (x: seq<GeneCommentary>) => c.(comment := Some(x)));
      case Some(CreateDate) =>
        var d := ReadOpaque(r, DATE);
        res := MapParse(d, (x: Option<Opaque>) => c.(createDate := x));
      case Some(UpdateDate) =>
        var d := ReadOpaque(r, DATE);
        res := MapParse(d, (x: Option<Opaque>) => c.(updateDate := x));
    }
  }

  /** `read_vec_node::<GeneCommentary>(reader, end)`. */
  method CommentaryVecFromReader(r: Reader, end: string) returns (res: Parse<seq<GeneCommentary>>)
    requires r.Valid()
    modifies r
    ensures r.Valid() && res == CommentaryVecLoop(r.events, old(r.pos), end, [])
    ensures res.Done? ==> r.pos == res.next
    decreases |r.events| - r.pos, 0
  {
    var items: seq<GeneCommentary> := [];
    while true
      invariant r.Valid() && r.pos >= old(r.pos)
      invariant CommentaryVecLoop(r.events, r.pos, end, items) == CommentaryVecLoop(r.events, old(r.pos), end, [])
      decreases |r.events| - r.pos
    {
      var e := r.ReadEvent();
      match e {
        case Error(_) => return Panic;
        case Eof => return Done(items, r.pos);
        case End(n) =>
          if Element.IsEnd(n, end) {
            return Done(items, r.pos);
          }
        case Start(n, _) =>
          if n == GENE_COMMENTARY {
            var v := GeneCommentaryFromReader(r);
            match v {
              case Panic => return Panic;
              case Hang => return Hang;
              case Done(x, _) =>
                if x.Some? {
                  items := items + [x.value];
                }
            }
          }
        case _ =>
      }
    }
  }

  /** Reads the member `f` of an `Entrezgene` right after its Start named `n`. */
  method GeneMemberFromReader(r: Reader, n: string, f: GeneTag, g: Entrezgene) returns (res: Parse<Entrezgene>)
    requires r.Valid()
    modifies r
    ensures r.Valid() && res == GeneMember(r.events, old(r.pos), n, f, g)
    ensures res.Done? ==> r.pos == res.next
  {
    match f {
      case TrackInfo =>
        var t := GeneTrackFromReader(r);
        res := MapParse(t, (o: Option<GeneTrack>) => g.(trackInfo := o));
      case GeneType =>
        var s := ParsingUtils.ReadString(r);
        res := MapParse(s, (o: Option<string>) => g.(geneType := EntrezgeneTypeOf(TypeText(o))));
      case Source =>
        var s := ReadOpaque(r, BIO_SOURCE);
        res := MapParse(s, (o: Option<Opaque>) => g.(source := o));
      case Gene =>
        var s := ReadOpaque(r, GENE_REF);
        res := MapParse(Unwrap(s), (x: Opaque) => g.(gene := Some(x)));
      case Prot =>
        var s := ReadOpaque(r, PROT_REF);
        res := MapParse(s, (o: Option<Opaque>) => g.(prot := o));
      case Rna =>
        res := Done(g.(rna := Some(DefaultRnaRef)), r.pos);
      case Summary =>
        var s := ParsingUtils.ReadString(r);
        res := MapParse(s, (o: Option<string>) => g.(summary := o));
      case Location =>
        var l := Element.VecFromReader(r, MAPS, Some(n), MapsItem(r.events));
        res := MapParse(l, (x: seq<Maps>) => g.(location := Some(x)));
      case GeneSourceTag =>
        var s := GeneSourceFromReader(r);
        res := MapParse(s, (o: Option<GeneSource>) => g.(geneSource := o));
      case Locus =>
        var l := Element.VecFromReader(r, GENE_COMMENTARY, Some(n), CommentaryItem(r.events));
        res := MapParse(l, (x: seq<GeneCommentary>) => g.(locus := Some(x)));
      case Properties =>
        var l := Element.VecFromReader(r, GENE_COMMENTARY, Some(n), CommentaryItem(r.events));
        res := MapParse(l, (x: seq<GeneCommentary>) => g.(properties := Some(x)));
      case Comments =>
        var l := Element.VecFromReader(r, GENE_COMMENTARY, Some(n), CommentaryItem(r.events));
        res := MapParse(l, (x: seq<GeneCommentary>) => g.(comments := Some(x)));
      case UniqueKeys =>
        var l := Element.VecFromReader(r, DBTAG, Some(n), OpaqueItem(r.events, DBTAG));
        res := MapParse(l, (x: seq<Opaque>) => g.(uniqueKeys := Some(x)));
      case XtraIndexTerms =>
        var l := Element.VecFromReader(r, STRING, Some(n), StringItem(r.events));
        res := MapParse(l, (x: seq<string>) => g.(xtraIndexTerms := Some(x)));
      case XtraProperties =>
        var l := Element.VecFromReader(r, XTRA_TERMS, Some(n), XtraItem(r.events));
        res := MapParse(l, (x: seq<XtraTerms>) => g.(xtraProperties := Some(x)));
      case XtraIq =>
        var l := Element.VecFromReader(r, XTRA_TERMS, Some(n), XtraItem(r.events));
        res := MapParse(l, (x: seq<XtraTerms>) => g.(xtraIq := Some(x)));
      case NonUniqueKeys =>
        var l := Element.VecFromReader(r, DBTAG, Some(n), OpaqueItem(r.events, DBTAG));
        res := MapParse(l, (x: seq<Opaque>) => g.(nonUniqueKeys := Some(x)));
    }
  }

  /** The dispatch of `Entrezgene::from_reader` on the Start named `n` it has just read. */
  method GeneChildFromReader(r: Reader, n: string, g: Entrezgene) returns (res: Parse<Entrezgene>)
    requires r.Valid()
    modifies r
    ensures r.Valid() && res == GeneChild(r.events, old(r.pos), n, g)
    ensures res.Done? ==> r.pos == res.next
  {
    match GeneTagOf(n) {
      case None =>
        var warnings, outcome := Unexpected.UnexpectedTags(["extra-field", "other-field"]).Check(n);
        if outcome == Panics {
          return Panic;
        }
        res := Done(g, r.pos);
      case Some(f) =>
        res := GeneMemberFromReader(r, n, f, g);
    }
  }

  /** `Entrezgene::from_reader`. */
  method EntrezgeneFromReader(r: Reader) returns (res: Parse<Option<Entrezgene>>)
    requires r.Valid()
    modifies r
    ensures r.Valid() && res == EntrezgeneLoop(r.events, old(r.pos), InitialGene)
    ensures res.Done? ==> r.pos == res.next
  {
    var gene := InitialGene;
    while true
      invariant r.Valid()
      invariant EntrezgeneLoop(r.events, r.pos, gene) == EntrezgeneLoop(r.events, old(r.pos), InitialGene)
      decreases |r.events| - r.pos
    {
      ghost var p := r.pos;
      var e := r.ReadEvent();
      assert EntrezgeneLoop(r.events, p, gene) == match e
        case Error(_) => Panic
        case Eof => Done(None, r.pos)
        case End(n) => if n == ENTREZGENE then Done(Some(gene), r.pos) else EntrezgeneLoop(r.events, r.pos, gene)
        case Start(n, _) =>
          (match GeneChild(r.events, r.pos, n, gene)
           case Done(g', q) => EntrezgeneLoop(r.events, q, g')
           case Panic => Panic
           case Hang => Hang)
        case _ => EntrezgeneLoop(r.events, r.pos, gene);
      match e {
        case Error(_) => return Panic;
        case Eof => return Done(None, r.pos);
        case End(n) =>
          if n == ENTREZGENE {
            return Done(Some(gene), r.pos);
          }
        case Start(n, _) =>
          var c := GeneChildFromReader(r, n, gene);
          match c {
            case Done(g', _) => gene := g';
            case Panic => return Panic;
            case Hang => return Hang;
          }
        case _ =>
      }
    }
  }

  /** `Vec<Entrezgene>::from_reader`. */
  method EntrezgeneSetFromReader(r: Reader) returns (res: Parse<Option<seq<Entrezgene>>>)
    requires r.Valid()
    modifies r
    ensures r.Valid() && res == EntrezgeneSetLoop(r.events, old(r.pos), [])
    ensures res.Done? ==> r.pos == res.next
  {
    var genes: seq<Entrezgene> := [];
    while true
      invariant r.Valid()
      invariant EntrezgeneSetLoop(r.events, r.pos, genes) == EntrezgeneSetLoop(r.events, old(r.pos), [])
      decreases |r.events| - r.pos
    {
      var e := r.ReadEvent();
      match e {
        case Error(_) => return Panic;
        case Eof => return Done(None, r.pos);
        case End(n) =>
          if n == ENTREZGENE_SET {
            return Done(Some(genes), r.pos);
          }
        case Start(n, _) =>
          if n == ENTREZGENE {
            var v := EntrezgeneFromReader(r);
            match v {
              case Done(x, _) =>
                if x.Some? {
                  genes := genes + [x.value];
                }
              case Panic => return Panic;
              case Hang => return Hang;
            }
          } else {
            var warnings, outcome := Unexpected.UnexpectedTags([]).Check(n);
            assert outcome == Panics;
            return Panic;
          }
        case _ =>
      }
    }
  }
}
