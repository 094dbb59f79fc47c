/**
 * Bibliographic elements of `src/asn/biblio.rs` (NCBI biblio.asn): article
 * identifiers, patent identifiers, the title group and its per-citation
 * validity, the article citation with the journal, book and proceedings it
 * appears in, and the enumerated codes.
 */
module Biblio {
  import opened Wrappers
  import opened General

  /** `ArticleId`: exactly six kinds of identifier. */
  datatype ArticleId =
    | PubMed(pmid: nat)
    | Medline(muid: nat)
    | DOI(doi: string)
    | PmcId(pmcid: nat)
    | PmPid(pmpid: string)
    | Other(tag: DbTag)

  /** `PubStatus`: points of publication, `Received = 1` onwards and `Other = 255`. */
  datatype PubStatus =
    | Received
    | Accepted
    | EPublish
    | PPublish
    | Revised
    | PMC
    | PMCR
    | PubMed
    | PubMedR
    | AheadOfPrint
    | PreMedline
    | Medline
    | Other

  /** The discriminant each variant serialises as. */
  function PubStatusCode(x: PubStatus): (c: int)
    ensures -0x8000_0000_0000_0000 <= c < 0x8000_0000_0000_0000
    ensures 1 <= c <= 12 || c == 255
  {
    match x
    case Received => 1
    case Accepted => 2
    case EPublish => 3
    case PPublish => 4
    case Revised => 5
    case PMC => 6
    case PMCR => 7
    case PubMed => 8
    case PubMedR => 9
    case AheadOfPrint => 10
    case PreMedline => 11
    case Medline => 12
    case Other => 255
  }

  /** The variant with discriminant `c`, if there is one. */
  function PubStatusFromCode(c: int): (r: Option<PubStatus>)
    ensures r.Some? <==> (1 <= c <= 12 || c == 255)
    ensures r.Some? ==> PubStatusCode(r.value) == c
  {
    if c == 1 then Some(PubStatus.Received)
    else if c == 2 then Some(PubStatus.Accepted)
    else if c == 3 then Some(PubStatus.EPublish)
    else if c == 4 then Some(PubStatus.PPublish)
    else if c == 5 then Some(PubStatus.Revised)
    else if c == 6 then Some(PubStatus.PMC)
    else if c == 7 then Some(PubStatus.PMCR)
    else if c == 8 then Some(PubStatus.PubMed)
    else if c == 9 then Some(PubStatus.PubMedR)
    else if c == 10 then Some(PubStatus.AheadOfPrint)
    else if c == 11 then Some(PubStatus.PreMedline)
    else if c == 12 then Some(PubStatus.Medline)
    else if c == 255 then Some(PubStatus.Other)
    else None
  }

  /** Decoding the discriminant of a variant gives the variant back, so the codes are distinct. */
  lemma PubStatusRoundTrip(x: PubStatus)
    ensures PubStatusFromCode(PubStatusCode(x)) == Some(x)
  {
  }

  lemma PubStatusCodeInjective(x: PubStatus, y: PubStatus)
    ensures PubStatusCode(x) == PubStatusCode(y) ==> x == y
  {
    PubStatusRoundTrip(x);
    PubStatusRoundTrip(y);
  }

  /** `IdPatChoice`: a patent is identified by exactly one of its number or its application number. */
  datatype IdPatChoice = Number(number: string) | AppNumber(appNumber: string)

  /** `IdPat`: identifies a patent. */
  datatype IdPat = IdPat(country: string, id: IdPatChoice, docType: Option<string>)

  /** `LetType`: the kind of a cited letter, thesis or manuscript. */
  datatype LetType = Manuscript | Letter | Thesis

  /** The discriminant each variant serialises as. */
  function LetTypeCode(x: LetType): (c: int)
    ensures -0x8000_0000_0000_0000 <= c < 0x8000_0000_0000_0000
    ensures 1 <= c <= 3
  {
    match x
    case Manuscript => 1
    case Letter => 2
    case Thesis => 3
  }

  /** The variant with discriminant `c`, if there is one. */
  function LetTypeFromCode(c: int): (r: Option<LetType>)
    ensures r.Some? <==> (1 <= c <= 3)
    ensures r.Some? ==> LetTypeCode(r.value) == c
  {
    if c == 1 then Some(LetType.Manuscript)
    else if c == 2 then Some(LetType.Letter)
    else if c == 3 then Some(LetType.Thesis)
    else None
  }

  /** Decoding the discriminant of a variant gives the variant back, so the codes are distinct. */
  lemma LetTypeRoundTrip(x: LetType)
    ensures LetTypeFromCode(LetTypeCode(x)) == Some(x)
  {
  }

  lemma LetTypeCodeInjective(x: LetType, y: LetType)
    ensures LetTypeCode(x) == LetTypeCode(y) ==> x == y
  {
    LetTypeRoundTrip(x);
    LetTypeRoundTrip(y);
  }
  /** `SubMedium`: the medium of a submission. */
  datatype SubMedium = Paper | Tape | Floppy | Email | Other

  /** The discriminant each variant serialises as. */
  function SubMediumCode(x: SubMedium): (c: int)
    ensures -0x8000_0000_0000_0000 <= c < 0x8000_0000_0000_0000
    ensures 1 <= c <= 4 || c == 255
  {
    match x
    case Paper => 1
    case Tape => 2
    case Floppy => 3
    case Email => 4
    case Other => 255
  }

  /** The variant with discriminant `c`, if there is one. */
  function SubMediumFromCode(c: int): (r: Option<SubMedium>)
    ensures r.Some? <==> (1 <= c <= 4 || c == 255)
    ensures r.Some? ==> SubMediumCode(r.value) == c
  {
    if c == 1 then Some(SubMedium.Paper)
    else if c == 2 then Some(SubMedium.Tape)
    else if c == 3 then Some(SubMedium.Floppy)
    else if c == 4 then Some(SubMedium.Email)
    else if c == 255 then Some(SubMedium.Other)
    else None
  }

  /** Decoding the discriminant of a variant gives the variant back, so the codes are distinct. */
  lemma SubMediumRoundTrip(x: SubMedium)
    ensures SubMediumFromCode(SubMediumCode(x)) == Some(x)
  {
  }

  lemma SubMediumCodeInjective(x: SubMedium, y: SubMedium)
    ensures SubMediumCode(x) == SubMediumCode(y) ==> x == y
  {
    SubMediumRoundTrip(x);
    SubMediumRoundTrip(y);
  }
  /** `AuthorLevel`. */
  datatype AuthorLevel = Primary | Secondary

  /** The discriminant each variant serialises as. */
  function AuthorLevelCode(x: AuthorLevel): (c: int)
    ensures -0x8000_0000_0000_0000 <= c < 0x8000_0000_0000_0000
    ensures 1 <= c <= 2
  {
    match x
    case Primary => 1
    case Secondary => 2
  }

  /** The variant with discriminant `c`, if there is one. */
  function AuthorLevelFromCode(c: int): (r: Option<AuthorLevel>)
    ensures r.Some? <==> (1 <= c <= 2)
    ensures r.Some? ==> AuthorLevelCode(r.value) == c
  {
    if c == 1 then Some(AuthorLevel.Primary)
    else if c == 2 then Some(AuthorLevel.Secondary)
    else None
  }

  /** Decoding the discriminant of a variant gives the variant back, so the codes are distinct. */
  lemma AuthorLevelRoundTrip(x: AuthorLevel)
    ensures AuthorLevelFromCode(AuthorLevelCode(x)) == Some(x)
  {
  }

  lemma AuthorLevelCodeInjective(x: AuthorLevel, y: AuthorLevel)
    ensures AuthorLevelCode(x) == AuthorLevelCode(y) ==> x == y
  {
    AuthorLevelRoundTrip(x);
    AuthorLevelRoundTrip(y);
  }
  /** `AuthorRole`. */
  datatype AuthorRole = Compiler | Editor | PatentAssignee | Translator

  /** The discriminant each variant serialises as. */
  function AuthorRoleCode(x: AuthorRole): (c: int)
    ensures -0x8000_0000_0000_0000 <= c < 0x8000_0000_0000_0000
    ensures 1 <= c <= 4
  {
    match x
    case Compiler => 1
    case Editor => 2
    case PatentAssignee => 3
    case Translator => 4
  }

  /** The variant with discriminant `c`, if there is one. */
  function AuthorRoleFromCode(c: int): (r: Option<AuthorRole>)
    ensures r.Some? <==> (1 <= c <= 4)
    ensures r.Some? ==> AuthorRoleCode(r.value) == c
  {
    if c == 1 then Some(AuthorRole.Compiler)
    else if c == 2 then Some(AuthorRole.Editor)
    else if c == 3 then Some(AuthorRole.PatentAssignee)
    else if c == 4 then Some(AuthorRole.Translator)
    else None
  }

  /** Decoding the discriminant of a variant gives the variant back, so the codes are distinct. */
  lemma AuthorRoleRoundTrip(x: AuthorRole)
    ensures AuthorRoleFromCode(AuthorRoleCode(x)) == Some(x)
  {
  }

  lemma AuthorRoleCodeInjective(x: AuthorRole, y: AuthorRole)
    ensures AuthorRoleCode(x) == AuthorRoleCode(y) ==> x == y
  {
    AuthorRoleRoundTrip(x);
    AuthorRoleRoundTrip(y);
  }
  /** `ImprintPrePub`: the state of a pre-publication citation. */
  datatype ImprintPrePub = Submitted | InPress | Other

  /** The discriminant each variant serialises as. */
  function ImprintPrePubCode(x: ImprintPrePub): (c: int)
    ensures -0x8000_0000_0000_0000 <= c < 0x8000_0000_0000_0000
    ensures 1 <= c <= 2 || c == 255
  {
    match x
    case Submitted => 1
    case InPress => 2
    case Other => 255
  }

  /** The variant with discriminant `c`, if there is one. */
  function ImprintPrePubFromCode(c: int): (r: Option<ImprintPrePub>)
    ensures r.Some? <==> (1 <= c <= 2 || c == 255)
    ensures r.Some? ==> ImprintPrePubCode(r.value) == c
  {
    if c == 1 then Some(ImprintPrePub.Submitted)
    else if c == 2 then Some(ImprintPrePub.InPress)
    else if c == 255 then Some(ImprintPrePub.Other)
    else None
  }

  /** Decoding the discriminant of a variant gives the variant back, so the codes are distinct. */
  lemma ImprintPrePubRoundTrip(x: ImprintPrePub)
    ensures ImprintPrePubFromCode(ImprintPrePubCode(x)) == Some(x)
  {
  }

  lemma ImprintPrePubCodeInjective(x: ImprintPrePub, y: ImprintPrePub)
    ensures ImprintPrePubCode(x) == ImprintPrePubCode(y) ==> x == y
  {
    ImprintPrePubRoundTrip(x);
    ImprintPrePubRoundTrip(y);
  }
  /** `CitRetractType`: the kind of a retraction entry. */
  datatype CitRetractType = Retracted | Notice | InError | Erratum

  /** The discriminant each variant serialises as. */
  function CitRetractTypeCode(x: CitRetractType): (c: int)
    ensures -0x8000_0000_0000_0000 <= c < 0x8000_0000_0000_0000
    ensures 1 <= c <= 4
  {
    match x
    case Retracted => 1
    case Notice => 2
    case InError => 3
    case Erratum => 4
  }

  /** The variant with discriminant `c`, if there is one. */
  function CitRetractTypeFromCode(c: int): (r: Option<CitRetractType>)
    ensures r.Some? <==> (1 <= c <= 4)
    ensures r.Some? ==> CitRetractTypeCode(r.value) == c
  {
    if c == 1 then Some(CitRetractType.Retracted)
    else if c == 2 then Some(CitRetractType.Notice)
    else if c == 3 then Some(CitRetractType.InError)
    else if c == 4 then Some(CitRetractType.Erratum)
    else None
  }

  /** Decoding the discriminant of a variant gives the variant back, so the codes are distinct. */
  lemma CitRetractTypeRoundTrip(x: CitRetractType)
    ensures CitRetractTypeFromCode(CitRetractTypeCode(x)) == Some(x)
  {
  }

  lemma CitRetractTypeCodeInjective(x: CitRetractType, y: CitRetractType)
    ensures CitRetractTypeCode(x) == CitRetractTypeCode(y) ==> x == y
  {
    CitRetractTypeRoundTrip(x);
    CitRetractTypeRoundTrip(y);
  }

  /** `TitleItem`: one form of a title. */
  datatype TitleItem =
    | Name(name: string)
    | TSub(tsub: string)
    | Trans(trans: string)
    | Jta(jta: string)
    | IsoJta(isoJta: string)
    | MlJta(mlJta: string)
    | Coden(coden: string)
    | ISSN(issn: string)
    | Abr(abr: string)
    | ISBN(isbn: string)

  /** The citations a title belongs to: Analytic (`CitArt`), Journal (`CitJour`) or Book (`CitBook`). */
  datatype CitKind = Analytic | Journal | Book

  /** Which title items are documented as valid for which kind of citation. */
  predicate ValidFor(t: TitleItem, k: CitKind)
  {
    match t
    case Name(_) => true
    case Trans(_) => true
    case TSub(_) => k != CitKind.Journal
    case Abr(_) => k == CitKind.Book
    case ISBN(_) => k == CitKind.Book
    case _ => k == CitKind.Journal
  }

  /** `Title` is a set of title items; it is valid for a citation when each of its items is. */
  predicate ValidTitle(title: set<TitleItem>, k: CitKind)
  {
    forall t :: t in title ==> ValidFor(t, k)
  }

  /**
   * Only a name or a translated title fits every kind of citation; a title
   * usable both for a journal and for a book holds nothing else.
   */
  lemma SharedJournalBookTitle(title: set<TitleItem>)
    requires ValidTitle(title, CitKind.Journal) && ValidTitle(title, CitKind.Book)
    ensures forall t :: t in title ==> t.Name? || t.Trans?
  {
    forall t | t in title
      ensures t.Name? || t.Trans?
    {
      assert ValidFor(t, CitKind.Journal) && ValidFor(t, CitKind.Book);
    }
  }

  /** The items valid for an analytic citation are exactly those valid for both other kinds, plus `TSub`. */
  lemma AnalyticTitleItems(t: TitleItem)
    ensures ValidFor(t, CitKind.Analytic) <==> t.Name? || t.TSub? || t.Trans?
    ensures ValidFor(t, CitKind.Journal) && !ValidFor(t, CitKind.Book) <==> t.Jta? || t.IsoJta? || t.MlJta? || t.Coden? || t.ISSN?
    ensures ValidFor(t, CitKind.Book) && !ValidFor(t, CitKind.Journal) <==> t.TSub? || t.Abr? || t.ISBN?
  {
  }

  // ----------------------------------------------------------------------
  // Article citations
  // ----------------------------------------------------------------------

  /** `AffilStd`: an affiliation in its standard fields. */
  datatype AffilStd = AffilStd(
    affil: Option<string>,
    div: Option<string>,
    city: Option<string>,
    sub: Option<string>,
    country: Option<string>,
    street: Option<string>,
    email: Option<string>,
    fax: Option<string>,
    phone: Option<string>,
    postalCode: Option<string>)

  /** `Affil`: an unparsed affiliation or its standard representation. */
  datatype Affil = Str(text: string) | Std(std: AffilStd)

  /** `Author`: a person with optional level, role, affiliation and corresponding-author flag. */
  datatype Author = Author(
    name: PersonId,
    level: Option<AuthorLevel>,
    role: Option<AuthorRole>,
    affil: Option<Affil>,
    isCorr: Option<bool>)

  /** `AuthListNames`: full citations, MEDLINE names, or free text. */
  datatype AuthListNames = Std(std: seq<Author>) | Ml(ml: seq<string>) | Str(text: seq<string>)

  /** `AuthList`: the authorship group and its affiliation. */
  datatype AuthList = AuthList(names: AuthListNames, affil: Option<Affil>)

  /** `PubStatusDate`: a publication status and its date. */
  datatype PubStatusDate = PubStatusDate(pubstatus: PubStatus, date: Date)

  /** `CitRetract`: the kind of retraction and its explanation. */
  datatype CitRetract = CitRetract(retractType: CitRetractType, exp: Option<string>)

  /** `Imprint`: publication details; `pub` is the publisher. */
  datatype Imprint = Imprint(
    date: Date,
    volume: Option<string>,
    issue: Option<string>,
    pages: Option<string>,
    section: Option<string>,
    publisher: Option<Affil>,
    cprt: Option<Date>,
    partSup: Option<string>,
    language: Option<string>,
    prepub: Option<ImprintPrePub>,
    partSupi: Option<string>,
    retract: Option<CitRetract>,
    pubstatus: Option<PubStatus>,
    history: Option<set<PubStatusDate>>)

  /** `Meeting`: number, date and place of a meeting. */
  datatype Meeting = Meeting(number: string, date: Date, place: Option<Affil>)

  /** `CitJour`: a journal, by title, and its imprint. */
  datatype CitJour = CitJour(title: set<TitleItem>, imp: Imprint)

  /** `CitBook`: a book, by title, with its collection, authors and imprint. */
  datatype CitBook = CitBook(title: set<TitleItem>, coll: Option<set<TitleItem>>, authors: AuthList, imp: Imprint)

  /** `CitProc`: the proceedings of a meeting, cited as a book. */
  datatype CitProc = CitProc(book: CitBook, meet: Meeting)

  /** `CitArtFrom`: where an article appears. */
  datatype CitArtFrom = Journal(journal: CitJour) | Book(book: CitBook) | Proc(proc: CitProc)

  /** `CitArt`: an article in a journal, a book or proceedings. */
  datatype CitArt = CitArt(
    title: Option<set<TitleItem>>,
    authors: Option<AuthList>,
    from: CitArtFrom,
    ids: Option<set<ArticleId>>)

  /** A journal citation's title holds only items valid for journals. */
  predicate ValidCitJour(j: CitJour)
  {
    ValidTitle(j.title, CitKind.Journal)
  }

  /**
   * A book citation's title and collection hold only items valid for books,
   * and its imprint names the publisher and the copyright date, which the
   * imprint documents as required for a book.
   */
  predicate ValidCitBook(b: CitBook)
  {
    ValidTitle(b.title, CitKind.Book)
    && (b.coll.Some? ==> ValidTitle(b.coll.value, CitKind.Book))
    && b.imp.publisher.Some? && b.imp.cprt.Some?
  }

  /** An article's own title is analytic; the journal or book it appears in is valid for its kind. */
  predicate ValidCitArt(a: CitArt)
  {
    (a.title.Some? ==> ValidTitle(a.title.value, CitKind.Analytic))
    && match a.from
       case Journal(j) => ValidCitJour(j)
       case Book(b) => ValidCitBook(b)
       case Proc(p) => ValidCitBook(p.book)
  }

  /**
   * In a valid article the article's title is made of names, subordinate
   * and translated titles; a journal it appears in has no subordinate,
   * abbreviated-book or ISBN items; a book has no journal abbreviations,
   * coden or ISSN.
   */
  lemma ValidCitArtTitles(a: CitArt)
    requires ValidCitArt(a)
    ensures a.title.Some? ==> forall t :: t in a.title.value ==> t.Name? || t.TSub? || t.Trans?
    ensures a.from.Journal? ==>
      forall t :: t in a.from.journal.title ==> !t.TSub? && !t.Abr? && !t.ISBN?
    ensures a.from.Book? ==>
      forall t :: t in a.from.book.title ==> !t.Jta? && !t.IsoJta? && !t.MlJta? && !t.Coden? && !t.ISSN?
  {
    if a.title.Some? {
      forall t | t in a.title.value
        ensures t.Name? || t.TSub? || t.Trans?
      {
        AnalyticTitleItems(t);
      }
    }
  }

  /** A book whose imprint names no publisher cannot be where a valid article appears. */
  lemma BookWithoutPublisher(a: CitArt)
    requires a.from.Book? && a.from.book.imp.publisher.None?
    ensures !ValidCitArt(a)
  {
  }
}
