/**
 * The Entrez E-utilities request side shared by `src/eutils/mod.rs`,
 * `src/eutils.rs` and `src/helpers.rs`: the database names, the base
 * address and the query strings the URL builders concatenate.
 */
module EUtils {
  import opened Wrappers
  import opened Strings

  /** The Entrez databases (`EntrezDb`). */
  datatype EntrezDb =
    | BioProject | BioSample | Books | ConservedDomains | DbGaP | DbVar | Gene
    | Genome | GeoDatasets | GeoProfiles | HomoloGene | MeSH | NlmCatalog
    | Nucleotide | PopSet | Probe | Protein | ProteinClusters | PubChemBioAssay
    | PubChemCompound | PubChemSubstance | PubMed | PubMedCentral | Snp | Sra
    | Structure | Taxonomy

  /** `EntrezDb::as_str`: the name the E-utilities use for a database. */
  function DbName(db: EntrezDb): (name: string)
    ensures 3 <= |name| <= 15
  {
    match db
    case BioProject => "bioproject"
    case BioSample => "biosample"
    case Books => "books"
    case ConservedDomains => "cdd"
    case DbGaP => "gap"
    case DbVar => "dbvar"
    case Gene => "gene"
    case Genome => "genome"
    case GeoDatasets => "gds"
    case GeoProfiles => "geoprofiles"
    case HomoloGene => "homologene"
    case MeSH => "mesh"
    case NlmCatalog => "nlmcatalog"
    case Nucleotide => "nuccore"
    case PopSet => "popset"
    case Probe => "probe"
    case Protein => "protein"
    case ProteinClusters => "proteinclusters"
    case PubChemBioAssay => "pcassay"
    case PubChemCompound => "pccompound"
    case PubChemSubstance => "pcsubstance"
    case PubMed => "pubmed"
    case PubMedCentral => "pmc"
    case Snp => "snp"
    case Sra => "sra"
    case Structure => "structure"
    case Taxonomy => "taxonomy"
  }

  /**
   * Reads a database name back; a name no database has gives None. The
   * first letter picks the candidates.
   */
  function DbOfName(name: string): (r: Option<EntrezDb>)
    ensures r.Some? ==> DbName(r.value) == name
  {
    if name == [] then None
    else
      match name[0]
      case 'b' =>
        if name == "bioproject" then Some(BioProject)
        else if name == "biosample" then Some(BioSample)
        else if name == "books" then Some(Books)
        else None
      case 'c' => if name == "cdd" then Some(ConservedDomains) else None
      case 'd' => if name == "dbvar" then Some(DbVar) else None
      case 'g' =>
        if name == "gap" then Some(DbGaP)
        else if name == "gene" then Some(Gene)
        else if name == "genome" then Some(Genome)
        else if name == "gds" then Some(GeoDatasets)
        else if name == "geoprofiles" then Some(GeoProfiles)
        else None
      case 'h' => if name == "homologene" then Some(HomoloGene) else None
      case 'm' => if name == "mesh" then Some(MeSH) else None
      case 'n' =>
        if name == "nlmcatalog" then Some(NlmCatalog)
        else if name == "nuccore" then Some(Nucleotide)
        else None
      case 'p' => PDbOfName(name)
      case 's' =>
        if name == "snp" then Some(Snp)
        else if name == "sra" then Some(Sra)
        else if name == "structure" then Some(Structure)
        else None
      case 't' => if name == "taxonomy" then Some(Taxonomy) else None
      case _ => None
  }

  /** The names starting with `p`. */
  function PDbOfName(name: string): (r: Option<EntrezDb>)
    ensures r.Some? ==> DbName(r.value) == name
  {
    if name == "popset" then Some(PopSet)
    else if name == "probe" then Some(Probe)
    else if name == "protein" then Some(Protein)
    else if name == "proteinclusters" then Some(ProteinClusters)
    else if name == "pcassay" then Some(PubChemBioAssay)
    else if name == "pccompound" then Some(PubChemCompound)
    else if name == "pcsubstance" then Some(PubChemSubstance)
    else if name == "pubmed" then Some(PubMed)
    else if name == "pmc" then Some(PubMedCentral)
    else None
  }

  /** Every database's name reads back as that database. */
  lemma DbNameRoundTrip(db: EntrezDb)
    ensures DbOfName(DbName(db)) == Some(db)
  {
    match db
    case BioProject =>
    case BioSample =>
    case Books =>
    case ConservedDomains =>
    case DbGaP =>
    case DbVar =>
    case Gene =>
    case Genome =>
    case GeoDatasets =>
    case GeoProfiles =>
    case HomoloGene =>
    case MeSH =>
    case NlmCatalog =>
    case Nucleotide =>
    case PopSet =>
    case Probe =>
    case Protein =>
    case ProteinClusters =>
    case PubChemBioAssay =>
    case PubChemCompound =>
    case PubChemSubstance =>
    case PubMed =>
    case PubMedCentral =>
    case Snp =>
    case Sra =>
    case Structure =>
    case Taxonomy =>
  }

  /** A database name holds neither `&` nor `=`. */
  lemma DbNameIsWord(db: EntrezDb)
    ensures '&' !in DbName(db) && '=' !in DbName(db)
  {
    match db
    case BioProject =>
    case BioSample =>
    case Books =>
    case ConservedDomains =>
    case DbGaP =>
    case DbVar =>
    case Gene =>
    case Genome =>
    case GeoDatasets =>
    case GeoProfiles =>
    case HomoloGene =>
    case MeSH =>
    case NlmCatalog =>
    case Nucleotide =>
    case PopSet =>
    case Probe =>
    case Protein =>
    case ProteinClusters =>
    case PubChemBioAssay =>
    case PubChemCompound =>
    case PubChemSubstance =>
    case PubMed =>
    case PubMedCentral =>
    case Snp =>
    case Sra =>
    case Structure =>
    case Taxonomy =>
  }

  /** No two databases share a name. */
  lemma DbNameInjective(a: EntrezDb, b: EntrezDb)
    ensures DbName(a) == DbName(b) ==> a == b
  {
    DbNameRoundTrip(a);
    DbNameRoundTrip(b);
  }

  const BASE := "https://eutils.ncbi.nlm.nih.gov/entrez/eutils/"
  const EFETCH := "efetch.fcgi?"
  const ESEARCH := "esearch.fcgi?"

  // ----------------------------------------------------------------------
  // Query strings: `key=value` pairs joined with `&`
  // ----------------------------------------------------------------------

  type Pair = (string, string)

  function PairText(kv: Pair): (s: string)
    ensures |s| == |kv.0| + 1 + |kv.1| && s[|kv.0|] == '='
  {
    kv.0 + "=" + kv.1
  }

  /** The texts of the pairs, in order. */
  function PairTexts(pairs: seq<Pair>): (r: seq<string>)
    ensures |r| == |pairs|
    ensures forall i :: 0 <= i < |pairs| ==> r[i] == PairText(pairs[i])
  {
    if pairs == [] then [] else [PairText(pairs[0])] + PairTexts(pairs[1..])
  }

  /** A query string as the builders write it, without any escaping. */
  function Query(pairs: seq<Pair>): string
  {
    Join(PairTexts(pairs), '&')
  }

  /** The value of the first pair with the given key. */
  function Lookup(pairs: seq<Pair>, key: string): (r: Option<string>)
    ensures r.None? <==> forall i :: 0 <= i < |pairs| ==> pairs[i].0 != key
    ensures r.Some? ==> exists i :: 0 <= i < |pairs| && pairs[i] == (key, r.value)
  {
    if pairs == [] then None
    else if pairs[0].0 == key then Some(pairs[0].1)
    else Lookup(pairs[1..], key)
  }

  /** Looking past a prefix that does not hold the key. */
  lemma {:induction false} LookupAfter(front: seq<Pair>, back: seq<Pair>, key: string)
    requires forall i :: 0 <= i < |front| ==> front[i].0 != key
    ensures Lookup(front + back, key) == Lookup(back, key)
    decreases |front|
  {
    if front == [] {
      assert front + back == back;
    } else {
      assert (front + back)[0].0 == front[0].0 != key;
      assert (front + back)[1..] == front[1..] + back;
      LookupAfter(front[1..], back, key);
    }
  }

  /** One step of `Lookup`. */
  lemma LookupCons(p: Pair, rest: seq<Pair>, key: string)
    ensures Lookup([p] + rest, key) == if p.0 == key then Some(p.1) else Lookup(rest, key)
  {
    assert ([p] + rest)[1..] == rest;
  }

  /** Reading a pair back: the key runs to the first `=`. */
  function SplitPair(s: string): (kv: Pair)
    ensures '=' !in kv.0
  {
    var k := IndexOf(s, '=');
    if k == |s| then (s, "") else (s[..k], s[k + 1..])
  }

  function SplitPairs(parts: seq<string>): (r: seq<Pair>)
    ensures |r| == |parts|
    ensures forall i :: 0 <= i < |parts| ==> r[i] == SplitPair(parts[i])
  {
    if parts == [] then [] else [SplitPair(parts[0])] + SplitPairs(parts[1..])
  }

  /** Reading a query string back into its pairs. */
  function ParseQuery(q: string): (pairs: seq<Pair>)
    ensures |pairs| >= 1
  {
    SplitPairs(Split(q, '&'))
  }

  /** Keys without `=` or `&` and values without `&` come back out of the query string unchanged. */
  predicate Unambiguous(pairs: seq<Pair>)
  {
    forall i :: 0 <= i < |pairs| ==> '=' !in pairs[i].0 && '&' !in pairs[i].0 && '&' !in pairs[i].1
  }

  lemma SplitPairText(kv: Pair)
    requires '=' !in kv.0
    ensures SplitPair(PairText(kv)) == kv
  {
    IndexAfterPrefix(kv.0, '=', kv.1);
    assert PairText(kv) == kv.0 + ['='] + kv.1;
    assert PairText(kv)[..|kv.0|] == kv.0;
    assert PairText(kv)[|kv.0| + 1..] == kv.1;
  }

  /** Parsing undoes the query string for unambiguous pairs. */
  lemma QueryRoundTrip(pairs: seq<Pair>)
    requires |pairs| >= 1 && Unambiguous(pairs)
    ensures ParseQuery(Query(pairs)) == pairs
  {
    var texts := PairTexts(pairs);
    forall i | 0 <= i < |texts|
      ensures '&' !in texts[i]
    {
      assert texts[i] == pairs[i].0 + "=" + pairs[i].1;
    }
    SplitJoin(texts, '&');
    forall i | 0 <= i < |pairs|
      ensures SplitPairs(texts)[i] == pairs[i]
    {
      SplitPairText(pairs[i]);
    }
  }

  /** Appending one more pair writes `&`, then the pair. */
  lemma QuerySnoc(pairs: seq<Pair>, kv: Pair)
    requires |pairs| >= 1
    ensures Query(pairs + [kv]) == Query(pairs) + "&" + PairText(kv)
  {
    assert PairTexts(pairs + [kv]) == PairTexts(pairs) + [PairText(kv)];
    JoinSnoc(PairTexts(pairs), PairText(kv), '&');
  }

  lemma QueryOfOne(kv: Pair)
    ensures Query([kv]) == PairText(kv)
  {
    assert PairTexts([kv]) == [PairText(kv)];
  }

  // ----------------------------------------------------------------------
  // build_fetch_url and build_search_url
  // ----------------------------------------------------------------------

  function FetchPairs(db: EntrezDb, id: string, retType: string, mode: string): (pairs: seq<Pair>)
    ensures |pairs| == 4
  {
    [("db", DbName(db)), ("id", id), ("rettype", retType), ("retmode", mode)]
  }

  function SearchPairs(db: EntrezDb, term: string): (pairs: seq<Pair>)
    ensures |pairs| == 4
  {
    [("db", DbName(db)), ("term", term), ("rettype", "xml"), ("retmode", "xml")]
  }

  /** The query of four pairs, one `&` and one pair at a time. */
  lemma QueryOfFour(p0: Pair, p1: Pair, p2: Pair, p3: Pair)
    ensures Query([p0]) == PairText(p0)
    ensures Query([p0, p1]) == Query([p0]) + "&" + PairText(p1)
    ensures Query([p0, p1, p2]) == Query([p0, p1]) + "&" + PairText(p2)
    ensures Query([p0, p1, p2, p3]) == Query([p0, p1, p2]) + "&" + PairText(p3)
  {
    QueryOfOne(p0);
    QuerySnoc([p0], p1);
    assert [p0] + [p1] == [p0, p1];
    QuerySnoc([p0, p1], p2);
    assert [p0, p1] + [p2] == [p0, p1, p2];
    QuerySnoc([p0, p1, p2], p3);
    assert [p0, p1, p2] + [p3] == [p0, p1, p2, p3];
  }

  /** Writing the first pair after a prefix: its key, `=`, its value. */
  lemma PushFirstPair(pre: string, key: string, lit: string, v: string)
    requires lit == key + "="
    ensures pre + (lit + v) == pre + Query([(key, v)])
  {
    QueryOfOne((key, v));
  }

  /** Writing one more pair after a query: `&`, its key, `=`, its value. */
  lemma PushNextPair(url: string, pre: string, pairs: seq<Pair>, key: string, lit: string, v: string)
    requires |pairs| >= 1 && url == pre + Query(pairs) && lit == "&" + key + "="
    ensures url + (lit + v) == pre + Query(pairs + [(key, v)])
  {
    QuerySnoc(pairs, (key, v));
  }

  /** An address made of the base and anything after it starts with the base. */
  lemma StartsWithBase(rest: string)
    ensures |BASE + rest| >= |BASE| && (BASE + rest)[..|BASE|] == BASE
  {
  }

  /**
   * `build_fetch_url`: the base address, the efetch endpoint and the four
   * pairs db, id, rettype and retmode, appended as given.
   */
  method BuildFetchUrl(db: EntrezDb, id: string, retType: string, mode: string) returns (url: string)
    ensures url == BASE + EFETCH + Query(FetchPairs(db, id, retType, mode))
    ensures |url| >= |BASE| && url[..|BASE|] == BASE
  {
    var name := DbName(db);
    var urlStr := BASE + EFETCH;
    ghost var pre := urlStr;
    PushFirstPair(pre, "db", "db=", name);
    urlStr := urlStr + ("db=" + name);
    PushNextPair(urlStr, pre, [("db", name)], "id", "&id=", id);
    urlStr := urlStr + ("&id=" + id);
    assert [("db", name)] + [("id", id)] == [("db", name), ("id", id)];
    PushNextPair(urlStr, pre, [("db", name), ("id", id)], "rettype", "&rettype=", retType);
    urlStr := urlStr + ("&rettype=" + retType);
    assert [("db", name), ("id", id)] + [("rettype", retType)] == [("db", name), ("id", id), ("rettype", retType)];
    PushNextPair(urlStr, pre, [("db", name), ("id", id), ("rettype", retType)], "retmode", "&retmode=", mode);
    urlStr := urlStr + ("&retmode=" + mode);
    assert [("db", name), ("id", id), ("rettype", retType)] + [("retmode", mode)] == FetchPairs(db, id, retType, mode);
    url := urlStr;
    StartsWithBase(EFETCH + Query(FetchPairs(db, id, retType, mode)));
  }

  /** `build_search_url`: db and term, then xml as both return type and mode. */
  method BuildSearchUrl(db: EntrezDb, term: string) returns (url: string)
    ensures url == BASE + ESEARCH + Query(SearchPairs(db, term))
    ensures |url| >= |BASE| && url[..|BASE|] == BASE
  {
    var name := DbName(db);
    var ret := "xml";
    var urlStr := BASE + ESEARCH;
    ghost var pre := urlStr;
    PushFirstPair(pre, "db", "db=", name);
    urlStr := urlStr + ("db=" + name);
    PushNextPair(urlStr, pre, [("db", name)], "term", "&term=", term);
    urlStr := urlStr + ("&term=" + term);
    assert [("db", name)] + [("term", term)] == [("db", name), ("term", term)];
    PushNextPair(urlStr, pre, [("db", name), ("term", term)], "rettype", "&rettype=", ret);
    urlStr := urlStr + ("&rettype=" + ret);
    assert [("db", name), ("term", term)] + [("rettype", ret)] == [("db", name), ("term", term), ("rettype", ret)];
    PushNextPair(urlStr, pre, [("db", name), ("term", term), ("rettype", ret)], "retmode", "&retmode=", ret);
    urlStr := urlStr + ("&retmode=" + ret);
    assert [("db", name), ("term", term), ("rettype", ret)] + [("retmode", ret)] == SearchPairs(db, term);
    url := urlStr;
    StartsWithBase(ESEARCH + Query(SearchPairs(db, term)));
  }

  /** An id, type and mode free of `&` come back out of the fetch address in order. */
  lemma FetchUrlReadsBack(db: EntrezDb, id: string, retType: string, mode: string)
    requires '&' !in id && '&' !in retType && '&' !in mode
    ensures ParseQuery(Query(FetchPairs(db, id, retType, mode))) == FetchPairs(db, id, retType, mode)
  {
    DbNameIsWord(db);
    QueryRoundTrip(FetchPairs(db, id, retType, mode));
  }

  /** A term free of `&` comes back out of the search address. */
  lemma SearchUrlReadsBack(db: EntrezDb, term: string)
    requires '&' !in term
    ensures ParseQuery(Query(SearchPairs(db, term))) == SearchPairs(db, term)
  {
    DbNameIsWord(db);
    QueryRoundTrip(SearchPairs(db, term));
  }

  /** Two lists of pairs with the same query keep it when the same pair follows. */
  lemma SameQuerySnoc(xs: seq<Pair>, ys: seq<Pair>, kv: Pair)
    requires |xs| >= 1 && |ys| >= 1 && Query(xs) == Query(ys)
    ensures Query(xs + [kv]) == Query(ys + [kv])
  {
    QuerySnoc(xs, kv);
    QuerySnoc(ys, kv);
  }

  /** A value holding `&k=v` writes the same text as the value up to `&` followed by a pair `k=v`. */
  lemma SplitValueText(key: string, a: string, k: string, v: string)
    ensures PairText((key, a + "&" + k + "=" + v)) == PairText((key, a)) + "&" + PairText((k, v))
  {
  }

  /**
   * Nothing is escaped: an id `a&k=v` reads back as the id `a` followed by
   * an extra pair `k=v`.
   */
  lemma FetchIdIsNotEscaped(db: EntrezDb, a: string, k: string, v: string, retType: string, mode: string)
    requires '&' !in a && '&' !in k && '=' !in k && '&' !in v && '&' !in retType && '&' !in mode
    ensures ParseQuery(Query(FetchPairs(db, a + "&" + k + "=" + v, retType, mode)))
      == [("db", DbName(db)), ("id", a), (k, v), ("rettype", retType), ("retmode", mode)]
  {
    FetchIdSplitsQuery(db, a, k, v, retType, mode);
    FetchKeysAreWords();
    DbNameIsWord(db);
    QueryRoundTrip([("db", DbName(db)), ("id", a), (k, v), ("rettype", retType), ("retmode", mode)]);
  }

  lemma FetchKeysAreWords()
    ensures '=' !in "db" && '&' !in "db" && '=' !in "id" && '&' !in "id"
    ensures '=' !in "rettype" && '&' !in "rettype" && '=' !in "retmode" && '&' !in "retmode"
  {
  }

  /** The query of a fetch whose id holds `&k=v` is the query of the fetch with the pair `k=v` after the id. */
  lemma FetchIdSplitsQuery(db: EntrezDb, a: string, k: string, v: string, retType: string, mode: string)
    ensures Query(FetchPairs(db, a + "&" + k + "=" + v, retType, mode))
      == Query([("db", DbName(db)), ("id", a), (k, v), ("rettype", retType), ("retmode", mode)])
  {
    var p0, p1, p2, p3 := ("db", DbName(db)), ("id", a + "&" + k + "=" + v), ("rettype", retType), ("retmode", mode);
    var q1, q2 := ("id", a), (k, v);
    SplitValueText("id", a, k, v);
    QuerySnoc([p0], p1);
    QuerySnoc([p0], q1);
    QuerySnoc([p0] + [q1], q2);
    assert Query([p0] + [p1]) == Query([p0] + [q1] + [q2]);
    SameQuerySnoc([p0] + [p1], [p0] + [q1] + [q2], p2);
    SameQuerySnoc([p0] + [p1] + [p2], [p0] + [q1] + [q2] + [p2], p3);
    assert [p0] + [p1] + [p2] + [p3] == FetchPairs(db, a + "&" + k + "=" + v, retType, mode);
    assert [p0] + [q1] + [q2] + [p2] + [p3] == [p0, q1, q2, p2, p3];
  }
}
