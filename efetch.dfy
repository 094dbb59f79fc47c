/**
 * The EFetch request builder of `src/eutils/efetch.rs`: a record of the
 * query's settings, functional builders that each set one of them, the
 * comma-joined identifier list, and the ordered query pairs of `build_url`.
 */
module Fetch {
  import opened Wrappers
  import opened Bytes
  import opened Strings
  import opened Xml
  import opened EUtils
  import SeqSet
  import opened ParseXml
  import ESearchResults

  /** `EFetch`: `retType` and `retMode` come from `CheckReturnTypeMode`. */
  datatype EFetch = EFetch(
    db: EntrezDb,
    id: Option<string>,
    retStart: Option<nat>,
    retMax: Option<nat>,
    retType: string,
    retMode: string)

  /**
   * `check_return_type_mode`: the sequence databases fetch `native` XML, the
   * gene databases plain XML; any other database is `unimplemented!`.
   */
  function CheckReturnTypeMode(db: EntrezDb): (r: Outcome<(string, string)>)
    ensures r.Returns? <==> db in {Nucleotide, Protein, PopSet, Genome, Gene, HomoloGene}
    ensures r.Returns? ==> r.value.1 == "xml"
    ensures r.Returns? ==> (r.value.0 == "native" <==> db in {Nucleotide, Protein, PopSet, Genome})
    ensures r.Returns? ==> (r.value.0 == "" <==> db in {Gene, HomoloGene})
  {
    match db
    case Nucleotide | Protein | PopSet => Returns(("native", "xml"))
    case Genome => Returns(("native", "xml"))
    case Gene => Returns(("", "xml"))
    case HomoloGene => Returns(("", "xml"))
    case _ => Panics
  }

  /** `EFetch::new`: nothing is selected yet; the return type and mode follow the database. */
  function New(db: EntrezDb): (r: Outcome<EFetch>)
    ensures r.Returns? <==> CheckReturnTypeMode(db).Returns?
    ensures r.Returns? ==> r.value.db == db && r.value.id.None? && r.value.retStart.None? && r.value.retMax.None?
    ensures r.Returns? ==> (r.value.retType, r.value.retMode) == CheckReturnTypeMode(db).value
  {
    match CheckReturnTypeMode(db)
    case Returns((retType, retMode)) => Returns(EFetch(db, None, None, None, retType, retMode))
    case Panics => Panics
  }

  /** `EFetch::id`: sets the id and nothing else. */
  function Id(f: EFetch, id: string): (g: EFetch)
    ensures g.id == Some(id)
    ensures g.db == f.db && g.retStart == f.retStart && g.retMax == f.retMax
    ensures g.retType == f.retType && g.retMode == f.retMode
  {
    f.(id := Some(id))
  }

  /** `EFetch::start`: sets retstart and nothing else. */
  function Start(f: EFetch, retStart: nat): (g: EFetch)
    ensures g.retStart == Some(retStart)
    ensures g.db == f.db && g.id == f.id && g.retMax == f.retMax
    ensures g.retType == f.retType && g.retMode == f.retMode
  {
    f.(retStart := Some(retStart))
  }

  /** `EFetch::max`: sets retmax and nothing else. */
  function Max(f: EFetch, retMax: nat): (g: EFetch)
    ensures g.retMax == Some(retMax)
    ensures g.db == f.db && g.id == f.id && g.retStart == f.retStart
    ensures g.retType == f.retType && g.retMode == f.retMode
  {
    f.(retMax := Some(retMax))
  }

  /**
   * `EFetch::ids`: the identifiers joined with `,` in order become the id;
   * identifiers without a comma can be split back out of it.
   */
  method Ids(f: EFetch, ids: seq<string>) returns (g: EFetch)
    ensures g == Id(f, Join(ids, ','))
    ensures |ids| >= 1 && (forall i :: 0 <= i < |ids| ==> ',' !in ids[i]) ==> Split(g.id.value, ',') == ids
  {
    var concatenated := "";
    var i := 0;
    if |ids| > 0 {
      concatenated := concatenated + ids[0];
      i := 1;
      assert ids[..1] == [ids[0]];
    }
    while i < |ids|
      invariant i <= |ids|
      invariant |ids| > 0 ==> 1 <= i
      invariant concatenated == Join(ids[..i], ',')
    {
      concatenated := concatenated + ",";
      concatenated := concatenated + ids[i];
      JoinSnoc(ids[..i], ids[i], ',');
      assert ids[..i + 1] == ids[..i] + [ids[i]];
      i := i + 1;
    }
    assert ids[..i] == ids;
    g := Id(f, concatenated);
    if |ids| >= 1 && (forall i :: 0 <= i < |ids| ==> ',' !in ids[i]) {
      SplitJoin(ids, ',');
    }
  }

  /** The decimal texts of the identifiers, in order. */
  function IdTexts(ids: seq<nat>): (r: seq<string>)
    ensures |r| == |ids|
    ensures forall i :: 0 <= i < |ids| ==> r[i] == NatToString(ids[i]) && ',' !in r[i]
  {
    if ids == [] then [] else [NatToString(ids[0])] + IdTexts(ids[1..])
  }

  /**
   * `EFetch::ids_from_result`: a search result's identifiers, written in
   * decimal and joined with `,`; splitting the id gives them back.
   */
  method IdsFromResult(f: EFetch, result: ESearchResults.ESearchResult) returns (g: EFetch)
    ensures g == Id(f, Join(IdTexts(result.idList), ','))
    ensures |result.idList| >= 1 ==> Split(g.id.value, ',') == IdTexts(result.idList)
  {
    var ids := result.idList;
    ghost var texts := IdTexts(ids);
    var concatenated := "";
    var i := 0;
    if |ids| > 0 {
      concatenated := concatenated + NatToString(ids[0]);
      i := 1;
      assert texts[..1] == [texts[0]];
    }
    while i < |ids|
      invariant i <= |ids|
      invariant |ids| > 0 ==> 1 <= i
      invariant concatenated == Join(texts[..i], ',')
    {
      concatenated := concatenated + ",";
      concatenated := concatenated + NatToString(ids[i]);
      JoinSnoc(texts[..i], texts[i], ',');
      assert texts[..i + 1] == texts[..i] + [texts[i]];
      i := i + 1;
    }
    assert texts[..i] == texts;
    g := Id(f, concatenated);
    if |ids| >= 1 {
      SplitJoin(texts, ',');
    }
  }

  /**
   * The pairs `build_url` writes, in order: db, id, sort, retmode and
   * rettype; idtype=acc for a sequence database; then retstart and retmax
   * when they are set.
   */
  function FetchQueryPairs(f: EFetch, sequenceDbs: set<EntrezDb>): (pairs: seq<Pair>)
    requires f.id.Some?
    ensures |pairs| >= 5
  {
    [("db", DbName(f.db)), ("id", f.id.value), ("sort", "relevance"), ("retmode", f.retMode), ("rettype", f.retType)]
    + (if f.db in sequenceDbs then [("idtype", "acc")] else [])
    + (if f.retStart.Some? then [("retstart", NatToString(f.retStart.value))] else [])
    + (if f.retMax.Some? then [("retmax", NatToString(f.retMax.value))] else [])
  }

  /**
   * `build_url`, as the list of query pairs handed to the URL's form
   * serializer; the set of sequence databases is a parameter. Without an
   * id it panics (`expect("No id given!")`).
   */
  method BuildUrl(f: EFetch, sequenceDbs: set<EntrezDb>) returns (res: Outcome<seq<Pair>>)
    ensures res.Panics? <==> f.id.None?
    ensures res.Returns? ==> res.value == FetchQueryPairs(f, sequenceDbs)
  {
    if f.id.None? {
      return Panics;
    }
    var queries: seq<Pair> := [];
    queries := queries + [("db", DbName(f.db))];
    queries := queries + [("id", f.id.value)];
    queries := queries + [("sort", "relevance")];
    queries := queries + [("retmode", f.retMode)];
    queries := queries + [("rettype", f.retType)];
    if f.db in sequenceDbs {
      queries := queries + [("idtype", "acc")];
    }
    if f.retStart.Some? {
      queries := queries + [("retstart", NatToString(f.retStart.value))];
    }
    if f.retMax.Some? {
      queries := queries + [("retmax", NatToString(f.retMax.value))];
    }
    return Returns(queries);
  }

  /** The optional tail of the fetch query. */
  function OptionalPairs(f: EFetch, sequenceDbs: set<EntrezDb>): (pairs: seq<Pair>)
  {
    (if f.db in sequenceDbs then [("idtype", "acc")] else [])
    + (if f.retStart.Some? then [("retstart", NatToString(f.retStart.value))] else [])
    + (if f.retMax.Some? then [("retmax", NatToString(f.retMax.value))] else [])
  }

  /** The three optional keys differ from one another. */
  lemma OptionalKeysDistinct()
    ensures "idtype" != "retstart" && "idtype" != "retmax" && "retstart" != "retmax"
  {
    assert "idtype"[0] == 'i' && "retstart"[0] == 'r' && "retmax"[0] == 'r';
    assert "retstart"[3] == 's' && "retmax"[3] == 'm';
  }

  lemma IdTypeReadBack(f: EFetch, sequenceDbs: set<EntrezDb>)
    ensures Lookup(OptionalPairs(f, sequenceDbs), "idtype") == if f.db in sequenceDbs then Some("acc") else None
  {
    OptionalKeysDistinct();
    var idType := if f.db in sequenceDbs then [("idtype", "acc")] else [];
    var start := if f.retStart.Some? then [("retstart", NatToString(f.retStart.value))] else [];
    var max := if f.retMax.Some? then [("retmax", NatToString(f.retMax.value))] else [];
    assert OptionalPairs(f, sequenceDbs) == idType + (start + max);
    if f.db in sequenceDbs {
      LookupCons(("idtype", "acc"), start + max, "idtype");
    } else {
      assert idType + (start + max) == start + max;
      assert forall i :: 0 <= i < |start + max| ==> (start + max)[i].0 != "idtype";
    }
  }

  lemma RetStartReadBack(f: EFetch, sequenceDbs: set<EntrezDb>)
    ensures Lookup(OptionalPairs(f, sequenceDbs), "retstart") ==
      if f.retStart.Some? then Some(NatToString(f.retStart.value)) else None
  {
    OptionalKeysDistinct();
    var idType := if f.db in sequenceDbs then [("idtype", "acc")] else [];
    var start := if f.retStart.Some? then [("retstart", NatToString(f.retStart.value))] else [];
    var max := if f.retMax.Some? then [("retmax", NatToString(f.retMax.value))] else [];
    assert OptionalPairs(f, sequenceDbs) == idType + (start + max);
    LookupAfter(idType, start + max, "retstart");
    if f.retStart.Some? {
      LookupCons(start[0], max, "retstart");
      assert start + max == [start[0]] + max;
    } else {
      assert start + max == max;
      assert forall i :: 0 <= i < |max| ==> max[i].0 != "retstart";
    }
  }

  lemma RetMaxReadBack(f: EFetch, sequenceDbs: set<EntrezDb>)
    ensures Lookup(OptionalPairs(f, sequenceDbs), "retmax") ==
      if f.retMax.Some? then Some(NatToString(f.retMax.value)) else None
  {
    OptionalKeysDistinct();
    var idType := if f.db in sequenceDbs then [("idtype", "acc")] else [];
    var start := if f.retStart.Some? then [("retstart", NatToString(f.retStart.value))] else [];
    var max := if f.retMax.Some? then [("retmax", NatToString(f.retMax.value))] else [];
    assert OptionalPairs(f, sequenceDbs) == (idType + start) + max;
    LookupAfter(idType + start, max, "retmax");
    if f.retMax.Some? {
      LookupCons(max[0], [], "retmax");
      assert max == [max[0]] + [];
    }
  }

  lemma OptionalPairsReadBack(f: EFetch, sequenceDbs: set<EntrezDb>)
    ensures var tail := OptionalPairs(f, sequenceDbs);
      (Lookup(tail, "idtype") == Some("acc") <==> f.db in sequenceDbs)
      && (Lookup(tail, "idtype").None? <==> f.db !in sequenceDbs)
      && (Lookup(tail, "retstart").Some? <==> f.retStart.Some?)
      && (f.retStart.Some? ==> Lookup(tail, "retstart") == Some(NatToString(f.retStart.value)))
      && (Lookup(tail, "retmax").Some? <==> f.retMax.Some?)
      && (f.retMax.Some? ==> Lookup(tail, "retmax") == Some(NatToString(f.retMax.value)))
  {
    IdTypeReadBack(f, sequenceDbs);
    RetStartReadBack(f, sequenceDbs);
    RetMaxReadBack(f, sequenceDbs);
  }

  /** The five pairs every fetch query starts with read back, whatever follows. */
  lemma FrontReadsBack(db: string, id: string, retMode: string, retType: string, tail: seq<Pair>)
    ensures var pairs := [("db", db), ("id", id), ("sort", "relevance"), ("retmode", retMode), ("rettype", retType)] + tail;
      Lookup(pairs, "db") == Some(db) && Lookup(pairs, "id") == Some(id)
      && Lookup(pairs, "sort") == Some("relevance")
      && Lookup(pairs, "retmode") == Some(retMode) && Lookup(pairs, "rettype") == Some(retType)
  {
    var t4 := [("rettype", retType)] + tail;
    var t3 := [("retmode", retMode)] + t4;
    var t2 := [("sort", "relevance")] + t3;
    var t1 := [("id", id)] + t2;
    assert [("db", db), ("id", id), ("sort", "relevance"), ("retmode", retMode), ("rettype", retType)] + tail
      == [("db", db)] + t1;
    assert "db"[0] == 'd' && "id"[0] == 'i' && "sort"[0] == 's' && "retmode"[0] == 'r' && "rettype"[0] == 'r';
    assert "retmode"[3] == 'm' && "rettype"[3] == 't';
    LookupCons(("db", db), t1, "db");
    LookupCons(("db", db), t1, "id");
    LookupCons(("id", id), t2, "id");
    LookupCons(("db", db), t1, "sort");
    LookupCons(("id", id), t2, "sort");
    LookupCons(("sort", "relevance"), t3, "sort");
    LookupCons(("db", db), t1, "retmode");
    LookupCons(("id", id), t2, "retmode");
    LookupCons(("sort", "relevance"), t3, "retmode");
    LookupCons(("retmode", retMode), t4, "retmode");
    LookupCons(("db", db), t1, "rettype");
    LookupCons(("id", id), t2, "rettype");
    LookupCons(("sort", "relevance"), t3, "rettype");
    LookupCons(("retmode", retMode), t4, "rettype");
    LookupCons(("rettype", retType), tail, "rettype");
  }

  /**
   * What a reader of the query finds: the database, the id, the return
   * settings, idtype=acc exactly for the sequence databases, and retstart
   * and retmax exactly when they are set.
   */
  lemma FetchQueryReadsBack(f: EFetch, sequenceDbs: set<EntrezDb>)
    requires f.id.Some?
    ensures var pairs := FetchQueryPairs(f, sequenceDbs);
      Lookup(pairs, "db") == Some(DbName(f.db)) && Lookup(pairs, "id") == f.id
      && Lookup(pairs, "sort") == Some("relevance")
      && Lookup(pairs, "retmode") == Some(f.retMode) && Lookup(pairs, "rettype") == Some(f.retType)
      && (Lookup(pairs, "idtype") == Some("acc") <==> f.db in sequenceDbs)
      && (Lookup(pairs, "idtype").None? <==> f.db !in sequenceDbs)
      && (Lookup(pairs, "retstart").Some? <==> f.retStart.Some?)
      && (f.retStart.Some? ==> Lookup(pairs, "retstart") == Some(NatToString(f.retStart.value)))
      && (Lookup(pairs, "retmax").Some? <==> f.retMax.Some?)
      && (f.retMax.Some? ==> Lookup(pairs, "retmax") == Some(NatToString(f.retMax.value)))
  {
    var front := [("db", DbName(f.db)), ("id", f.id.value), ("sort", "relevance"), ("retmode", f.retMode), ("rettype", f.retType)];
    var tail := OptionalPairs(f, sequenceDbs);
    assert FetchQueryPairs(f, sequenceDbs) == front + tail;
    OptionalPairsReadBack(f, sequenceDbs);
    LookupAfter(front, tail, "idtype");
    LookupAfter(front, tail, "retstart");
    LookupAfter(front, tail, "retmax");
    FrontReadsBack(DbName(f.db), f.id.value, f.retMode, f.retType, tail);
  }

  /**
   * `EFetch::fetch` on the response's events: the first `Bioseq-set` of the
   * response, or None at its end. Without an id, building the address
   * panics first.
   */
  method FetchData(f: EFetch, response: seq<Event>) returns (res: Parse<Option<DataType>>)
    ensures f.id.None? ==> res == Panic
    ensures f.id.Some? ==> res == MapParse(FirstSetLoop(response, 0),
      (o: Option<SeqSet.BioSeqSet>) => if o.Some? then Some(BioSeqSetData(o.value)) else None)
  {
    if f.id.None? {
      return Panic;
    }
    var reader := new Reader(response);
    var p := FirstSetFromReader(reader);
    match p {
      case Done(Some(s), q) => res := Done(Some(BioSeqSetData(s)), q);
      case Done(None, q) => res := Done(None, q);
      case Panic => res := Panic;
      case Hang => res := Hang;
    }
  }

  /** The test `test_check_return_type_mode`. */
  lemma ReturnTypeModeTable()
    ensures CheckReturnTypeMode(Nucleotide) == Returns(("native", "xml"))
    ensures CheckReturnTypeMode(Protein) == Returns(("native", "xml"))
    ensures CheckReturnTypeMode(PopSet) == Returns(("native", "xml"))
    ensures CheckReturnTypeMode(Genome) == Returns(("native", "xml"))
    ensures CheckReturnTypeMode(Gene) == Returns(("", "xml"))
    ensures CheckReturnTypeMode(HomoloGene) == Returns(("", "xml"))
    ensures CheckReturnTypeMode(PubMed) == Panics
  {
  }

  /**
   * The tests `test_sequence_db_build_url` and `panics_wo_id`: with an id, a
   * nucleotide fetch asks for accessions; without one, building panics.
   */
  lemma NucleotideFetch(sequenceDbs: set<EntrezDb>, id: string)
    requires Nucleotide in sequenceDbs
    ensures New(Nucleotide).Returns?
    ensures Lookup(FetchQueryPairs(Id(New(Nucleotide).value, id), sequenceDbs), "idtype") == Some("acc")
    ensures Lookup(FetchQueryPairs(Id(New(Nucleotide).value, id), sequenceDbs), "id") == Some(id)
    ensures New(Nucleotide).value.id.None?
  {
    FetchQueryReadsBack(Id(New(Nucleotide).value, id), sequenceDbs);
  }
}
