/**
 * The ESearch request builder of `src/eutils/esearch.rs`: a record of the
 * query's settings, functional builders that each set one of them, the
 * ordered query pairs of `build_url`, and `search` over the response.
 */
module Search {
  import opened Wrappers
  import opened Bytes
  import opened Xml
  import opened EUtils
  import opened ESearchResults

  /** `ESearch`: the database, the term and the optional refinements. */
  datatype ESearch = ESearch(
    db: EntrezDb,
    term: Option<string>,
    retStart: Option<nat>,
    retMax: Option<nat>,
    field: Option<string>)

  /** `ESearch::new`: only the database is set. */
  function New(db: EntrezDb): (s: ESearch)
    ensures s.db == db && s.term.None? && s.retStart.None? && s.retMax.None? && s.field.None?
  {
    ESearch(db, None, None, None, None)
  }

  /** `ESearch::term`: sets the term and nothing else. */
  function Term(s: ESearch, term: string): (t: ESearch)
    ensures t.term == Some(term)
    ensures t.db == s.db && t.retStart == s.retStart && t.retMax == s.retMax && t.field == s.field
  {
    s.(term := Some(term))
  }

  /** `ESearch::start`: sets retstart and nothing else. */
  function Start(s: ESearch, retStart: nat): (t: ESearch)
    ensures t.retStart == Some(retStart)
    ensures t.db == s.db && t.term == s.term && t.retMax == s.retMax && t.field == s.field
  {
    s.(retStart := Some(retStart))
  }

  /** `ESearch::max`: sets retmax and nothing else. */
  function Max(s: ESearch, retMax: nat): (t: ESearch)
    ensures t.retMax == Some(retMax)
    ensures t.db == s.db && t.term == s.term && t.retStart == s.retStart && t.field == s.field
  {
    s.(retMax := Some(retMax))
  }

  /** `ESearch::field`: sets the field and nothing else. */
  function Field(s: ESearch, field: string): (t: ESearch)
    ensures t.field == Some(field)
    ensures t.db == s.db && t.term == s.term && t.retStart == s.retStart && t.retMax == s.retMax
  {
    s.(field := Some(field))
  }

  /** The optional tail of the search query: retstart, retmax and field when set. */
  function OptionalPairs(s: ESearch): (pairs: seq<Pair>)
    ensures |pairs| <= 3
  {
    (if s.retStart.Some? then [("retstart", NatToString(s.retStart.value))] else [])
    + (if s.retMax.Some? then [("retmax", NatToString(s.retMax.value))] else [])
    + (if s.field.Some? then [("field", s.field.value)] else [])
  }

  /**
   * The pairs `build_url` writes, in order: db, term, rettype=xml,
   * retmode=xml and sort=relevance, then the optional refinements.
   */
  function SearchQueryPairs(s: ESearch): (pairs: seq<Pair>)
    requires s.term.Some?
    ensures 5 <= |pairs| <= 8
    ensures pairs[..5] == [("db", DbName(s.db)), ("term", s.term.value), ("rettype", "xml"), ("retmode", "xml"), ("sort", "relevance")]
  {
    [("db", DbName(s.db)), ("term", s.term.value), ("rettype", "xml"), ("retmode", "xml"), ("sort", "relevance")]
    + OptionalPairs(s)
  }

  /**
   * `build_url`, as the list of query pairs handed to the URL's form
   * serializer. Without a term it panics (`expect("No term given!")`).
   */
  method BuildUrl(s: ESearch) returns (res: Outcome<seq<Pair>>)
    ensures res.Panics? <==> s.term.None?
    ensures res.Returns? ==> res.value == SearchQueryPairs(s)
  {
    if s.term.None? {
      return Panics;
    }
    var queries: seq<Pair> := [];
    queries := queries + [("db", DbName(s.db))];
    queries := queries + [("term", s.term.value)];
    queries := queries + [("rettype", "xml")];
    queries := queries + [("retmode", "xml")];
    queries := queries + [("sort", "relevance")];
    if s.retStart.Some? {
      queries := queries + [("retstart", NatToString(s.retStart.value))];
    }
    if s.retMax.Some? {
      queries := queries + [("retmax", NatToString(s.retMax.value))];
    }
    if s.field.Some? {
      queries := queries + [("field", s.field.value)];
    }
    return Returns(queries);
  }

  /** The keys of the optional pairs differ from each other. */
  lemma OptionalKeysDistinct()
    ensures "retstart" != "retmax" && "retstart" != "field" && "retmax" != "field"
  {
    assert "retstart"[3] == 's' && "retmax"[3] == 'm' && "field"[0] == 'f';
  }

  lemma RetStartReadBack(s: ESearch)
    ensures Lookup(OptionalPairs(s), "retstart") ==
      if s.retStart.Some? then Some(NatToString(s.retStart.value)) else None
  {
    OptionalKeysDistinct();
    var start := if s.retStart.Some? then [("retstart", NatToString(s.retStart.value))] else [];
    var max := if s.retMax.Some? then [("retmax", NatToString(s.retMax.value))] else [];
    var field := if s.field.Some? then [("field", s.field.value)] else [];
    assert OptionalPairs(s) == start + (max + field);
    if s.retStart.Some? {
      LookupCons(start[0], max + field, "retstart");
      assert start + (max + field) == [start[0]] + (max + field);
    } else {
      assert start + (max + field) == max + field;
      assert forall i :: 0 <= i < |max + field| ==> (max + field)[i].0 != "retstart";
    }
  }

  lemma RetMaxReadBack(s: ESearch)
    ensures Lookup(OptionalPairs(s), "retmax") ==
      if s.retMax.Some? then Some(NatToString(s.retMax.value)) else None
  {
    OptionalKeysDistinct();
    var start := if s.retStart.Some? then [("retstart", NatToString(s.retStart.value))] else [];
    var max := if s.retMax.Some? then [("retmax", NatToString(s.retMax.value))] else [];
    var field := if s.field.Some? then [("field", s.field.value)] else [];
    assert OptionalPairs(s) == start + (max + field);
    LookupAfter(start, max + field, "retmax");
    if s.retMax.Some? {
      LookupCons(max[0], field, "retmax");
      assert max + field == [max[0]] + field;
    } else {
      assert max + field == field;
      assert forall i :: 0 <= i < |field| ==> field[i].0 != "retmax";
    }
  }

  lemma FieldReadBack(s: ESearch)
    ensures Lookup(OptionalPairs(s), "field") == s.field
  {
    OptionalKeysDistinct();
    var start := if s.retStart.Some? then [("retstart", NatToString(s.retStart.value))] else [];
    var max := if s.retMax.Some? then [("retmax", NatToString(s.retMax.value))] else [];
    var field := if s.field.Some? then [("field", s.field.value)] else [];
    assert OptionalPairs(s) == (start + max) + field;
    LookupAfter(start + max, field, "field");
    if s.field.Some? {
      LookupCons(field[0], [], "field");
      assert field == [field[0]] + [];
    }
  }

  /** The optional pairs read back exactly when their settings are present. */
  lemma OptionalPairsReadBack(s: ESearch)
    ensures var tail := OptionalPairs(s);
      (Lookup(tail, "retstart").Some? <==> s.retStart.Some?)
      && (s.retStart.Some? ==> Lookup(tail, "retstart") == Some(NatToString(s.retStart.value)))
      && (Lookup(tail, "retmax").Some? <==> s.retMax.Some?)
      && (s.retMax.Some? ==> Lookup(tail, "retmax") == Some(NatToString(s.retMax.value)))
      && Lookup(tail, "field") == s.field
  {
    RetStartReadBack(s);
    RetMaxReadBack(s);
    FieldReadBack(s);
  }

  /** The five pairs every search query starts with read back, whatever follows. */
  lemma FrontReadsBack(db: string, term: string, tail: seq<Pair>)
    ensures var pairs := [("db", db), ("term", term), ("rettype", "xml"), ("retmode", "xml"), ("sort", "relevance")] + tail;
      Lookup(pairs, "db") == Some(db) && Lookup(pairs, "term") == Some(term)
      && Lookup(pairs, "rettype") == Some("xml") && Lookup(pairs, "retmode") == Some("xml")
      && Lookup(pairs, "sort") == Some("relevance")
  {
    var t4 := [("sort", "relevance")] + tail;
    var t3 := [("retmode", "xml")] + t4;
    var t2 := [("rettype", "xml")] + t3;
    var t1 := [("term", term)] + t2;
    assert [("db", db), ("term", term), ("rettype", "xml"), ("retmode", "xml"), ("sort", "relevance")] + tail
      == [("db", db)] + t1;
    assert "db"[0] == 'd' && "term"[0] == 't' && "rettype"[0] == 'r' && "retmode"[0] == 'r' && "sort"[0] == 's';
    assert "retmode"[3] == 'm' && "rettype"[3] == 't';
    LookupCons(("db", db), t1, "db");
    LookupCons(("db", db), t1, "term");
    LookupCons(("term", term), t2, "term");
    LookupCons(("db", db), t1, "rettype");
    LookupCons(("term", term), t2, "rettype");
    LookupCons(("rettype", "xml"), t3, "rettype");
    LookupCons(("db", db), t1, "retmode");
    LookupCons(("term", term), t2, "retmode");
    LookupCons(("rettype", "xml"), t3, "retmode");
    LookupCons(("retmode", "xml"), t4, "retmode");
    LookupCons(("db", db), t1, "sort");
    LookupCons(("term", term), t2, "sort");
    LookupCons(("rettype", "xml"), t3, "sort");
    LookupCons(("retmode", "xml"), t4, "sort");
    LookupCons(("sort", "relevance"), tail, "sort");
  }

  /**
   * What a reader of the query finds: the database, the term, XML as type
   * and mode, relevance order, and each refinement exactly when it is set.
   */
  lemma SearchQueryReadsBack(s: ESearch)
    requires s.term.Some?
    ensures var pairs := SearchQueryPairs(s);
      Lookup(pairs, "db") == Some(DbName(s.db)) && Lookup(pairs, "term") == s.term
      && Lookup(pairs, "rettype") == Some("xml") && Lookup(pairs, "retmode") == Some("xml")
      && Lookup(pairs, "sort") == Some("relevance")
      && (Lookup(pairs, "retstart").Some? <==> s.retStart.Some?)
      && (s.retStart.Some? ==> Lookup(pairs, "retstart") == Some(NatToString(s.retStart.value)))
      && (Lookup(pairs, "retmax").Some? <==> s.retMax.Some?)
      && (s.retMax.Some? ==> Lookup(pairs, "retmax") == Some(NatToString(s.retMax.value)))
      && Lookup(pairs, "field") == s.field
  {
    var front := [("db", DbName(s.db)), ("term", s.term.value), ("rettype", "xml"), ("retmode", "xml"), ("sort", "relevance")];
    var tail := OptionalPairs(s);
    OptionalPairsReadBack(s);
    LookupAfter(front, tail, "retstart");
    LookupAfter(front, tail, "retmax");
    LookupAfter(front, tail, "field");
    FrontReadsBack(DbName(s.db), s.term.value, tail);
  }

  /**
   * `ESearch::search` on the response's events: the search result read from
   * the start of the response. Without a term, building the address panics
   * first.
   */
  method SearchData(s: ESearch, response: seq<Event>) returns (res: Parse<ESearchResult>)
    ensures s.term.None? ==> res == Panic
    ensures s.term.Some? ==> res == ESearchResultLoop(response, 0, DefaultESearchResult)
  {
    if s.term.None? {
      return Panic;
    }
    var reader := new Reader(response);
    res := ESearchResultFromReader(reader);
  }

  /** The decimal text of 100 and of 1000. */
  lemma Hundreds()
    ensures NatToString(100) == "100" && NatToString(1000) == "1000"
  {
    assert NatToString(1) == "1";
    assert NatToString(10) == "10";
    assert NatToString(100) == "100";
  }

  /**
   * The tests `test_builder`, `test_builder_retstart`, `test_builder_retmax`,
   * `test_builder_field` and `test_builder_combination`: the pairs of each
   * built genome search for "deaminase".
   */
  lemma BuilderTests()
    ensures var base := Term(New(Genome), "deaminase");
      var front := [("db", "genome"), ("term", "deaminase"), ("rettype", "xml"), ("retmode", "xml"), ("sort", "relevance")];
      && SearchQueryPairs(base) == front
      && SearchQueryPairs(Start(base, 100)) == front + [("retstart", "100")]
      && SearchQueryPairs(Max(base, 100)) == front + [("retmax", "100")]
      && SearchQueryPairs(Field(base, "title")) == front + [("field", "title")]
      && SearchQueryPairs(Field(Max(Start(base, 1000), 1000), "title"))
         == front + [("retstart", "1000"), ("retmax", "1000"), ("field", "title")]
  {
    Hundreds();
  }
}
