/**
 * The root dispatch of `parse_xml`: the reader is scanned for the first
 * start tag that names a known document root, and that root's reader takes
 * over. `src/eutils/mod.rs` and `src/helpers.rs` know one root
 * (`Bioseq-set`) and report failure as `Err(())`; `src/eutils.rs` also
 * knows `Entrezgene-Set` and reports failures as messages.
 */
module ParseXml {
  import opened Wrappers
  import opened Xml
  import opened SeqSet
  import EntrezGene

  /** `DataType`: what a parsed document holds. */
  datatype DataType =
    | BioSeqSetData(bioseqSet: BioSeqSet)
    | EntrezgeneSetData(genes: seq<EntrezGene.Entrezgene>)
    | EtAl

  const FAILED_BIOSEQ_SET := "Failed to parse BioSeqSet."
  const FAILED_ENTREZGENE_SET := "Failed to parse EntrezgeneSet."
  const NO_ROOT := "No recognizable XML root tag found."
  const XML_ERROR := "XML parsing error: "

  // ----------------------------------------------------------------------
  // The one-root scan of src/eutils/mod.rs and src/helpers.rs
  // ----------------------------------------------------------------------

  /**
   * The loop of `parse_xml` (and of `EFetch::fetch`): events other than a
   * start `Bioseq-set` are passed over; at that start the set is read and
   * unwrapped; Eof ends the scan with nothing found; a reader error panics
   * (`read_event().unwrap()`).
   */
  function FirstSetLoop(ev: seq<Event>, pos: nat): (p: Parse<Option<BioSeqSet>>)
    requires pos <= |ev|
    ensures Advances(ev, pos, p)
    ensures p.Done? && p.value.Some? ==> pos < p.next && ev[p.next - 1] == End(BIOSEQ_SET)
    ensures p.Done? && p.value.None? ==> p.next == |ev| || (pos < p.next && ev[p.next - 1] == Eof)
    decreases |ev| - pos
  {
    match At(ev, pos)
    case Error(_) => Panic
    case Eof => Done(None, Next(ev, pos))
    case Start(n, _) =>
      if n == BIOSEQ_SET then
        match BioSeqSetLoop(ev, pos + 1, DefaultBioSeqSet)
        case Done(Some(s), q) => Done(Some(s), q)
        case Done(None, _) => Panic
        case Panic => Panic
        case Hang => Hang
      else FirstSetLoop(ev, pos + 1)
    case _ => FirstSetLoop(ev, pos + 1)
  }

  /** Events the one-root scan passes over. */
  predicate PassedBySetScan(e: Event)
  {
    !e.Error? && e != Eof && !(e.Start? && e.name == BIOSEQ_SET)
  }

  lemma {:induction false} FirstSetScan(ev: seq<Event>, pos: nat, k: nat)
    requires pos <= k <= |ev|
    requires forall j :: pos <= j < k ==> PassedBySetScan(ev[j])
    ensures FirstSetLoop(ev, pos) == FirstSetLoop(ev, k)
    decreases k - pos
  {
    if pos < k {
      FirstSetScan(ev, pos + 1, k);
    }
  }

  /**
   * The first `Bioseq-set` start decides: the result is the set read after
   * it, which keeps every default field but its entries.
   */
  lemma FirstSetDecides(ev: seq<Event>, pos: nat, k: nat)
    requires pos <= k < |ev| && ev[k].Start? && ev[k].name == BIOSEQ_SET
    requires forall j :: pos <= j < k ==> PassedBySetScan(ev[j])
    ensures FirstSetLoop(ev, pos) == BioSeqSetLoop(ev, k + 1, DefaultBioSeqSet)
    ensures FirstSetLoop(ev, pos).Done? ==>
      FirstSetLoop(ev, pos).value == Some(DefaultBioSeqSet.(seqSet := FirstSetLoop(ev, pos).value.value.seqSet))
  {
    FirstSetScan(ev, pos, k);
  }

  /** Without a `Bioseq-set` start or a reader error, the scan finds nothing. */
  lemma NoSetFindsNothing(ev: seq<Event>, pos: nat)
    requires pos <= |ev|
    requires forall j :: pos <= j < |ev| ==> !ev[j].Error? && !(ev[j].Start? && ev[j].name == BIOSEQ_SET)
    ensures FirstSetLoop(ev, pos).Done? && FirstSetLoop(ev, pos).value.None?
  {
    var k := pos;
    while k < |ev| && ev[k] != Eof
      invariant pos <= k <= |ev|
      invariant forall j :: pos <= j < k ==> PassedBySetScan(ev[j])
      decreases |ev| - k
    {
      k := k + 1;
    }
    FirstSetScan(ev, pos, k);
  }

  /** The one-root loop over a reader. */
  method FirstSetFromReader(r: Reader) returns (res: Parse<Option<BioSeqSet>>)
    requires r.Valid()
    modifies r
    ensures r.Valid() && res == FirstSetLoop(r.events, old(r.pos))
  {
    while true
      invariant r.Valid()
      invariant FirstSetLoop(r.events, r.pos) == FirstSetLoop(r.events, old(r.pos))
      decreases |r.events| - r.pos
    {
      var e := r.ReadEvent();
      match e {
        case Error(_) => return Panic;
        case Eof => return Done(None, r.pos);
        case Start(n, _) =>
          if n == BIOSEQ_SET {
            var s := BioSeqSetFromReader(r);
            match s {
              case Done(Some(v), q) => return Done(Some(v), q);
              case Done(None, _) => return Panic;
              case Panic => return Panic;
              case Hang => return Hang;
            }
          }
        case _ =>
      }
    }
  }

  /** `Err(())` when no root was found, the set otherwise. */
  function UnitResult(p: Parse<Option<BioSeqSet>>): (r: Parse<Result<DataType, ()>>)
    ensures r.Done? <==> p.Done?
    ensures r.Done? ==> r.next == p.next && (r.value.Ok? <==> p.value.Some?)
    ensures r.Done? && r.value.Ok? ==> r.value.value == BioSeqSetData(p.value.value)
  {
    match p
    case Done(Some(s), q) => Done(Ok(BioSeqSetData(s)), q)
    case Done(None, q) => Done(Err(()), q)
    case Panic => Panic
    case Hang => Hang
  }

  /** `parse_xml` of `src/eutils/mod.rs` and `src/helpers.rs`, over the document's events. */
  method ParseXmlUnit(events: seq<Event>) returns (res: Parse<Result<DataType, ()>>)
    ensures res == UnitResult(FirstSetLoop(events, 0))
  {
    var reader := new Reader(events);
    var p := FirstSetFromReader(reader);
    match p {
      case Done(Some(s), q) => res := Done(Ok(BioSeqSetData(s)), q);
      case Done(None, q) => res := Done(Err(()), q);
      case Panic => res := Panic;
      case Hang => res := Hang;
    }
  }

  // ----------------------------------------------------------------------
  // The two-root scan of src/eutils.rs
  // ----------------------------------------------------------------------

  /**
   * The loop of `parse_xml` in `src/eutils.rs`: the first start tag named
   * `Bioseq-set` or `Entrezgene-Set` hands over to that root's reader,
   * whose missing result becomes an error message; a reader error and Eof
   * end the scan with a message.
   */
  function RootLoop(ev: seq<Event>, pos: nat): (p: Parse<Result<DataType, string>>)
    requires pos <= |ev|
    ensures Advances(ev, pos, p)
    ensures p.Done? && p.value.Ok? ==> !p.value.value.EtAl?
    ensures p.Done? && p.value.Ok? && p.value.value.BioSeqSetData? ==> pos < p.next && ev[p.next - 1] == End(BIOSEQ_SET)
    ensures p.Done? && p.value.Ok? && p.value.value.EntrezgeneSetData? ==>
      pos < p.next && ev[p.next - 1] == End(EntrezGene.ENTREZGENE_SET)
    ensures p.Done? ==> p.value != Err(FAILED_BIOSEQ_SET)
    decreases |ev| - pos
  {
    match At(ev, pos)
    case Error(msg) =>
      assert (XML_ERROR + msg)[0] != FAILED_BIOSEQ_SET[0];
      Done(Err(XML_ERROR + msg), Next(ev, pos))
    case Eof => Done(Err(NO_ROOT), Next(ev, pos))
    case Start(n, _) =>
      if n == BIOSEQ_SET then
        match BioSeqSetLoop(ev, pos + 1, DefaultBioSeqSet)
        case Done(Some(s), q) => Done(Ok(BioSeqSetData(s)), q)
        case Done(None, q) => Done(Err(FAILED_BIOSEQ_SET), q)
        case Panic => Panic
        case Hang => Hang
      else if n == EntrezGene.ENTREZGENE_SET then
        match EntrezGene.EntrezgeneSetLoop(ev, pos + 1, [])
        case Done(Some(g), q) => Done(Ok(EntrezgeneSetData(g)), q)
        case Done(None, q) => Done(Err(FAILED_ENTREZGENE_SET), q)
        case Panic => Panic
        case Hang => Hang
      else RootLoop(ev, pos + 1)
    case _ => RootLoop(ev, pos + 1)
  }

  /** The `Err` messages of `src/eutils.rs` name what went wrong. */
  lemma RootErrors(ev: seq<Event>, pos: nat)
    requires pos <= |ev|
    ensures var p := RootLoop(ev, pos);
      p.Done? && p.value.Err? ==>
        p.value.error == NO_ROOT || p.value.error == FAILED_ENTREZGENE_SET
        || (|p.value.error| >= |XML_ERROR| && p.value.error[..|XML_ERROR|] == XML_ERROR)
    decreases |ev| - pos
  {
    match At(ev, pos)
    case Error(msg) =>
      assert (XML_ERROR + msg)[..|XML_ERROR|] == XML_ERROR;
    case Eof =>
    case Start(n, _) =>
      if n != BIOSEQ_SET && n != EntrezGene.ENTREZGENE_SET {
        RootErrors(ev, pos + 1);
      }
    case _ =>
      RootErrors(ev, pos + 1);
  }

  /**
   * Fed the same event list, with no reader error and no `Entrezgene-Set`
   * start in it, the two `parse_xml` versions agree: the same set, or "no
   * root" where the one-root version gives `Err(())`. The two versions do
   * not build the same list from one document: only the two-root version
   * trims text events and drops the empty ones.
   */
  lemma {:induction false} RootLoopAgrees(ev: seq<Event>, pos: nat)
    requires pos <= |ev|
    requires forall j :: pos <= j < |ev| ==> !ev[j].Error? && !(ev[j].Start? && ev[j].name == EntrezGene.ENTREZGENE_SET)
    ensures RootLoop(ev, pos) ==
      match FirstSetLoop(ev, pos)
      case Done(Some(s), q) => Done(Ok(BioSeqSetData(s)), q)
      case Done(None, q) => Done(Err(NO_ROOT), q)
      case Panic => Panic
      case Hang => Hang
    decreases |ev| - pos
  {
    if pos < |ev| {
      match ev[pos]
      case Start(n, _) =>
        if n != BIOSEQ_SET {
          RootLoopAgrees(ev, pos + 1);
        }
      case End(_) => RootLoopAgrees(ev, pos + 1);
      case Text(_) => RootLoopAgrees(ev, pos + 1);
      case Other => RootLoopAgrees(ev, pos + 1);
      case Eof =>
    }
  }

  /** The two-root loop over a reader. */
  method RootFromReader(r: Reader) returns (res: Parse<Result<DataType, string>>)
    requires r.Valid()
    modifies r
    ensures r.Valid() && res == RootLoop(r.events, old(r.pos))
  {
    while true
      invariant r.Valid()
      invariant RootLoop(r.events, r.pos) == RootLoop(r.events, old(r.pos))
      decreases |r.events| - r.pos
    {
      var e := r.ReadEvent();
      match e {
        case Error(msg) => return Done(Err(XML_ERROR + msg), r.pos);
        case Eof => return Done(Err(NO_ROOT), r.pos);
        case Start(n, _) =>
          if n == BIOSEQ_SET {
            var s := BioSeqSetFromReader(r);
            match s {
              case Done(Some(v), q) => return Done(Ok(BioSeqSetData(v)), q);
              case Done(None, q) => return Done(Err(FAILED_BIOSEQ_SET), q);
              case Panic => return Panic;
              case Hang => return Hang;
            }
          } else if n == EntrezGene.ENTREZGENE_SET {
            var g := EntrezGene.EntrezgeneSetFromReader(r);
            match g {
              case Done(Some(v), q) => return Done(Ok(EntrezgeneSetData(v)), q);
              case Done(None, q) => return Done(Err(FAILED_ENTREZGENE_SET), q);
              case Panic => return Panic;
              case Hang => return Hang;
            }
          }
        case _ =>
      }
    }
  }

  /** `parse_xml` of `src/eutils.rs`, over the document's events. */
  method ParseXmlMessages(events: seq<Event>) returns (res: Parse<Result<DataType, string>>)
    ensures res == RootLoop(events, 0)
  {
    var reader := new Reader(events);
    res := RootFromReader(reader);
  }
}
