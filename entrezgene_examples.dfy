/**
 * The two documents of the tests in `src/asn/entrezgene.rs`, as event
 * streams read with `trim_text(true)`, and what `Entrezgene::from_reader`
 * makes of them once the test's loop has read the Start `Entrezgene`.
 */
module EntrezGeneExamples {
  import opened Wrappers
  import opened Bytes
  import opened Xml
  import ParsingUtils
  import opened EntrezGene

  /** A text event holding the ASCII bytes of `s`. */
  function Txt(s: string): Event
    requires IsPlainText(s)
  {
    PlainTextRoundTrip(s);
    Event.Text(AsciiBytes(s))
  }

  /** Reading the text event of a plain string gives that string back. */
  lemma ReadTxt(ev: seq<Event>, pos: nat, s: string)
    requires pos < |ev| && IsPlainText(s) && ev[pos] == Txt(s)
    ensures ParsingUtils.ReadStringSpec(ev, pos) == Done(Some(s), pos + 1)
  {
    PlainTextRoundTrip(s);
  }

  function Value(v: string): seq<Attribute>
  {
    [Attribute("value", v)]
  }

  // ----------------------------------------------------------------------
  // One step of each reader loop
  // ----------------------------------------------------------------------

  lemma TrackStartStep(ev: seq<Event>, pos: nat, n: string, a: seq<Attribute>, t: GeneTrack, t': GeneTrack, q: nat)
    requires pos < |ev| && ev[pos] == Start(n, a) && q <= |ev|
    requires GeneTrackChild(ev, pos + 1, n, t) == Done(t', q)
    ensures GeneTrackLoop(ev, pos, t) == GeneTrackLoop(ev, q, t')
  {
  }

  lemma TrackEndStep(ev: seq<Event>, pos: nat, n: string, t: GeneTrack)
    requires pos < |ev| && ev[pos] == End(n)
    ensures GeneTrackLoop(ev, pos, t) == if n == GENE_TRACK then Done(Some(t), pos + 1) else GeneTrackLoop(ev, pos + 1, t)
  {
  }

  lemma CommentaryEndStep(ev: seq<Event>, pos: nat, n: string, c: GeneCommentary)
    requires pos < |ev| && ev[pos] == End(n)
    ensures GeneCommentaryLoop(ev, pos, c) == if n == GENE_COMMENTARY then Done(Some(c), pos + 1) else GeneCommentaryLoop(ev, pos + 1, c)
  {
  }

  lemma GeneEndStep(ev: seq<Event>, pos: nat, n: string, g: Entrezgene)
    requires pos < |ev| && ev[pos] == End(n)
    ensures EntrezgeneLoop(ev, pos, g) == if n == ENTREZGENE then Done(Some(g), pos + 1) else EntrezgeneLoop(ev, pos + 1, g)
  {
  }

  // ----------------------------------------------------------------------
  // The children the two documents use, each read from its Start
  // ----------------------------------------------------------------------

  /** A decimal numeral is plain text. */
  lemma NumeralIsPlain(v: nat)
    ensures IsPlainText(NatToString(v))
  {
    DigitsValueOfNatToString(v);
  }

  lemma GeneidChild(ev: seq<Event>, p: nat, t: GeneTrack, v: nat)
    requires p < |ev| && v <= U64_MAX
    requires IsPlainText(NatToString(v)) && ev[p] == Txt(NatToString(v))
    ensures GeneTrackChild(ev, p, "Gene-track_geneid", t) == Done(t.(geneid := v), p + 1)
  {
    ReadTxt(ev, p, NatToString(v));
    ParseU64OfNatToString(v);
  }

  lemma StatusChild(ev: seq<Event>, p: nat, t: GeneTrack, s: string)
    requires p < |ev| && IsPlainText(s) && ev[p] == Txt(s)
    ensures GeneTrackChild(ev, p, "Gene-track_status", t) == Done(t.(status := GeneTrackStatusOf(s)), p + 1)
  {
    ReadTxt(ev, p, s);
  }

  lemma UnknownTrackChild(ev: seq<Event>, p: nat, t: GeneTrack)
    requires p <= |ev|
    ensures GeneTrackChild(ev, p, GENE_TRACK, t) == Done(t, p)
  {
  }

  lemma CommentaryTypeStep(ev: seq<Event>, pos: nat, n: string, a: seq<Attribute>, c: GeneCommentary, s: string)
    requires pos + 1 < |ev| && ev[pos] == Start(n, a) && IsPlainText(s) && ev[pos + 1] == Txt(s)
    requires CommentaryTagOf(n) == Some(CommentaryTag.Type)
    ensures GeneCommentaryLoop(ev, pos, c) == GeneCommentaryLoop(ev, pos + 2, c.(commentaryType := GeneCommentaryTypeOf(s)))
  {
    ReadTxt(ev, pos + 1, s);
  }

  lemma CommentaryTextStep(ev: seq<Event>, pos: nat, n: string, a: seq<Attribute>, c: GeneCommentary, s: string)
    requires pos + 1 < |ev| && ev[pos] == Start(n, a) && IsPlainText(s) && ev[pos + 1] == Txt(s)
    requires CommentaryTagOf(n) == Some(CommentaryTag.Text)
    ensures GeneCommentaryLoop(ev, pos, c) == GeneCommentaryLoop(ev, pos + 2, c.(text := Some(s)))
  {
    ReadTxt(ev, pos + 1, s);
  }

  lemma TrackInfoStep(ev: seq<Event>, pos: nat, n: string, a: seq<Attribute>, g: Entrezgene, o: Option<GeneTrack>, q: nat)
    requires pos < |ev| && ev[pos] == Start(n, a) && GeneTagOf(n) == Some(GeneTag.TrackInfo)
    requires GeneTrackLoop(ev, pos + 1, DefaultGeneTrack) == Done(o, q)
    ensures EntrezgeneLoop(ev, pos, g) == EntrezgeneLoop(ev, q, g.(trackInfo := o))
  {
  }

  lemma GeneTypeStep(ev: seq<Event>, pos: nat, n: string, a: seq<Attribute>, g: Entrezgene, s: string)
    requires pos + 1 < |ev| && ev[pos] == Start(n, a) && IsPlainText(s) && ev[pos + 1] == Txt(s)
    requires GeneTagOf(n) == Some(GeneTag.GeneType)
    ensures EntrezgeneLoop(ev, pos, g) == EntrezgeneLoop(ev, pos + 2, g.(geneType := EntrezgeneTypeOf(s)))
  {
    ReadTxt(ev, pos + 1, s);
  }

  lemma CommentsMember(ev: seq<Event>, p: nat, n: string, g: Entrezgene, l: seq<GeneCommentary>, q: nat)
    requires p <= |ev|
    requires Element.CollectLoop(ev, p, GENE_COMMENTARY, n, CommentaryItem(ev), []) == Done(l, q)
    ensures GeneMember(ev, p, n, GeneTag.Comments, g) == Done(g.(comments := Some(l)), q)
  {
  }

  lemma CommentsChild(ev: seq<Event>, p: nat, n: string, g: Entrezgene, l: seq<GeneCommentary>, q: nat)
    requires p <= |ev| && GeneTagOf(n) == Some(GeneTag.Comments)
    requires Element.CollectLoop(ev, p, GENE_COMMENTARY, n, CommentaryItem(ev), []) == Done(l, q)
    ensures GeneChild(ev, p, n, g) == Done(g.(comments := Some(l)), q)
  {
    CommentsMember(ev, p, n, g, l, q);
  }

  lemma GeneStartStep(ev: seq<Event>, pos: nat, n: string, a: seq<Attribute>, g: Entrezgene, g': Entrezgene, q: nat)
    requires pos < |ev| && ev[pos] == Start(n, a) && q <= |ev|
    requires GeneChild(ev, pos + 1, n, g) == Done(g', q)
    ensures EntrezgeneLoop(ev, pos, g) == EntrezgeneLoop(ev, q, g')
  {
  }

  lemma TrackInfoTag()
    ensures GeneTagOf("Entrezgene_track-info") == Some(GeneTag.TrackInfo)
  {
    GeneTagNames(GeneTag.TrackInfo);
  }

  lemma TypeTag()
    ensures GeneTagOf("Entrezgene_type") == Some(GeneTag.GeneType)
  {
    GeneTagNames(GeneTag.GeneType);
  }

  lemma CommentsTag()
    ensures GeneTagOf("Entrezgene_comments") == Some(GeneTag.Comments)
  {
    GeneTagNames(GeneTag.Comments);
  }

  // ----------------------------------------------------------------------
  // test_entrezgene_integration_minimal, for any gene id
  // ----------------------------------------------------------------------

  /**
   * The events after `<Entrezgene-Set><Entrezgene>` in the minimal document
   * with the gene id `id` (7161 in the test).
   */
  function MinimalEvents(id: nat): (ev: seq<Event>)
    ensures |ev| == 15
  {
    NumeralIsPlain(id);
    [ Start("Entrezgene_track-info", []),
      Start(GENE_TRACK, []),
      Start("Gene-track_geneid", []), Txt(NatToString(id)), End("Gene-track_geneid"),
      Start("Gene-track_status", Value("live")), Txt("0"), End("Gene-track_status"),
      End(GENE_TRACK),
      End("Entrezgene_track-info"),
      Start("Entrezgene_type", Value("protein-coding")), Txt("6"), End("Entrezgene_type"),
      End(ENTREZGENE),
      End(ENTREZGENE_SET) ]
  }

  /** The track the minimal document describes. */
  function MinimalTrack(id: nat): GeneTrack
  {
    DefaultGeneTrack.(geneid := id, status := GeneTrackStatus.Live)
  }

  /** The record the minimal document describes. */
  function MinimalGene(id: nat): Entrezgene
  {
    InitialGene.(trackInfo := Some(MinimalTrack(id)), geneType := EntrezgeneType.ProteinCoding)
  }

  /** Text "0" is the status code of a live record. */
  lemma LiveCode()
    ensures GeneTrackStatusOf("0") == GeneTrackStatus.Live
  {
  }

  /** Text "6" is the type code of a protein-coding gene. */
  lemma ProteinCodingCode()
    ensures EntrezgeneTypeOf("6") == EntrezgeneType.ProteinCoding
  {
  }

  /** A track whose status member holds "0" right before the End `Gene-track` ends live. */
  lemma StatusThenEnd(ev: seq<Event>, t: GeneTrack)
    requires 8 < |ev|
    requires ev[5] == Start("Gene-track_status", Value("live")) && ev[6] == Txt("0")
    requires ev[7] == End("Gene-track_status") && ev[8] == End(GENE_TRACK)
    ensures GeneTrackLoop(ev, 5, t) == Done(Some(t.(status := GeneTrackStatus.Live)), 9)
  {
    var t' := t.(status := GeneTrackStatus.Live);
    LiveCode();
    TrackEndStep(ev, 8, GENE_TRACK, t');
    TrackEndStep(ev, 7, "Gene-track_status", t');
    StatusChild(ev, 6, t, "0");
    TrackStartStep(ev, 5, "Gene-track_status", Value("live"), t, t', 7);
  }

  /** A geneid member holding the numeral of `v` sets the gene id to `v`. */
  lemma GeneidMember(ev: seq<Event>, v: nat, r: Parse<Option<GeneTrack>>)
    requires 4 < |ev| && v <= U64_MAX && IsPlainText(NatToString(v))
    requires ev[2] == Start("Gene-track_geneid", []) && ev[3] == Txt(NatToString(v))
    requires ev[4] == End("Gene-track_geneid")
    requires GeneTrackLoop(ev, 5, DefaultGeneTrack.(geneid := v)) == r
    ensures GeneTrackLoop(ev, 2, DefaultGeneTrack) == r
  {
    var t := DefaultGeneTrack.(geneid := v);
    TrackEndStep(ev, 4, "Gene-track_geneid", t);
    GeneidChild(ev, 3, DefaultGeneTrack, v);
    TrackStartStep(ev, 2, "Gene-track_geneid", [], DefaultGeneTrack, t, 4);
  }

  /**
   * `GeneTrack::from_reader` on a track made of the geneid `v` and the
   * status "0" yields that id and status Live.
   */
  lemma TrackOfGeneidAndStatus(ev: seq<Event>, v: nat)
    requires 8 < |ev| && v <= U64_MAX && IsPlainText(NatToString(v))
    requires ev[1] == Start(GENE_TRACK, [])
    requires ev[2] == Start("Gene-track_geneid", []) && ev[3] == Txt(NatToString(v))
    requires ev[4] == End("Gene-track_geneid")
    requires ev[5] == Start("Gene-track_status", Value("live")) && ev[6] == Txt("0")
    requires ev[7] == End("Gene-track_status") && ev[8] == End(GENE_TRACK)
    ensures GeneTrackLoop(ev, 1, DefaultGeneTrack) == Done(Some(MinimalTrack(v)), 9)
  {
    StatusThenEnd(ev, DefaultGeneTrack.(geneid := v));
    GeneidMember(ev, v, Done(Some(MinimalTrack(v)), 9));
    UnknownTrackChild(ev, 2, DefaultGeneTrack);
    TrackStartStep(ev, 1, GENE_TRACK, [], DefaultGeneTrack, DefaultGeneTrack, 2);
  }

  /**
   * Any stream whose `Entrezgene_type` member holds the text `s` right
   * before the End `Entrezgene` sets the type read from `s`.
   */
  lemma TypeThenEnd(ev: seq<Event>, pos: nat, a: seq<Attribute>, g: Entrezgene, s: string)
    requires pos + 3 < |ev| && IsPlainText(s)
    requires ev[pos] == Start("Entrezgene_type", a) && ev[pos + 1] == Txt(s)
    requires ev[pos + 2] == End("Entrezgene_type") && ev[pos + 3] == End(ENTREZGENE)
    ensures EntrezgeneLoop(ev, pos, g) == Done(Some(g.(geneType := EntrezgeneTypeOf(s))), pos + 4)
  {
    var g' := g.(geneType := EntrezgeneTypeOf(s));
    GeneEndStep(ev, pos + 3, ENTREZGENE, g');
    GeneEndStep(ev, pos + 2, "Entrezgene_type", g');
    TypeMember(ev, pos, a, s, g);
  }

  /** After the track-info member of the minimal document: its End, then the type. */
  lemma AfterTrack(ev: seq<Event>, q: nat, g: Entrezgene, a: seq<Attribute>, s: string)
    requires q + 4 < |ev| && IsPlainText(s)
    requires ev[q] == End("Entrezgene_track-info")
    requires ev[q + 1] == Start("Entrezgene_type", a) && ev[q + 2] == Txt(s)
    requires ev[q + 3] == End("Entrezgene_type") && ev[q + 4] == End(ENTREZGENE)
    ensures EntrezgeneLoop(ev, q, g) == Done(Some(g.(geneType := EntrezgeneTypeOf(s))), q + 5)
  {
    TypeThenEnd(ev, q + 1, a, g, s);
    GeneEndStep(ev, q, "Entrezgene_track-info", g);
  }

  /** A stream that opens with a track-info member reading as `t` goes on with that track. */
  lemma TrackFirst(ev: seq<Event>, t: GeneTrack, q: nat, r: Parse<Option<Entrezgene>>)
    requires 0 < |ev| && q <= |ev| && ev[0] == Start("Entrezgene_track-info", [])
    requires GeneTrackLoop(ev, 1, DefaultGeneTrack) == Done(Some(t), q)
    requires EntrezgeneLoop(ev, q, InitialGene.(trackInfo := Some(t))) == r
    ensures EntrezgeneLoop(ev, 0, InitialGene) == r
  {
    TrackInfoTag();
    TrackInfoStep(ev, 0, "Entrezgene_track-info", [], InitialGene, Some(t), q);
  }

  /**
   * Any stream laid out as the minimal document, with the gene id `v`,
   * yields a gene of type ProteinCoding whose track has the id `v` and
   * status Live.
   */
  lemma MinimalLayout(ev: seq<Event>, v: nat)
    requires 13 < |ev| && v <= U64_MAX && IsPlainText(NatToString(v))
    requires ev[0] == Start("Entrezgene_track-info", []) && ev[1] == Start(GENE_TRACK, [])
    requires ev[2] == Start("Gene-track_geneid", []) && ev[3] == Txt(NatToString(v))
    requires ev[4] == End("Gene-track_geneid")
    requires ev[5] == Start("Gene-track_status", Value("live")) && ev[6] == Txt("0")
    requires ev[7] == End("Gene-track_status") && ev[8] == End(GENE_TRACK)
    requires ev[9] == End("Entrezgene_track-info")
    requires ev[10] == Start("Entrezgene_type", Value("protein-coding")) && ev[11] == Txt("6")
    requires ev[12] == End("Entrezgene_type") && ev[13] == End(ENTREZGENE)
    ensures EntrezgeneLoop(ev, 0, InitialGene) == Done(Some(MinimalGene(v)), 14)
  {
    TrackOfGeneidAndStatus(ev, v);
    ProteinCodingCode();
    AfterTrack(ev, 9, InitialGene.(trackInfo := Some(MinimalTrack(v))), Value("protein-coding"), "6");
    TrackFirst(ev, MinimalTrack(v), 9, Done(Some(MinimalGene(v)), 14));
  }

  /** The minimal document has the layout `MinimalLayout` reads. */
  lemma MinimalShape(id: nat)
    ensures var ev := MinimalEvents(id);
      13 < |ev| && IsPlainText(NatToString(id))
      && ev[0] == Start("Entrezgene_track-info", []) && ev[1] == Start(GENE_TRACK, [])
      && ev[2] == Start("Gene-track_geneid", []) && ev[3] == Txt(NatToString(id))
      && ev[4] == End("Gene-track_geneid")
      && ev[5] == Start("Gene-track_status", Value("live")) && ev[6] == Txt("0")
      && ev[7] == End("Gene-track_status") && ev[8] == End(GENE_TRACK)
      && ev[9] == End("Entrezgene_track-info")
      && ev[10] == Start("Entrezgene_type", Value("protein-coding")) && ev[11] == Txt("6")
      && ev[12] == End("Entrezgene_type") && ev[13] == End(ENTREZGENE)
  {
    NumeralIsPlain(id);
  }

  // ----------------------------------------------------------------------
  // test_entrezgene_integration_comments, for any plain commentary text
  // ----------------------------------------------------------------------

  /**
   * The events after `<Entrezgene-Set><Entrezgene>` in the comments document
   * with the commentary text `text` ("This is an example" in the test).
   */
  function CommentsEvents(text: string): (ev: seq<Event>)
    requires IsPlainText(text)
    ensures |ev| == 15
  {
    [ Start("Entrezgene_type", Value("pseudo")), Txt("7"), End("Entrezgene_type"),
      Start("Entrezgene_comments", []),
      Start(GENE_COMMENTARY, []),
      Start("Gene-commentary_type", Value("mRNA")), Txt("3"), End("Gene-commentary_type"),
      Start("Gene-commentary_text", []), Txt(text), End("Gene-commentary_text"),
      End(GENE_COMMENTARY),
      End("Entrezgene_comments"),
      End(ENTREZGENE),
      End(ENTREZGENE_SET) ]
  }

  /** The commentary the comments document describes. */
  function ExampleCommentary(text: string): GeneCommentary
  {
    InitialCommentary.(commentaryType := GeneCommentaryType.MRna, text := Some(text))
  }

  /** The record the comments document describes. */
  function CommentsGene(text: string): Entrezgene
  {
    InitialGene.(geneType := EntrezgeneType.Pseudo, comments := Some([ExampleCommentary(text)]))
  }

  /**
   * Any commentary whose members are a type holding the text `s` and a text
   * holding `text` has that type and that text.
   */
  lemma TypeThenText(ev: seq<Event>, pos: nat, a: seq<Attribute>, s: string, text: string)
    requires pos + 6 < |ev| && IsPlainText(s) && IsPlainText(text)
    requires ev[pos] == Start("Gene-commentary_type", a) && ev[pos + 1] == Txt(s) && ev[pos + 2] == End("Gene-commentary_type")
    requires ev[pos + 3] == Start("Gene-commentary_text", []) && ev[pos + 4] == Txt(text) && ev[pos + 5] == End("Gene-commentary_text")
    requires ev[pos + 6] == End(GENE_COMMENTARY)
    ensures GeneCommentaryLoop(ev, pos, InitialCommentary)
      == Done(Some(InitialCommentary.(commentaryType := GeneCommentaryTypeOf(s), text := Some(text))), pos + 7)
  {
    var c1 := InitialCommentary.(commentaryType := GeneCommentaryTypeOf(s));
    var c2 := c1.(text := Some(text));
    CommentaryEndStep(ev, pos + 6, GENE_COMMENTARY, c2);
    CommentaryEndStep(ev, pos + 5, "Gene-commentary_text", c2);
    CommentaryTagNames(CommentaryTag.Text);
    CommentaryTextStep(ev, pos + 3, "Gene-commentary_text", [], c1, text);
    CommentaryEndStep(ev, pos + 2, "Gene-commentary_type", c1);
    CommentaryTagNames(CommentaryTag.Type);
    CommentaryTypeStep(ev, pos, "Gene-commentary_type", a, InitialCommentary, s);
  }

  /** The code 3 reads as `mRNA`. */
  lemma CodeThreeIsMRna()
    ensures GeneCommentaryTypeOf("3") == GeneCommentaryType.MRna
  {
    assert NatToString(3) == "3";
    GeneCommentaryTypeOfOfCode(GeneCommentaryType.MRna);
  }

  lemma CollectItemStep<T>(ev: seq<Event>, pos: nat, start: string, end: string, a: seq<Attribute>,
                          item: nat --> Parse<Option<T>>, items: seq<T>, v: T, q: nat)
    requires pos < |ev| && q <= |ev| && ev[pos] == Start(start, a) && Element.ItemReader(ev, item)
    requires item(pos + 1) == Done(Some(v), q)
    ensures Element.CollectLoop(ev, pos, start, end, item, items) == Element.CollectLoop(ev, q, start, end, item, items + [v])
  {
  }

  lemma CollectEndStep<T>(ev: seq<Event>, pos: nat, start: string, end: string, item: nat --> Parse<Option<T>>, items: seq<T>)
    requires pos < |ev| && ev[pos] == End(end) && Element.ItemReader(ev, item)
    ensures Element.CollectLoop(ev, pos, start, end, item, items) == Done(items, pos + 1)
  {
  }

  /** A list whose one item reads as `v` and is followed by its closing tag is read as `[v]`. */
  lemma CollectOne<T>(ev: seq<Event>, pos: nat, start: string, end: string, a: seq<Attribute>,
                      item: nat --> Parse<Option<T>>, v: T, q: nat)
    requires pos < q < |ev| && ev[pos] == Start(start, a) && Element.ItemReader(ev, item)
    requires item(pos + 1) == Done(Some(v), q) && ev[q] == End(end)
    ensures Element.CollectLoop(ev, pos, start, end, item, []) == Done([v], q + 1)
  {
    CollectEndStep(ev, q, start, end, item, [v]);
    assert [] + [v] == [v];
    CollectItemStep(ev, pos, start, end, a, item, [], v, q);
  }

  /**
   * A `Gene-commentary` list holding one commentary that reads as `c` is
   * read as `[c]`.
   */
  lemma OneCommentary(ev: seq<Event>, pos: nat, end: string, c: GeneCommentary, q: nat)
    requires pos < q < |ev| && ev[pos] == Start(GENE_COMMENTARY, [])
    requires CommentaryItem(ev)(pos + 1) == Done(Some(c), q)
    requires ev[q] == End(end)
    ensures Element.CollectLoop(ev, pos, GENE_COMMENTARY, end, CommentaryItem(ev), []) == Done([c], q + 1)
  {
    CollectOne(ev, pos, GENE_COMMENTARY, end, [], CommentaryItem(ev), c, q);
  }

  lemma CommentaryItemAt(ev: seq<Event>, p: nat)
    requires p <= |ev|
    ensures CommentaryItem(ev)(p) == GeneCommentaryLoop(ev, p, InitialCommentary)
  {
  }

  /** A child read from `pos`, followed directly by the End `Entrezgene`, ends the record. */
  lemma LastChild(ev: seq<Event>, pos: nat, n: string, a: seq<Attribute>, g: Entrezgene, g': Entrezgene, q: nat)
    requires pos < q < |ev| && ev[pos] == Start(n, a) && ev[q] == End(ENTREZGENE)
    requires GeneChild(ev, pos + 1, n, g) == Done(g', q)
    ensures EntrezgeneLoop(ev, pos, g) == Done(Some(g'), q + 1)
  {
    GeneStartStep(ev, pos, n, a, g, g', q);
    GeneEndStep(ev, q, ENTREZGENE, g');
  }

  /**
   * A comments member holding one commentary that reads as `c`, then the End
   * `Entrezgene`: the record gets the list `[c]`.
   */
  lemma OneCommentaryThenEnd(ev: seq<Event>, pos: nat, g: Entrezgene, c: GeneCommentary)
    requires pos + 10 < |ev| && ev[pos] == Start("Entrezgene_comments", []) && ev[pos + 1] == Start(GENE_COMMENTARY, [])
    requires GeneCommentaryLoop(ev, pos + 2, InitialCommentary) == Done(Some(c), pos + 9)
    requires ev[pos + 9] == End("Entrezgene_comments") && ev[pos + 10] == End(ENTREZGENE)
    ensures EntrezgeneLoop(ev, pos, g) == Done(Some(g.(comments := Some([c]))), pos + 11)
  {
    CommentaryItemAt(ev, pos + 2);
    OneCommentary(ev, pos + 1, "Entrezgene_comments", c, pos + 9);
    CommentsTag();
    CommentsChild(ev, pos + 1, "Entrezgene_comments", g, [c], pos + 10);
    LastChild(ev, pos, "Entrezgene_comments", [], g, g.(comments := Some([c])), pos + 10);
  }

  lemma TypeMember(ev: seq<Event>, pos: nat, a: seq<Attribute>, s: string, g: Entrezgene)
    requires pos + 1 < |ev| && IsPlainText(s) && ev[pos] == Start("Entrezgene_type", a) && ev[pos + 1] == Txt(s)
    ensures EntrezgeneLoop(ev, pos, g) == EntrezgeneLoop(ev, pos + 2, g.(geneType := EntrezgeneTypeOf(s)))
  {
    TypeTag();
    GeneTypeStep(ev, pos, "Entrezgene_type", a, g, s);
  }

  /** A type member holding `s` at `pos`, then its End: the loop goes on with that type. */
  lemma TypeFirst(ev: seq<Event>, pos: nat, a: seq<Attribute>, s: string, g: Entrezgene, r: Parse<Option<Entrezgene>>)
    requires pos + 2 < |ev| && IsPlainText(s)
    requires ev[pos] == Start("Entrezgene_type", a) && ev[pos + 1] == Txt(s) && ev[pos + 2] == End("Entrezgene_type")
    requires EntrezgeneLoop(ev, pos + 3, g.(geneType := EntrezgeneTypeOf(s))) == r
    ensures EntrezgeneLoop(ev, pos, g) == r
  {
    GeneEndStep(ev, pos + 2, "Entrezgene_type", g.(geneType := EntrezgeneTypeOf(s)));
    TypeMember(ev, pos, a, s, g);
  }

  /**
   * The shape of the comments document from `pos`: a type member holding
   * `s`, then a comments member holding one commentary that reads as `c`.
   */
  lemma TypeThenOneCommentary(ev: seq<Event>, pos: nat, a: seq<Attribute>, s: string, t: EntrezgeneType, c: GeneCommentary)
    requires pos + 13 < |ev| && IsPlainText(s) && EntrezgeneTypeOf(s) == t
    requires ev[pos] == Start("Entrezgene_type", a) && ev[pos + 1] == Txt(s) && ev[pos + 2] == End("Entrezgene_type")
    requires ev[pos + 3] == Start("Entrezgene_comments", []) && ev[pos + 4] == Start(GENE_COMMENTARY, [])
    requires GeneCommentaryLoop(ev, pos + 5, InitialCommentary) == Done(Some(c), pos + 12)
    requires ev[pos + 12] == End("Entrezgene_comments") && ev[pos + 13] == End(ENTREZGENE)
    ensures EntrezgeneLoop(ev, pos, InitialGene)
      == Done(Some(InitialGene.(geneType := t, comments := Some([c]))), pos + 14)
  {
    var g1 := InitialGene.(geneType := t);
    OneCommentaryThenEnd(ev, pos + 3, g1, c);
    TypeFirst(ev, pos, a, s, InitialGene, Done(Some(g1.(comments := Some([c]))), pos + 14));
  }

  /**
   * `GeneCommentary::from_reader` on a commentary laid out as the one of the
   * comments document: type code "3", then the text.
   */
  lemma CommentaryRead(ev: seq<Event>, pos: nat, text: string)
    requires pos + 6 < |ev| && IsPlainText(text)
    requires ev[pos] == Start("Gene-commentary_type", Value("mRNA")) && ev[pos + 1] == Txt("3")
    requires ev[pos + 2] == End("Gene-commentary_type")
    requires ev[pos + 3] == Start("Gene-commentary_text", []) && ev[pos + 4] == Txt(text)
    requires ev[pos + 5] == End("Gene-commentary_text") && ev[pos + 6] == End(GENE_COMMENTARY)
    ensures GeneCommentaryLoop(ev, pos, InitialCommentary) == Done(Some(ExampleCommentary(text)), pos + 7)
  {
    CodeThreeIsMRna();
    TypeThenText(ev, pos, Value("mRNA"), "3", text);
  }

  /**
   * The comments document has the shape `TypeThenOneCommentary` reads: a
   * type member holding "7" (Pseudo by `EntrezgeneTypeOf`), then a comments member holding one
   * commentary; that commentary reads as `ExampleCommentary(text)` by
   * `CommentaryRead`.
   */
  lemma CommentsShape(text: string)
    requires IsPlainText(text)
    ensures var ev := CommentsEvents(text);
      ev[0] == Start("Entrezgene_type", Value("pseudo")) && ev[1] == Txt("7") && ev[2] == End("Entrezgene_type")
      && ev[3] == Start("Entrezgene_comments", []) && ev[4] == Start(GENE_COMMENTARY, [])
      && ev[5] == Start("Gene-commentary_type", Value("mRNA")) && ev[6] == Txt("3")
      && ev[7] == End("Gene-commentary_type")
      && ev[8] == Start("Gene-commentary_text", []) && ev[9] == Txt(text)
      && ev[10] == End("Gene-commentary_text") && ev[11] == End(GENE_COMMENTARY)
      && ev[12] == End("Entrezgene_comments") && ev[13] == End(ENTREZGENE)
  {
  }

  /** Text "7" is the type code of a pseudogene. */
  lemma PseudoCode()
    ensures IsPlainText("7") && EntrezgeneTypeOf("7") == EntrezgeneType.Pseudo
  {
  }

  /**
   * test_entrezgene_integration_minimal: the minimal document reads as a
   * protein-coding gene whose track has the gene id of the document and
   * status Live, with the reader left after the End `Entrezgene`.
   */
  lemma MinimalDocument(id: nat)
    requires id <= U64_MAX
    ensures var r := EntrezgeneLoop(MinimalEvents(id), 0, InitialGene);
      r == Done(Some(MinimalGene(id)), 14)
      && r.value.value.geneType == EntrezgeneType.ProteinCoding
      && r.value.value.trackInfo == Some(DefaultGeneTrack.(geneid := id, status := GeneTrackStatus.Live))
  {
    MinimalShape(id);
    MinimalLayout(MinimalEvents(id), id);
  }

  /**
   * test_entrezgene_integration_comments: the comments document reads as a
   * pseudogene with exactly one commentary, of type mRNA, holding the text
   * of the document.
   */
  lemma CommentsDocument(text: string)
    requires IsPlainText(text)
    ensures var r := EntrezgeneLoop(CommentsEvents(text), 0, InitialGene);
      r == Done(Some(CommentsGene(text)), 14)
      && r.value.value.comments == Some([ExampleCommentary(text)])
      && ExampleCommentary(text).commentaryType == GeneCommentaryType.MRna
      && ExampleCommentary(text).text == Some(text)
  {
    CommentsShape(text);
    CommentsLayout(CommentsEvents(text), 0, text);
  }

  /**
   * Events laid out as the comments document, whose commentary reads as
   * `ExampleCommentary(text)`, read as `CommentsGene(text)`.
   */
  lemma CommentsLayout(ev: seq<Event>, pos: nat, text: string)
    requires pos + 13 < |ev| && IsPlainText(text)
    requires ev[pos] == Start("Entrezgene_type", Value("pseudo")) && ev[pos + 1] == Txt("7") && ev[pos + 2] == End("Entrezgene_type")
    requires ev[pos + 3] == Start("Entrezgene_comments", []) && ev[pos + 4] == Start(GENE_COMMENTARY, [])
    requires ev[pos + 5] == Start("Gene-commentary_type", Value("mRNA")) && ev[pos + 6] == Txt("3")
    requires ev[pos + 7] == End("Gene-commentary_type")
    requires ev[pos + 8] == Start("Gene-commentary_text", []) && ev[pos + 9] == Txt(text)
    requires ev[pos + 10] == End("Gene-commentary_text") && ev[pos + 11] == End(GENE_COMMENTARY)
    requires ev[pos + 12] == End("Entrezgene_comments") && ev[pos + 13] == End(ENTREZGENE)
    ensures EntrezgeneLoop(ev, pos, InitialGene) == Done(Some(CommentsGene(text)), pos + 14)
  {
    CommentaryRead(ev, pos + 5, text);
    PseudoCode();
    TypeThenOneCommentary(ev, pos, Value("pseudo"), "7", EntrezgeneType.Pseudo, ExampleCommentary(text));
  }
}
