/**
 * Sequence identifiers and locations of `src/asn/seqloc.rs` (NCBI
 * seqloc.asn), with the event readers of `SeqId` and `TextseqId`.
 */
module SeqLoc {
  import opened Wrappers
  import opened Bytes
  import opened Xml
  import opened General
  import opened Biblio
  import opened Standins
  import ParsingUtils

  // ----------------------------------------------------------------------
  // Data model
  // ----------------------------------------------------------------------

  /** `TextseqId`: all four parts are optional; `version` is a `u64`. */
  datatype TextseqId = TextseqId(
    name: Option<string>,
    accession: Option<string>,
    release: Option<string>,
    version: Option<int>)

  const EmptyTextseqId := TextseqId(None, None, None, None)

  /** `GiimportId`. */
  datatype GiimportId = GiimportId(id: int, db: Option<string>, release: Option<string>)

  /** `PatentSeqId`: the number of a sequence in a patent and the patent cited. */
  datatype PatentSeqId = PatentSeqId(seqid: nat, cit: IdPat)

  /** `PDBSeqId`: `mol` is the four-character molecule name. */
  datatype PDBSeqId = PDBSeqId(mol: string, rel: Option<Date>, chainId: Option<string>)

  /**
   * `SeqId`. The database tag of `General` is kept as the unparsed events of
   * its `Dbtag` element, since its reader is not part of this model.
   */
  datatype SeqId =
    | Local(local: ObjectId)
    | GibbSq(gibbsq: int)
    | GibbMt(gibbmt: int)
    | Giim(giim: GiimportId)
    | Genbank(genbank: TextseqId)
    | Embl(embl: TextseqId)
    | Pir(pir: TextseqId)
    | Swissprot(swissprot: TextseqId)
    | Patent(patent: PatentSeqId)
    | Other(other: TextseqId)
    | General(general: Opaque)
    | Gi(gi: nat)
    | Ddbj(ddbj: TextseqId)
    | Prf(prf: TextseqId)
    | Pdb(pdb: PDBSeqId)
    | Tpg(tpg: TextseqId)
    | Tpe(tpe: TextseqId)
    | Tpd(tpd: TextseqId)
    | Gpipe(gpipe: TextseqId)
    | NamedAnnotTrack(namedAnnotTrack: TextseqId)

  /** `NaStrand`: the strand of a nucleic acid (`#[repr(u8)]`). */
  datatype NaStrand = Unknown | Plus | Minus | Both | BothRev | Other

  /** The discriminant each variant serialises as. */
  function NaStrandCode(x: NaStrand): (c: int)
    ensures 0 <= c < 256
    ensures 0 <= c <= 4 || c == 255
  {
    match x
    case Unknown => 0
    case Plus => 1
    case Minus => 2
    case Both => 3
    case BothRev => 4
    case Other => 255
  }

  /** The variant with discriminant `c`, if there is one. */
  function NaStrandFromCode(c: int): (r: Option<NaStrand>)
    ensures r.Some? <==> (0 <= c <= 4 || c == 255)
    ensures r.Some? ==> NaStrandCode(r.value) == c
  {
    if c == 0 then Some(NaStrand.Unknown)
    else if c == 1 then Some(NaStrand.Plus)
    else if c == 2 then Some(NaStrand.Minus)
    else if c == 3 then Some(NaStrand.Both)
    else if c == 4 then Some(NaStrand.BothRev)
    else if c == 255 then Some(NaStrand.Other)
    else None
  }

  /** Decoding the discriminant of a variant gives the variant back, so the codes are distinct. */
  lemma NaStrandRoundTrip(x: NaStrand)
    ensures NaStrandFromCode(NaStrandCode(x)) == Some(x)
  {
  }

  lemma NaStrandCodeInjective(x: NaStrand, y: NaStrand)
    ensures NaStrandCode(x) == NaStrandCode(y) ==> x == y
  {
    NaStrandRoundTrip(x);
    NaStrandRoundTrip(y);
  }

  /**
   * `FeatId`, declared in `src/asn/seqfeat.rs`; kept here because a location
   * may point at a feature and a feature id may hold a `GiimportId`.
   */
  datatype FeatId =
    | GIBB(gibb: nat)
    | GIIM(giim: GiimportId)
    | Local(local: ObjectId)
    | General(general: DbTag)

  /** `SeqInterval`: `from`/`to` on the sequence named by `id`. */
  datatype SeqInterval = SeqInterval(
    from: int, to: int, strand: Option<NaStrand>, id: SeqId,
    fuzzFrom: Option<IntFuzz>, fuzzTo: Option<IntFuzz>)

  /** `SeqPoint`. */
  datatype SeqPoint = SeqPoint(point: int, strand: Option<NaStrand>, id: SeqId, fuzz: Option<IntFuzz>)

  /** `PackedSeqPnt`: several points on one sequence. */
  datatype PackedSeqPnt = PackedSeqPnt(strand: Option<NaStrand>, id: SeqId, fuzz: Option<IntFuzz>, points: seq<int>)

  /** `SeqBond`: the point `a` is mandatory, the other end `b` may be missing. */
  datatype SeqBond = SeqBond(a: SeqPoint, b: Option<SeqPoint>)

  /** `SeqLoc`. */
  datatype SeqLoc =
    | Null
    | Empty(empty: SeqId)
    | Whole(whole: SeqId)
    | Int(interval: SeqInterval)
    | PackedInt(packedInt: seq<SeqInterval>)
    | Pnt(pnt: SeqPoint)
    | PackedPnt(packedPnt: PackedSeqPnt)
    | Mix(mix: seq<SeqLoc>)
    | Equiv(equiv: seq<SeqLoc>)
    | Bond(bond: SeqBond)
    | Feat(feat: FeatId)

  /** Every sequence id a location mentions, in order. */
  function LocIds(loc: SeqLoc): (ids: seq<SeqId>)
    ensures loc.Null? || loc.Feat? ==> ids == []
    ensures loc.Empty? || loc.Whole? ==> |ids| == 1
    ensures loc.Int? ==> ids == [loc.interval.id]
    ensures loc.Pnt? ==> ids == [loc.pnt.id]
    ensures loc.PackedPnt? ==> ids == [loc.packedPnt.id]
    ensures loc.Bond? ==> |ids| == (if loc.bond.b.Some? then 2 else 1) && ids[0] == loc.bond.a.id
  {
    match loc
    case Null => []
    case Feat(_) => []
    case Empty(id) => [id]
    case Whole(id) => [id]
    case Int(i) => [i.id]
    case Pnt(p) => [p.id]
    case PackedPnt(p) => [p.id]
    case Bond(b) => [b.a.id] + (if b.b.Some? then [b.b.value.id] else [])
    case PackedInt(ivs) => IntervalIds(ivs)
    case Mix(ls) => ListIds(ls)
    case Equiv(ls) => ListIds(ls)
  }

  function IntervalIds(ivs: seq<SeqInterval>): (ids: seq<SeqId>)
    ensures |ids| == |ivs|
  {
    if ivs == [] then [] else [ivs[0].id] + IntervalIds(ivs[1..])
  }

  function ListIds(ls: seq<SeqLoc>): seq<SeqId>
  {
    if ls == [] then [] else LocIds(ls[0]) + ListIds(ls[1..])
  }

  /**
   * Every location other than `Null` and `Feat` names a sequence: directly,
   * or, for the packed and compound arms, through each member.
   */
  lemma LocationsNameSequences(loc: SeqLoc)
    ensures LocIds(loc) == [] <==>
      loc.Null? || loc.Feat? || (loc.PackedInt? && loc.packedInt == [])
      || (loc.Mix? && ListIds(loc.mix) == []) || (loc.Equiv? && ListIds(loc.equiv) == [])
  {
  }

  // ----------------------------------------------------------------------
  // TextseqId reader
  // ----------------------------------------------------------------------

  const TEXTSEQ_ID := "Textseq-id"
  const TEXTSEQ_NAME := "Textseq-id_name"
  const TEXTSEQ_ACCESSION := "Textseq-id_accession"
  const TEXTSEQ_RELEASE := "Textseq-id_release"
  const TEXTSEQ_VERSION := "Textseq-id_version"

  predicate IsTextseqChild(n: string)
  {
    n == TEXTSEQ_NAME || n == TEXTSEQ_ACCESSION || n == TEXTSEQ_RELEASE || n == TEXTSEQ_VERSION
  }

  /**
   * The field a child's text sets: the escaped text for name, accession and
   * release; for version the value atoi reads as a `u64`, or None.
   */
  function SetChild(t: TextseqId, child: string, text: seq<byte>): (t': TextseqId)
    ensures child == TEXTSEQ_NAME ==> t' == t.(name := Some(ParsingUtils.BytesToString(text)))
    ensures child == TEXTSEQ_ACCESSION ==> t' == t.(accession := Some(ParsingUtils.BytesToString(text)))
    ensures child == TEXTSEQ_RELEASE ==> t' == t.(release := Some(ParsingUtils.BytesToString(text)))
    ensures child == TEXTSEQ_VERSION ==> t' == t.(version := Atoi(text, 0, U64_MAX))
    ensures !IsTextseqChild(child) ==> t' == t
  {
    if child == TEXTSEQ_NAME then t.(name := Some(ParsingUtils.BytesToString(text)))
    else if child == TEXTSEQ_ACCESSION then t.(accession := Some(ParsingUtils.BytesToString(text)))
    else if child == TEXTSEQ_RELEASE then t.(release := Some(ParsingUtils.BytesToString(text)))
    else if child == TEXTSEQ_VERSION then t.(version := Atoi(text, 0, U64_MAX))
    else t
  }

  /**
   * The loop of `TextseqId::from_reader` with the fields read so far in `t`:
   * a child Start reads one more event and uses it only when it is a text;
   * the End `Textseq-id` returns. It does not look for Eof.
   */
  function TextseqIdLoop(ev: seq<Event>, pos: nat, t: TextseqId): (p: Parse<Option<TextseqId>>)
    requires pos <= |ev|
    ensures Advances(ev, pos, p)
    ensures p.Done? ==> p.value.Some? && pos < p.next && ev[p.next - 1] == End(TEXTSEQ_ID)
    decreases |ev| - pos
  {
    if pos == |ev| then Hang
    else if ev[pos].Error? then Panic
    else if ev[pos] == End(TEXTSEQ_ID) then Done(Some(t), pos + 1)
    else if ev[pos].Start? && IsTextseqChild(ev[pos].name) then
      var e := At(ev, pos + 1);
      if e.Error? then Panic
      else if e.Text? then TextseqIdLoop(ev, pos + 2, SetChild(t, ev[pos].name, e.content))
      else TextseqIdLoop(ev, Next(ev, pos + 1), t)
    else TextseqIdLoop(ev, pos + 1, t)
  }

  method TextseqIdFromReader(r: Reader) returns (res: Parse<Option<TextseqId>>)
    requires r.Valid()
    modifies r
    ensures r.Valid() && res == TextseqIdLoop(r.events, old(r.pos), EmptyTextseqId)
    ensures res.Done? ==> r.pos == res.next
  {
    var name: Option<string> := None;
    var accession: Option<string> := None;
    var release: Option<string> := None;
    var version: Option<int> := None;
    while true
      invariant r.Valid()
      invariant TextseqIdLoop(r.events, r.pos, TextseqId(name, accession, release, version))
             == TextseqIdLoop(r.events, old(r.pos), EmptyTextseqId)
      decreases |r.events| - r.pos
    {
      if r.pos == |r.events| {
        return Hang;
      }
      var e := r.ReadEvent();
      match e {
        case Error(_) => return Panic;
        case Start(n, _) =>
          if IsTextseqChild(n) {
            var e2 := r.ReadEvent();
            match e2 {
              case Error(_) => return Panic;
              case Text(c) =>
                if n == TEXTSEQ_NAME {
                  name := Some(ParsingUtils.BytesToString(c));
                } else if n == TEXTSEQ_ACCESSION {
                  accession := Some(ParsingUtils.BytesToString(c));
                } else if n == TEXTSEQ_RELEASE {
                  release := Some(ParsingUtils.BytesToString(c));
                } else {
                  version := Atoi(c, 0, U64_MAX);
                }
              case _ =>
            }
          }
        case End(n) =>
          if n == TEXTSEQ_ID {
            return Done(Some(TextseqId(name, accession, release, version)), r.pos);
          }
        case _ =>
      }
    }
  }

  /** A child element holding just a text: `<child>text</child>`. */
  function ChildEvents(children: seq<(string, seq<byte>)>): (es: seq<Event>)
    ensures |es| == 3 * |children|
  {
    if children == [] then []
    else [Start(children[0].0, []), Text(children[0].1), End(children[0].0)] + ChildEvents(children[1..])
  }

  /** The fields after reading the children in order: a later child overwrites an earlier one. */
  function Fill(t: TextseqId, children: seq<(string, seq<byte>)>): TextseqId
    decreases |children|
  {
    if children == [] then t else Fill(SetChild(t, children[0].0, children[0].1), children[1..])
  }

  /**
   * On a `Textseq-id` whose content is a list of text-only children, the
   * reader returns the fields set child by child: absent children stay None,
   * a repeated child keeps its last text, unknown children change nothing.
   */
  lemma {:induction false} TextseqIdOfChildren(ev: seq<Event>, pos: nat, t: TextseqId, children: seq<(string, seq<byte>)>)
    requires pos + 3 * |children| < |ev|
    requires ev[pos..pos + 3 * |children|] == ChildEvents(children)
    requires ev[pos + 3 * |children|] == End(TEXTSEQ_ID)
    requires forall i :: 0 <= i < |children| ==> children[i].0 != TEXTSEQ_ID
    ensures TextseqIdLoop(ev, pos, t) == Done(Some(Fill(t, children)), pos + 3 * |children| + 1)
    decreases |children|
  {
    if children != [] {
      var c := children[0];
      var es := ev[pos..pos + 3 * |children|];
      assert ev[pos] == es[0] == Start(c.0, []);
      assert ev[pos + 1] == es[1] == Text(c.1);
      assert ev[pos + 2] == es[2] == End(c.0);
      assert ev[pos + 3..pos + 3 * |children|] == es[3..] == ChildEvents(children[1..]);
      if IsTextseqChild(c.0) {
        assert TextseqIdLoop(ev, pos, t) == TextseqIdLoop(ev, pos + 2, SetChild(t, c.0, c.1));
      } else {
        assert TextseqIdLoop(ev, pos, t) == TextseqIdLoop(ev, pos + 2, t);
      }
      assert TextseqIdLoop(ev, pos + 2, SetChild(t, c.0, c.1)) == TextseqIdLoop(ev, pos + 3, SetChild(t, c.0, c.1));
      TextseqIdOfChildren(ev, pos + 3, SetChild(t, c.0, c.1), children[1..]);
    }
  }

  // ----------------------------------------------------------------------
  // SeqId reader
  // ----------------------------------------------------------------------

  const SEQ_ID_OTHER := "Seq-id_other"
  const SEQ_ID_GENERAL := "Seq-id_general"
  const SEQ_ID_GI := "Seq-id_gi"

  /** Events the `SeqId` loop passes over without reading further. */
  predicate SeqIdSkips(e: Event)
  {
    !e.Error? && !(e.Start? && (e.name == SEQ_ID_OTHER || e.name == SEQ_ID_GENERAL || e.name == SEQ_ID_GI))
  }

  /**
   * The loop of `SeqId::from_reader`: the first Start of `Seq-id_other`,
   * `Seq-id_general` or `Seq-id_gi` picks the arm (a `Seq-id_gi` not
   * followed by a text is passed over); nothing else, not even an End or
   * Eof, stops it.
   */
  function SeqIdLoop(ev: seq<Event>, pos: nat): (p: Parse<Option<SeqId>>)
    requires pos <= |ev|
    ensures Advances(ev, pos, p)
    ensures p.Done? ==> p.value.Some? && (p.value.value.Other? || p.value.value.General? || p.value.value.Gi?)
    decreases |ev| - pos
  {
    if pos == |ev| then Hang
    else
      match ev[pos]
      case Error(_) => Panic
      case Start(n, _) =>
        if n == SEQ_ID_OTHER then
          match TextseqIdLoop(ev, pos + 1, EmptyTextseqId)
          case Done(Some(t), q) => Done(Some(SeqId.Other(t)), q)
          case Done(None, _) => Panic
          case Panic => Panic
          case Hang => Hang
        else if n == SEQ_ID_GENERAL then
          match ReadOpaqueSpec(ev, pos + 1, DBTAG)
          case Done(Some(tag), q) => Done(Some(SeqId.General(tag)), q)
          case Done(None, _) => Panic
          case Panic => Panic
          case Hang => Hang
        else if n == SEQ_ID_GI then
          match At(ev, pos + 1)
          case Error(_) => Panic
          case Text(c) =>
            (match Atoi(c, 0, U64_MAX)
             case Some(v) => Done(Some(Gi(v)), pos + 2)
             case None => Panic)
          case _ => SeqIdLoop(ev, Next(ev, pos + 1))
        else SeqIdLoop(ev, pos + 1)
      case _ => SeqIdLoop(ev, pos + 1)
  }

  method SeqIdFromReader(r: Reader) returns (res: Parse<Option<SeqId>>)
    requires r.Valid()
    modifies r
    ensures r.Valid() && res == SeqIdLoop(r.events, old(r.pos))
    ensures res.Done? ==> r.pos == res.next
  {
    while true
      invariant r.Valid()
      invariant SeqIdLoop(r.events, r.pos) == SeqIdLoop(r.events, old(r.pos))
      decreases |r.events| - r.pos
    {
      if r.pos == |r.events| {
        return Hang;
      }
      var e := r.ReadEvent();
      match e {
        case Error(_) => return Panic;
        case Start(n, _) =>
          if n == SEQ_ID_OTHER {
            var t := TextseqIdFromReader(r);
            match t {
              case Done(Some(id), q) => return Done(Some(SeqId.Other(id)), q);
              case Done(None, _) => return Panic;
              case Panic => return Panic;
              case Hang => return Hang;
            }
          } else if n == SEQ_ID_GENERAL {
            var g := ReadOpaque(r, DBTAG);
            match g {
              case Done(Some(tag), q) => return Done(Some(SeqId.General(tag)), q);
              case Done(None, _) => return Panic;
              case Panic => return Panic;
              case Hang => return Hang;
            }
          } else if n == SEQ_ID_GI {
            var e2 := r.ReadEvent();
            match e2 {
              case Error(_) => return Panic;
              case Text(c) =>
                var v := Atoi(c, 0, U64_MAX);
                if v.None? {
                  return Panic;
                }
                return Done(Some(Gi(v.value)), r.pos);
              case _ =>
            }
          }
        case _ =>
      }
    }
  }

  /** Events the loop passes over do not change where it ends up. */
  lemma {:induction false} SeqIdScan(ev: seq<Event>, pos: nat, k: nat)
    requires pos <= k <= |ev|
    requires forall j :: pos <= j < k ==> SeqIdSkips(ev[j])
    ensures SeqIdLoop(ev, pos) == SeqIdLoop(ev, k)
    decreases k - pos
  {
    if pos < k {
      SeqIdScan(ev, pos + 1, k);
    }
  }

  /** Without any recognised child the reader never returns: it reads Eof for ever. */
  lemma SeqIdWithoutChild(ev: seq<Event>, pos: nat)
    requires pos <= |ev|
    requires forall j :: pos <= j < |ev| ==> SeqIdSkips(ev[j])
    ensures SeqIdLoop(ev, pos) == Hang
  {
    SeqIdScan(ev, pos, |ev|);
  }

  /**
   * The first recognised child decides the arm: a `Seq-id_gi` followed by a
   * text gives `Gi` of its value, or panics when atoi cannot read it; a
   * `Seq-id_other` gives `Other` of the `Textseq-id` read after it.
   */
  lemma SeqIdFirstChild(ev: seq<Event>, pos: nat, k: nat)
    requires pos <= k && k + 1 < |ev|
    requires forall j :: pos <= j < k ==> SeqIdSkips(ev[j])
    requires ev[k].Start?
    ensures ev[k].name == SEQ_ID_GI && ev[k + 1].Text? ==>
      SeqIdLoop(ev, pos) ==
        match Atoi(ev[k + 1].content, 0, U64_MAX)
        case Some(v) => Done(Some(Gi(v)), k + 2)
        case None => Panic
    ensures ev[k].name == SEQ_ID_OTHER ==>
      SeqIdLoop(ev, pos) ==
        match TextseqIdLoop(ev, k + 1, EmptyTextseqId)
        case Done(t, q) => Done(Some(SeqId.Other(t.value)), q)
        case Panic => Panic
        case Hang => Hang
    ensures ev[k].name == SEQ_ID_GENERAL ==>
      SeqIdLoop(ev, pos) ==
        match ReadOpaqueSpec(ev, k + 1, DBTAG)
        case Done(Some(tag), q) => Done(Some(SeqId.General(tag)), q)
        case Done(None, _) => Panic
        case Panic => Panic
        case Hang => Hang
  {
    SeqIdScan(ev, pos, k);
  }
}
