/**
 * Sequence collections of `src/asn/seqset.rs` (NCBI seqset.asn): the
 * recursive tree of `SeqEntry` and `BioSeqSet`, and its event readers.
 */
module SeqSet {
  import opened Wrappers
  import opened Xml
  import opened General
  import opened Standins
  import Element

  /** `BioSeqSetClass`: the kind of a collection (`#[repr(u8)]`). */
  datatype BioSeqSetClass =
    | NotSet
    | NucProt
    | SegSet
    | ConSet
    | Parts
    | Gibb
    | Gi
    | Genbank
    | Pir
    | PubSet
    | Equiv
    | Swissprot
    | PdbEntry
    | MutSet
    | PopSet
    | PhySet
    | EcoSet
    | GenProdSet
    | WgsSet
    | NamedAnnot
    | NamedAnnotProd
    | ReadSet
    | PairedEndReads
    | SmallGenomeSet
    | Other

  /** The discriminant each variant serialises as. */
  function BioSeqSetClassCode(x: BioSeqSetClass): (c: int)
    ensures 0 <= c < 256
    ensures 0 <= c <= 23 || c == 255
  {
    match x
    case NotSet => 0
    case NucProt => 1
    case SegSet => 2
    case ConSet => 3
    case Parts => 4
    case Gibb => 5
    case Gi => 6
    case Genbank => 7
    case Pir => 8
    case PubSet => 9
    case Equiv => 10
    case Swissprot => 11
    case PdbEntry => 12
    case MutSet => 13
    case PopSet => 14
    case PhySet => 15
    case EcoSet => 16
    case GenProdSet => 17
    case WgsSet => 18
    case NamedAnnot => 19
    case NamedAnnotProd => 20
    case ReadSet => 21
    case PairedEndReads => 22
    case SmallGenomeSet => 23
    case Other => 255
  }

  /** The variant with discriminant `c`, if there is one. */
  function BioSeqSetClassFromCode(c: int): (r: Option<BioSeqSetClass>)
    ensures r.Some? <==> (0 <= c <= 23 || c == 255)
    ensures r.Some? ==> BioSeqSetClassCode(r.value) == c
  {
    if c == 0 then Some(BioSeqSetClass.NotSet)
    else if c == 1 then Some(BioSeqSetClass.NucProt)
    else if c == 2 then Some(BioSeqSetClass.SegSet)
    else if c == 3 then Some(BioSeqSetClass.ConSet)
    else if c == 4 then Some(BioSeqSetClass.Parts)
    else if c == 5 then Some(BioSeqSetClass.Gibb)
    else if c == 6 then Some(BioSeqSetClass.Gi)
    else if c == 7 then Some(BioSeqSetClass.Genbank)
    else if c == 8 then Some(BioSeqSetClass.Pir)
    else if c == 9 then Some(BioSeqSetClass.PubSet)
    else if c == 10 then Some(BioSeqSetClass.Equiv)
    else if c == 11 then Some(BioSeqSetClass.Swissprot)
    else if c == 12 then Some(BioSeqSetClass.PdbEntry)
    else if c == 13 then Some(BioSeqSetClass.MutSet)
    else if c == 14 then Some(BioSeqSetClass.PopSet)
    else if c == 15 then Some(BioSeqSetClass.PhySet)
    else if c == 16 then Some(BioSeqSetClass.EcoSet)
    else if c == 17 then Some(BioSeqSetClass.GenProdSet)
    else if c == 18 then Some(BioSeqSetClass.WgsSet)
    else if c == 19 then Some(BioSeqSetClass.NamedAnnot)
    else if c == 20 then Some(BioSeqSetClass.NamedAnnotProd)
    else if c == 21 then Some(BioSeqSetClass.ReadSet)
    else if c == 22 then Some(BioSeqSetClass.PairedEndReads)
    else if c == 23 then Some(BioSeqSetClass.SmallGenomeSet)
    else if c == 255 then Some(BioSeqSetClass.Other)
    else None
  }

  /** Decoding the discriminant of a variant gives the variant back, so the codes are distinct. */
  lemma BioSeqSetClassRoundTrip(x: BioSeqSetClass)
    ensures BioSeqSetClassFromCode(BioSeqSetClassCode(x)) == Some(x)
  {
  }

  lemma BioSeqSetClassCodeInjective(x: BioSeqSetClass, y: BioSeqSetClass)
    ensures BioSeqSetClassCode(x) == BioSeqSetClassCode(y) ==> x == y
  {
    BioSeqSetClassRoundTrip(x);
    BioSeqSetClassRoundTrip(y);
  }

  /** `#[default]`: a class that is not set. */
  const DefaultBioSeqSetClass: BioSeqSetClass := BioSeqSetClass.NotSet

  /**
   * `BioSeqSet`. A `Bioseq`, the descriptors `descr` and the annotations
   * `annot` are kept as unparsed element events: their readers are not part
   * of this model.
   */
  datatype BioSeqSet = BioSeqSet(
    id: Option<ObjectId>,
    coll: Option<DbTag>,
    level: Option<nat>,
    setClass: BioSeqSetClass,
    release: Option<string>,
    date: Option<Date>,
    descr: Option<Opaque>,
    seqSet: seq<SeqEntry>,
    annot: Option<seq<Opaque>>)

  /** `SeqEntry`: a single sequence or a nested collection. */
  datatype SeqEntry = Seq(bioseq: Opaque) | Set(bioseqSet: BioSeqSet)

  /** The derived `Default`: every option None, class NotSet, no entries. */
  const DefaultBioSeqSet := BioSeqSet(None, None, None, DefaultBioSeqSetClass, None, None, None, [], None)

  /** How deeply collections nest: each entry of a set lies strictly deeper than the set. */
  function SetDepth(s: BioSeqSet): (d: nat)
    ensures forall i :: 0 <= i < |s.seqSet| ==> EntryDepth(s.seqSet[i]) < d
    decreases s, 1
  {
    1 + MaxDepth(s.seqSet)
  }

  function EntryDepth(e: SeqEntry): (d: nat)
    ensures e.Set? ==> d > 0
    decreases e, 2
  {
    match e
    case Seq(_) => 0
    case Set(s) => SetDepth(s)
  }

  function MaxDepth(es: seq<SeqEntry>): (d: nat)
    ensures forall i :: 0 <= i < |es| ==> EntryDepth(es[i]) <= d
    decreases es, 0
  {
    if es == [] then 0
    else
      var h := EntryDepth(es[0]);
      var t := MaxDepth(es[1..]);
      assert forall i :: 1 <= i < |es| ==> es[i] == es[1..][i - 1];
      if h < t then t else h
  }

  // ----------------------------------------------------------------------
  // Readers
  // ----------------------------------------------------------------------

  const SEQ_ENTRY := "Seq-entry"
  const SEQ_ENTRY_SEQ := "Seq-entry_seq"
  const SEQ_ENTRY_SET := "Seq-entry_set"
  const BIOSEQ_SET := "Bioseq-set"
  const BIOSEQ_SET_SEQ_SET := "Bioseq-set_seq-set"

  /**
   * The loop of `SeqEntry::from_reader`: the first Start of `Seq-entry_seq`
   * or `Seq-entry_set` reads that child and returns it, unwrapping its
   * reader's result; an End `Seq-entry` first gives None. It does not look
   * for Eof.
   */
  function SeqEntryLoop(ev: seq<Event>, pos: nat): (p: Parse<Option<SeqEntry>>)
    requires pos <= |ev|
    ensures Advances(ev, pos, p)
    ensures p.Done? ==> pos < p.next && (p.value.None? ==> ev[p.next - 1] == End(SEQ_ENTRY))
    decreases |ev| - pos, 0
  {
    if pos == |ev| then Hang
    else
      match ev[pos]
      case Error(_) => Panic
      case Start(n, _) =>
        if n == SEQ_ENTRY_SEQ then
          match ReadOpaqueSpec(ev, pos + 1, BIOSEQ)
          case Done(Some(b), q) => Done(Some(Seq(b)), q)
          case Done(None, _) => Panic
          case Panic => Panic
          case Hang => Hang
        else if n == SEQ_ENTRY_SET then
          match BioSeqSetLoop(ev, pos + 1, DefaultBioSeqSet)
          case Done(Some(s), q) => Done(Some(Set(s)), q)
          case Done(None, _) => Panic
          case Panic => Panic
          case Hang => Hang
        else SeqEntryLoop(ev, pos + 1)
      case End(n) => if n == SEQ_ENTRY then Done(None, pos + 1) else SeqEntryLoop(ev, pos + 1)
      case _ => SeqEntryLoop(ev, pos + 1)
  }

  /**
   * The loop of `BioSeqSet::from_reader` with the set built so far: a Start
   * `Bioseq-set_seq-set` replaces `seqSet` by the entries collected up to
   * End `Bioseq-set_seq-set`; End `Bioseq-set` returns the set. Every other
   * field keeps the value it started with. It does not look for Eof.
   */
  function BioSeqSetLoop(ev: seq<Event>, pos: nat, acc: BioSeqSet): (p: Parse<Option<BioSeqSet>>)
    requires pos <= |ev|
    ensures Advances(ev, pos, p)
    ensures p.Done? ==> (pos < p.next && ev[p.next - 1] == End(BIOSEQ_SET)
      && p.value.Some? && p.value.value == acc.(seqSet := p.value.value.seqSet))
    decreases |ev| - pos, 0
  {
    if pos == |ev| then Hang
    else
      match ev[pos]
      case Error(_) => Panic
      case Start(n, _) =>
        if n == BIOSEQ_SET_SEQ_SET then
          match SeqEntryVecLoop(ev, pos + 1, [])
          case Done(entries, q) => BioSeqSetLoop(ev, q, acc.(seqSet := entries))
          case Panic => Panic
          case Hang => Hang
        else BioSeqSetLoop(ev, pos + 1, acc)
      case End(n) => if n == BIOSEQ_SET then Done(Some(acc), pos + 1) else BioSeqSetLoop(ev, pos + 1, acc)
      case _ => BioSeqSetLoop(ev, pos + 1, acc)
  }

  /**
   * The collector of `vec_from_reader` for `SeqEntry` items ending at End
   * `Bioseq-set_seq-set`, with the entry reader called directly (it is in
   * the same recursion); `SeqEntryVecIsCollector` shows it is the generic
   * collector.
   */
  function SeqEntryVecLoop(ev: seq<Event>, pos: nat, items: seq<SeqEntry>): (p: Parse<seq<SeqEntry>>)
    requires pos <= |ev|
    ensures Advances(ev, pos, p)
    ensures p.Done? ==> items <= p.value
    decreases |ev| - pos, 0
  {
    match At(ev, pos)
    case Error(_) => Panic
    case Eof => Done(items, Next(ev, pos))
    case End(n) =>
      if n == BIOSEQ_SET_SEQ_SET then Done(items, pos + 1) else SeqEntryVecLoop(ev, pos + 1, items)
    case Start(n, _) =>
      if n == SEQ_ENTRY then
        match SeqEntryLoop(ev, pos + 1)
        case Panic => Panic
        case Hang => Hang
        case Done(v, q) => SeqEntryVecLoop(ev, q, if v.Some? then items + [v.value] else items)
      else SeqEntryVecLoop(ev, pos + 1, items)
    case _ => SeqEntryVecLoop(ev, pos + 1, items)
  }

  /** `SeqEntry::from_reader` as an item reader for the generic collector. */
  function EntryItem(ev: seq<Event>): (item: nat --> Parse<Option<SeqEntry>>)
    ensures Element.ItemReader(ev, item)
  {
    (p: nat) requires p <= |ev| => SeqEntryLoop(ev, p)
  }

  /**
   * `parse_vec_node_to` fills `seq_set` with the list collector of
   * `src/element.rs` applied to `SeqEntry::from_reader`.
   */
  lemma {:induction false} SeqEntryVecIsCollector(ev: seq<Event>, pos: nat, items: seq<SeqEntry>)
    requires pos <= |ev|
    ensures SeqEntryVecLoop(ev, pos, items)
      == Element.CollectLoop(ev, pos, SEQ_ENTRY, BIOSEQ_SET_SEQ_SET, EntryItem(ev), items)
    decreases |ev| - pos
  {
    if pos < |ev| {
      match ev[pos]
      case Start(n, _) =>
        if n == SEQ_ENTRY {
          var r := SeqEntryLoop(ev, pos + 1);
          if r.Done? {
            SeqEntryVecIsCollector(ev, r.next, if r.value.Some? then items + [r.value.value] else items);
          }
        } else {
          SeqEntryVecIsCollector(ev, pos + 1, items);
        }
      case End(n) =>
        if n != BIOSEQ_SET_SEQ_SET {
          SeqEntryVecIsCollector(ev, pos + 1, items);
        }
      case Error(_) =>
      case Eof =>
      case Text(_) =>
        SeqEntryVecIsCollector(ev, pos + 1, items);
      case Other =>
        SeqEntryVecIsCollector(ev, pos + 1, items);
    }
  }

  /**
   * Read from its Start, a `Bioseq-set` returns exactly at its End
   * `Bioseq-set` with every field at its `Default` except `seq_set`.
   */
  lemma BioSeqSetOnlyFillsSeqSet(ev: seq<Event>, pos: nat)
    requires pos <= |ev|
    ensures var p := BioSeqSetLoop(ev, pos, DefaultBioSeqSet);
      p.Done? ==> (ev[p.next - 1] == End(BIOSEQ_SET) && p.value.value.setClass == NotSet
        && p.value.value == DefaultBioSeqSet.(seqSet := p.value.value.seqSet))
  {
  }

  /** Events the `SeqEntry` loop passes over. */
  predicate SeqEntrySkips(e: Event)
  {
    !e.Error? && !(e.Start? && (e.name == SEQ_ENTRY_SEQ || e.name == SEQ_ENTRY_SET)) && e != End(SEQ_ENTRY)
  }

  lemma {:induction false} SeqEntryScan(ev: seq<Event>, pos: nat, k: nat)
    requires pos <= k <= |ev|
    requires forall j :: pos <= j < k ==> SeqEntrySkips(ev[j])
    ensures SeqEntryLoop(ev, pos) == SeqEntryLoop(ev, k)
    decreases k - pos
  {
    if pos < k {
      SeqEntryScan(ev, pos + 1, k);
    }
  }

  /**
   * The first child or closing tag decides: End `Seq-entry` gives None, a
   * `Seq-entry_seq` gives `Seq` of the `Bioseq` read after it, a
   * `Seq-entry_set` gives `Set` of the `Bioseq-set` read after it.
   */
  lemma SeqEntryFirstDecides(ev: seq<Event>, pos: nat, k: nat)
    requires pos <= k < |ev|
    requires forall j :: pos <= j < k ==> SeqEntrySkips(ev[j])
    ensures ev[k] == End(SEQ_ENTRY) ==> SeqEntryLoop(ev, pos) == Done(None, k + 1)
    ensures ev[k].Start? && ev[k].name == SEQ_ENTRY_SEQ ==>
      SeqEntryLoop(ev, pos) ==
        match ReadOpaqueSpec(ev, k + 1, BIOSEQ)
        case Done(Some(b), q) => Done(Some(Seq(b)), q)
        case Done(None, _) => Panic
        case Panic => Panic
        case Hang => Hang
    ensures ev[k].Start? && ev[k].name == SEQ_ENTRY_SET ==>
      SeqEntryLoop(ev, pos) ==
        match BioSeqSetLoop(ev, k + 1, DefaultBioSeqSet)
        case Done(s, q) => Done(Some(Set(s.value)), q)
        case Panic => Panic
        case Hang => Hang
  {
    SeqEntryScan(ev, pos, k);
  }

  // ----------------------------------------------------------------------
  // Reader methods
  // ----------------------------------------------------------------------

  method SeqEntryFromReader(r: Reader) returns (res: Parse<Option<SeqEntry>>)
    requires r.Valid()
    modifies r
    ensures r.Valid() && res == SeqEntryLoop(r.events, old(r.pos))
    ensures res.Done? ==> r.pos == res.next
    decreases |r.events| - r.pos, 1
  {
    while true
      invariant r.Valid() && r.pos >= old(r.pos)
      invariant SeqEntryLoop(r.events, r.pos) == SeqEntryLoop(r.events, old(r.pos))
      decreases |r.events| - r.pos
    {
      if r.pos == |r.events| {
        return Hang;
      }
      var e := r.ReadEvent();
      match e {
        case Error(_) => return Panic;
        case Start(n, _) =>
          if n == SEQ_ENTRY_SEQ {
            var b := ReadOpaque(r, BIOSEQ);
            match b {
              case Done(Some(v), q) => return Done(Some(Seq(v)), q);
              case Done(None, _) => return Panic;
              case Panic => return Panic;
              case Hang => return Hang;
            }
          } else if n == SEQ_ENTRY_SET {
            var s := BioSeqSetFromReader(r);
            match s {
              case Done(Some(v), q) => return Done(Some(Set(v)), q);
              case Done(None, _) => return Panic;
              case Panic => return Panic;
              case Hang => return Hang;
            }
          }
        case End(n) =>
          if n == SEQ_ENTRY {
            return Done(None, r.pos);
          }
        case _ =>
      }
    }
  }

  method BioSeqSetFromReader(r: Reader) returns (res: Parse<Option<BioSeqSet>>)
    requires r.Valid()
    modifies r
    ensures r.Valid() && res == BioSeqSetLoop(r.events, old(r.pos), DefaultBioSeqSet)
    ensures res.Done? ==> r.pos == res.next
    decreases |r.events| - r.pos, 1
  {
    var acc := DefaultBioSeqSet;
    while true
      invariant r.Valid() && r.pos >= old(r.pos)
      invariant BioSeqSetLoop(r.events, r.pos, acc) == BioSeqSetLoop(r.events, old(r.pos), DefaultBioSeqSet)
      decreases |r.events| - r.pos
    {
      if r.pos == |r.events| {
        return Hang;
      }
      var e := r.ReadEvent();
      match e {
        case Error(_) => return Panic;
        case Start(n, _) =>
          if n == BIOSEQ_SET_SEQ_SET {
            var entries := SeqEntryVecFromReader(r);
            match entries {
              case Done(v, _) => acc := acc.(seqSet := v);
              case Panic => return Panic;
              case Hang => return Hang;
            }
          }
        case End(n) =>
          if n == BIOSEQ_SET {
            return Done(Some(acc), r.pos);
          }
        case _ =>
      }
    }
  }

  /** `parse_vec_node_to` for the entries of a `Bioseq-set_seq-set`. */
  method SeqEntryVecFromReader(r: Reader) returns (res: Parse<seq<SeqEntry>>)
    requires r.Valid()
    modifies r
    ensures r.Valid() && res == SeqEntryVecLoop(r.events, old(r.pos), [])
    ensures res.Done? ==> r.pos == res.next
    decreases |r.events| - r.pos, 1
  {
    var items: seq<SeqEntry> := [];
    while true
      invariant r.Valid() && r.pos >= old(r.pos)
      invariant SeqEntryVecLoop(r.events, r.pos, items) == SeqEntryVecLoop(r.events, old(r.pos), [])
      decreases |r.events| - r.pos
    {
      var e := r.ReadEvent();
      match e {
        case Error(_) => return Panic;
        case Eof => return Done(items, r.pos);
        case End(n) =>
          if n == BIOSEQ_SET_SEQ_SET {
            return Done(items, r.pos);
          }
        case Start(n, _) =>
          if n == SEQ_ENTRY {
            var v := SeqEntryFromReader(r);
            match v {
              case Panic => return Panic;
              case Hang => return Hang;
              case Done(x, _) =>
                if x.Some? {
                  items := items + [x.value];
                }
            }
          }
        case _ =>
      }
    }
  }
}
