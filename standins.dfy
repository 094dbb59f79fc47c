/**
 * Readers the parsers call whose code is not part of this model: the
 * `XmlNode` impls of `DbTag`, `Date`, `GeneRef`, `BioSource`, `ProtRef`,
 * `SeqLoc` and `BioSeq`. Each is represented by one stand-in: it keeps the
 * events of the element up to the End tag of that element and returns them
 * unparsed, returns None when it reaches Eof first, and panics on a reader
 * error.
 */
module Standins {
  import opened Wrappers
  import opened Xml

  /** The unparsed events of one element named `element`. */
  datatype Opaque = Opaque(element: string, body: seq<Event>)

  /** The element names of the stand-in readers. */
  const DBTAG := "Dbtag"
  const DATE := "Date"
  const GENE_REF := "Gene-ref"
  const BIO_SOURCE := "BioSource"
  const PROT_REF := "Prot-ref"
  const SEQ_LOC := "Seq-loc"
  const BIOSEQ := "Bioseq"

  /** The stand-in reader from cursor `pos`, with the events in `body` already kept. */
  function OpaqueLoop(ev: seq<Event>, pos: nat, element: string, body: seq<Event>): (p: Parse<Option<Opaque>>)
    requires pos <= |ev|
    ensures Advances(ev, pos, p)
    ensures p != Hang
    decreases |ev| - pos
  {
    match At(ev, pos)
    case Error(_) => Panic
    case Eof => Done(None, Next(ev, pos))
    case End(n) =>
      if n == element then Done(Some(Opaque(element, body)), pos + 1)
      else OpaqueLoop(ev, pos + 1, element, body + [ev[pos]])
    case _ => OpaqueLoop(ev, pos + 1, element, body + [ev[pos]])
  }

  /** The stand-in reader for the element named `element`, started after its Start tag. */
  function ReadOpaqueSpec(ev: seq<Event>, pos: nat, element: string): (p: Parse<Option<Opaque>>)
    requires pos <= |ev|
    ensures Advances(ev, pos, p) && p != Hang
  {
    OpaqueLoop(ev, pos, element, [])
  }

  /**
   * A stand-in returns an element exactly when it finds that element's End
   * tag; what it returns is every event in between, in order.
   */
  lemma {:induction false} OpaqueLoopBody(ev: seq<Event>, pos: nat, element: string, body: seq<Event>)
    requires pos <= |ev|
    ensures var p := OpaqueLoop(ev, pos, element, body);
      p.Done? && p.value.Some? ==>
        pos < p.next && ev[p.next - 1] == End(element)
        && p.value.value == Opaque(element, body + ev[pos..p.next - 1])
    decreases |ev| - pos
  {
    var p := OpaqueLoop(ev, pos, element, body);
    if pos < |ev| && p.Done? && p.value.Some? {
      if ev[pos] == End(element) {
        assert ev[pos..pos] == [];
        assert body + [] == body;
      } else {
        OpaqueLoopBody(ev, pos + 1, element, body + [ev[pos]]);
        assert ev[pos..p.next - 1] == [ev[pos]] + ev[pos + 1..p.next - 1];
        ConcatAssoc(body, [ev[pos]], ev[pos + 1..p.next - 1]);
      }
    }
  }

  method ReadOpaque(r: Reader, element: string) returns (res: Parse<Option<Opaque>>)
    requires r.Valid()
    modifies r
    ensures r.Valid() && res == ReadOpaqueSpec(r.events, old(r.pos), element)
    ensures res.Done? ==> r.pos == res.next
  {
    var body: seq<Event> := [];
    while true
      invariant r.Valid()
      invariant OpaqueLoop(r.events, r.pos, element, body) == OpaqueLoop(r.events, old(r.pos), element, [])
      decreases |r.events| - r.pos
    {
      var e := r.ReadEvent();
      match e {
        case Error(_) => return Panic;
        case Eof => return Done(None, r.pos);
        case End(n) =>
          if n == element {
            return Done(Some(Opaque(element, body)), r.pos);
          }
          body := body + [e];
        case _ =>
          body := body + [e];
      }
    }
  }
}
