/**
 * The XML pull reader the parsers drive (quick_xml's `Reader<&[u8]>`), taken
 * as a finished list of events: tokenising the document is not modelled.
 */
module Xml {
  import opened Bytes

  /** One attribute of a start tag; `Malformed` is an attribute quick_xml could not read. */
  datatype Attribute = Attribute(key: string, value: string) | MalformedAttribute

  /**
   * What `read_event()` yields. `Error` is the `Err` case, which the parsers
   * `unwrap()`; `Other` stands for declarations, comments, CDATA and the like,
   * which every parser ignores.
   */
  datatype Event =
    | Start(name: string, attributes: seq<Attribute>)
    | End(name: string)
    | Text(content: seq<byte>)
    | Other
    | Eof
    | Error(message: string)

  /** The event read at cursor `pos`: past the last event the reader keeps answering Eof. */
  function At(ev: seq<Event>, pos: nat): Event
  {
    if pos < |ev| then ev[pos] else Eof
  }

  /** The cursor after one `read_event()`; it stays put once the events are used up. */
  function Next(ev: seq<Event>, pos: nat): (p: nat)
    requires pos <= |ev|
    ensures p <= |ev|
    ensures pos < |ev| ==> p == pos + 1
    ensures pos == |ev| ==> p == pos
  {
    if pos < |ev| then pos + 1 else pos
  }

  /**
   * What running a parser from a cursor comes to: it returns `value` with the
   * reader at `next`, it panics, or it never returns (a loop that does not
   * look for Eof keeps reading Eof for ever).
   */
  datatype Parse<T> = Done(value: T, next: nat) | Panic | Hang

  /** `Done` results never move the cursor backwards or past the end. */
  ghost predicate Advances<T>(ev: seq<Event>, pos: nat, p: Parse<T>)
  {
    p.Done? ==> pos <= p.next <= |ev|
  }

  /** A parser's result with its value transformed; the cursor and the failures are kept. */
  function MapParse<A, B>(p: Parse<A>, f: A -> B): (r: Parse<B>)
    ensures r.Done? <==> p.Done?
    ensures r.Done? ==> r.next == p.next && r.value == f(p.value)
    ensures r == Panic <==> p == Panic
  {
    match p
    case Done(v, q) => Done(f(v), q)
    case Panic => Panic
    case Hang => Hang
  }

  class Reader {
    const events: seq<Event>
    var pos: nat

    ghost predicate Valid()
      reads this
    {
      pos <= |events|
    }

    constructor (events: seq<Event>)
      ensures this.events == events && pos == 0 && Valid()
    {
      this.events := events;
      pos := 0;
    }

    /** `reader.read_event()`. */
    method ReadEvent() returns (e: Event)
      requires Valid()
      modifies this
      ensures Valid()
      ensures e == At(events, old(pos)) && pos == Next(events, old(pos))
    {
      e := At(events, pos);
      pos := Next(events, pos);
    }

    /**
     * Leaves the reader where a nested parser, given by its specification
     * function, finished.
     */
    method Seek(p: nat)
      requires Valid() && p <= |events|
      modifies this
      ensures Valid() && pos == p
    {
      pos := p;
    }
  }
}
