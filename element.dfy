/**
 * The list collector of `src/element.rs`: `XMLElementVec::vec_from_reader`
 * gathers, in document order, every element a type's `from_reader` reads
 * successfully, up to a closing tag or the end of the events.
 */
module Element {
  import opened Wrappers
  import opened Xml

  /**
   * `XMLElement::is_end`: an end tag closes an element exactly when its name
   * is the element's own start-tag name.
   */
  predicate IsEnd(endName: string, startName: string)
  {
    endName == startName
  }

  /**
   * An element reader, as the collector sees it: from any cursor it returns
   * an optional item with a cursor that has not moved backwards, panics, or
   * never returns.
   */
  ghost predicate ItemReader<T>(ev: seq<Event>, item: nat --> Parse<Option<T>>)
  {
    forall p: nat :: p <= |ev| ==> item.requires(p) && Advances(ev, p, item(p))
  }

  /**
   * The loop of `vec_from_reader` from cursor `pos`, with `items` collected
   * so far: each Start named `start` hands over to the item reader, which
   * continues right after it; the End named `end` and Eof end the list.
   */
  function CollectLoop<T>(ev: seq<Event>, pos: nat, start: string, end: string,
                          item: nat --> Parse<Option<T>>, items: seq<T>): (p: Parse<seq<T>>)
    requires pos <= |ev| && ItemReader(ev, item)
    ensures Advances(ev, pos, p)
    ensures p.Done? ==> items <= p.value
    decreases |ev| - pos
  {
    match At(ev, pos)
    case Error(_) => Panic
    case Eof => Done(items, Next(ev, pos))
    case End(n) =>
      if IsEnd(n, end) then Done(items, pos + 1) else CollectLoop(ev, pos + 1, start, end, item, items)
    case Start(n, _) =>
      if n == start then
        match item(pos + 1)
        case Panic => Panic
        case Hang => Hang
        case Done(v, q) => CollectLoop(ev, q, start, end, item, if v.Some? then items + [v.value] else items)
      else CollectLoop(ev, pos + 1, start, end, item, items)
    case _ => CollectLoop(ev, pos + 1, start, end, item, items)
  }

  /**
   * `vec_from_reader`: `end` defaults to the element's own closing tag
   * (`start_bytes().to_end()`).
   */
  method VecFromReader<T>(r: Reader, start: string, end: Option<string>, item: nat --> Parse<Option<T>>)
    returns (res: Parse<seq<T>>)
    requires r.Valid() && ItemReader(r.events, item)
    modifies r
    ensures r.Valid() && res == CollectLoop(r.events, old(r.pos), start, end.UnwrapOr(start), item, [])
    ensures res.Done? ==> r.pos == res.next
  {
    var stop := end.UnwrapOr(start);
    var items: seq<T> := [];
    while true
      invariant r.Valid()
      invariant CollectLoop(r.events, r.pos, start, stop, item, items)
             == CollectLoop(r.events, old(r.pos), start, stop, item, [])
      decreases |r.events| - r.pos
    {
      var e := r.ReadEvent();
      match e {
        case Error(_) => return Panic;
        case Eof => return Done(items, r.pos);
        case End(n) =>
          if IsEnd(n, stop) {
            return Done(items, r.pos);
          }
        case Start(n, _) =>
          if n == start {
            var p := item(r.pos);
            match p {
              case Panic => return Panic;
              case Hang => return Hang;
              case Done(v, q) =>
                r.Seek(q);
                if v.Some? {
                  items := items + [v.value];
                }
            }
          }
        case _ =>
      }
    }
  }

  /** The number of Start events named `name` among `ev[lo..hi]`. */
  function CountStarts(ev: seq<Event>, lo: nat, hi: nat, name: string): (n: nat)
    requires lo <= hi <= |ev|
    ensures n <= hi - lo
    decreases hi - lo
  {
    if lo == hi then 0
    else (if ev[lo].Start? && ev[lo].name == name then 1 else 0) + CountStarts(ev, lo + 1, hi, name)
  }

  lemma {:induction false} CountStartsMonotone(ev: seq<Event>, a: nat, b: nat, hi: nat, name: string)
    requires a <= b <= hi <= |ev|
    ensures CountStarts(ev, b, hi, name) <= CountStarts(ev, a, hi, name)
    decreases b - a
  {
    if a < b {
      CountStartsMonotone(ev, a + 1, b, hi, name);
    }
  }

  /**
   * The collector calls the item reader only on Start events named `start`
   * and keeps at most one item per call: it returns at most as many new
   * items as there are such events among those it has read.
   */
  lemma {:induction false} CollectBound<T>(ev: seq<Event>, pos: nat, start: string, end: string,
                                           item: nat --> Parse<Option<T>>, items: seq<T>)
    requires pos <= |ev| && ItemReader(ev, item)
    ensures var p := CollectLoop(ev, pos, start, end, item, items);
      p.Done? ==> |p.value| <= |items| + CountStarts(ev, pos, p.next, start)
    decreases |ev| - pos
  {
    var p := CollectLoop(ev, pos, start, end, item, items);
    if p.Done? && pos < |ev| {
      match ev[pos]
      case Error(_) =>
      case Eof =>
      case End(n) =>
        if !IsEnd(n, end) {
          CollectBound(ev, pos + 1, start, end, item, items);
        }
      case Start(n, _) =>
        if n == start {
          var q := item(pos + 1).next;
          var v := item(pos + 1).value;
          var items' := if v.Some? then items + [v.value] else items;
          CollectBound(ev, q, start, end, item, items');
          CountStartsMonotone(ev, pos + 1, q, p.next, start);
        } else {
          CollectBound(ev, pos + 1, start, end, item, items);
        }
      case _ =>
        CollectBound(ev, pos + 1, start, end, item, items);
    }
  }

  /**
   * Events other than a matching Start, the closing tag, Eof or an error are
   * passed over; with nothing else left the collector returns the items it
   * already has, with the reader at the end of the events.
   */
  lemma {:induction false} CollectReachesEnd<T>(ev: seq<Event>, pos: nat, start: string, end: string,
                                                item: nat --> Parse<Option<T>>, items: seq<T>)
    requires pos <= |ev| && ItemReader(ev, item)
    requires forall j :: pos <= j < |ev| ==>
      !ev[j].Error? && !ev[j].Eof? && ev[j] != End(end) && !(ev[j].Start? && ev[j].name == start)
    ensures CollectLoop(ev, pos, start, end, item, items) == Done(items, |ev|)
    decreases |ev| - pos
  {
    if pos < |ev| {
      CollectReachesEnd(ev, pos + 1, start, end, item, items);
    }
  }
}
