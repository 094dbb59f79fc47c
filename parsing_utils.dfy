/**
 * Leaf readers of `src/parsing/utils.rs`: integers and strings from text
 * events, boolean attributes, and the unchecked text-list readers. The
 * older `src/parsing_utils.rs` holds the same readers and, in addition,
 * `check_unexpected`.
 */
module ParsingUtils {
  import opened Wrappers
  import opened Bytes
  import opened Xml
  import opened Unexpected

  // ----------------------------------------------------------------------
  // Pure converters
  // ----------------------------------------------------------------------

  /**
   * `bytes_to_int::<T>` for a target type with values `lo..=hi`: the value
   * atoi reads, and a panic ("Conversion error") when atoi gives None.
   */
  function BytesToInt(text: seq<byte>, lo: int, hi: int): (r: Outcome<int>)
    ensures r.Returns? <==> Atoi(text, lo, hi).Some?
    ensures r.Returns? ==> r.value == Atoi(text, lo, hi).value && lo <= r.value <= hi
  {
    match Atoi(text, lo, hi)
    case Some(v) => Returns(v)
    case None => Panics
  }

  /** A decimal rendering of an in-range number converts back to that number. */
  lemma BytesToIntOfDecimal(n: nat, lo: int, hi: int)
    requires lo <= n <= hi
    ensures IsAscii(NatToString(n))
    ensures BytesToInt(AsciiBytes(NatToString(n)), lo, hi) == Returns(n)
  {
    DecimalValueOfString(n);
    AtoiOfNatToString(n, lo, hi);
  }

  /** `bytes_to_string`: the byte-wise `escape_ascii`, from which the bytes can be read back. */
  function BytesToString(text: seq<byte>): (s: string)
    ensures UnescapeAscii(s) == Some(text)
    ensures IsPrintableText(s) && |s| >= |text|
  {
    EscapeRoundTrip(text);
    EscapeAscii(text)
  }

  /**
   * `is_alphanum`: false for the empty text and for the three characters
   * backslash, backslash, `n`; true for everything else.
   */
  predicate IsAlphanum(text: string)
  {
    |text| != 0 && !(|text| == 3 && text[0] == '\\' && text[1] == '\\' && text[2] == 'n')
  }

  /**
   * As written, the filter compares with a three-character text, while a
   * newline byte escapes to the two characters backslash and `n`: a text
   * event holding just a newline is kept.
   */
  lemma NewlineTextIsKept()
    ensures Trim(BytesToString([0x0a])) == "\\n"
    ensures IsAlphanum(Trim(BytesToString([0x0a])))
  {
    assert EscapeAscii([0x0a]) == EscapeByte(0x0a) + EscapeAscii([]);
    assert !IsWhitespace('\\') && !IsWhitespace('n');
  }

  // ----------------------------------------------------------------------
  // Attributes
  // ----------------------------------------------------------------------

  predicate IsValueKey(a: Attribute)
  {
    a.Attribute? && a.key == "value"
  }

  /** Position of the first readable attribute keyed `value`, if there is one. */
  function FirstValueIndex(attrs: seq<Attribute>): (k: Option<nat>)
    ensures k.Some? ==> (k.value < |attrs| && IsValueKey(attrs[k.value])
                         && forall j :: 0 <= j < k.value ==> !IsValueKey(attrs[j]))
    ensures k.None? ==> forall j :: 0 <= j < |attrs| ==> !IsValueKey(attrs[j])
  {
    if attrs == [] then None
    else if IsValueKey(attrs[0]) then Some(0)
    else
      match FirstValueIndex(attrs[1..])
      case None => None
      case Some(k) => Some(k + 1)
  }

  /** Bytes `c` takes in UTF-8, the encoding of a Rust `String`. */
  function Utf8Width(c: char): (w: nat)
    ensures 1 <= w <= 4
    ensures w == 1 <==> c as int < 0x80
  {
    if c as int < 0x80 then 1
    else if c as int < 0x800 then 2
    else if c as int < 0x1_0000 then 3
    else 4
  }

  /** Byte length of `s` in UTF-8, what `String::len` gives. */
  function Utf8Len(s: string): (n: nat)
    ensures n >= |s|
    ensures n == 0 <==> s == []
  {
    if s == [] then 0 else Utf8Width(s[0]) + Utf8Len(s[1..])
  }

  /** Byte lengths add up over a concatenation. */
  lemma {:induction false} Utf8LenConcat(a: string, b: string)
    ensures Utf8Len(a + b) == Utf8Len(a) + Utf8Len(b)
    decreases |a|
  {
    if a != [] {
      assert (a + b)[0] == a[0];
      assert (a + b)[1..] == a[1..] + b;
      Utf8LenConcat(a[1..], b);
    } else {
      assert a + b == b;
    }
  }

  /** A string of ASCII characters takes one byte per character. */
  lemma {:induction false} AsciiUtf8Len(s: string)
    requires forall i :: 0 <= i < |s| ==> s[i] as int < 0x80
    ensures Utf8Len(s) == |s|
    decreases |s|
  {
    if s != [] {
      AsciiUtf8Len(s[1..]);
    }
  }

  /**
   * The number of leading characters of `s` that take exactly `n` bytes,
   * None when byte offset `n` falls inside a character or past the end:
   * `is_char_boundary(n)` with the position it marks.
   */
  function BoundaryIndex(s: string, n: nat): (k: Option<nat>)
    ensures k.Some? ==> k.value <= |s| && Utf8Len(s[..k.value]) == n
    ensures k.None? ==> forall i :: 0 <= i <= |s| ==> Utf8Len(s[..i]) != n
  {
    if n == 0 then
      assert s[..0] == [];
      Some(0)
    else if s == [] then
      assert forall i :: 0 <= i <= |s| ==> s[..i] == [];
      None
    else if Utf8Width(s[0]) > n then
      assert forall i :: 0 < i <= |s| ==> s[..i][0] == s[0];
      None
    else
      var w := Utf8Width(s[0]);
      assert forall i :: 0 < i <= |s| ==> s[..i][1..] == s[1..][..i - 1];
      match BoundaryIndex(s[1..], n - w)
      case None =>
        assert s[..0] == [];
        None
      case Some(k) => Some(k + 1)
  }

  /**
   * `_inner.get(2.._inner.len() - 2).unwrap()`: the value with two bytes
   * cut from each end. It panics when the value is shorter than four bytes
   * (the subtraction underflows, or the range runs backwards) and when
   * byte 2 or byte `len - 2` falls inside a multi-byte character.
   */
  function InnerValue(v: string): (r: Outcome<Option<string>>)
    ensures r.Returns? <==>
      (Utf8Len(v) >= 4
       && (exists i :: 0 <= i <= |v| && Utf8Len(v[..i]) == 2)
       && (exists j :: 0 <= j <= |v| && Utf8Len(v[..j]) == Utf8Len(v) - 2))
    ensures r.Returns? ==>
      r.value.Some? && Utf8Len(r.value.value) == Utf8Len(v) - 4
      && exists i, j :: 0 <= i <= j <= |v| && r.value.value == v[i..j]
                        && Utf8Len(v[..i]) == 2 && Utf8Len(v[j..]) == 2
  {
    var n := Utf8Len(v);
    if n < 4 then Panics
    else
      match BoundaryIndex(v, 2)
      case None => Panics
      case Some(i) =>
        match BoundaryIndex(v, n - 2)
        case None => Panics
        case Some(j) =>
          SplitUtf8Len(v, i, j);
          Returns(Some(v[i..j]))
  }

  /** Cutting `v` at character positions `i` and `j` splits its byte length. */
  lemma SplitUtf8Len(v: string, i: nat, j: nat)
    requires i <= |v| && j <= |v|
    requires Utf8Len(v[..i]) == 2 && Utf8Len(v[..j]) == Utf8Len(v) - 2
    requires Utf8Len(v) >= 4
    ensures i <= j
    ensures Utf8Len(v[i..j]) == Utf8Len(v) - 4 && Utf8Len(v[j..]) == 2
  {
    if j < i {
      PrefixUtf8Len(v, j, i);
    }
    PrefixUtf8Len(v, i, j);
    PrefixUtf8Len(v, j, |v|);
    assert v[..|v|] == v;
  }

  /** The byte length of a prefix is that of a shorter prefix plus the rest. */
  lemma PrefixUtf8Len(v: string, i: nat, j: nat)
    requires i <= j <= |v|
    ensures Utf8Len(v[..j]) == Utf8Len(v[..i]) + Utf8Len(v[i..j])
    ensures i < j ==> Utf8Len(v[..j]) > Utf8Len(v[..i])
  {
    assert v[..j] == v[..i] + v[i..j];
    Utf8LenConcat(v[..i], v[i..j]);
  }

  /** On an ASCII value the cut is by characters: two from each end. */
  lemma AsciiInnerValue(v: string)
    requires forall i :: 0 <= i < |v| ==> v[i] as int < 0x80
    ensures InnerValue(v) == if |v| >= 4 then Returns(Some(v[2..|v| - 2])) else Panics
  {
    AsciiUtf8Len(v);
    if |v| >= 4 {
      AsciiUtf8Len(v[..2]);
      AsciiUtf8Len(v[..|v| - 2]);
      var r := InnerValue(v);
      assert r.Returns?;
      var i, j :| 0 <= i <= j <= |v| && r.value.value == v[i..j]
                  && Utf8Len(v[..i]) == 2 && Utf8Len(v[j..]) == 2;
      AsciiUtf8Len(v[..i]);
      AsciiUtf8Len(v[j..]);
    }
  }

  /** A two-byte character straddling byte 2 makes the cut panic. */
  lemma WideCharAtTwoPanics()
    ensures InnerValue("a\U{e9}bcd") == Panics
  {
    var v := "a\U{e9}bcd";
    assert Utf8Width(v[1]) == 2;
    assert forall i :: 0 <= i <= |v| ==> Utf8Len(v[..i]) != 2 by {
      forall i | 0 <= i <= |v| ensures Utf8Len(v[..i]) != 2 {
        if i >= 2 {
          assert v[..i] == v[..2] + v[2..i];
          Utf8LenConcat(v[..2], v[2..i]);
          assert v[..2][1..] == [v[1]];
        } else if i == 1 {
          assert v[..1][1..] == [];
        }
      }
    }
  }

  /** What `attribute_value` comes to: the first `value` attribute, trimmed, or None. */
  function AttributeValueOf(attrs: seq<Attribute>): Outcome<Option<string>>
  {
    match FirstValueIndex(attrs)
    case None => Returns(None)
    case Some(k) => InnerValue(attrs[k].value)
  }

  /** `attribute_value`: scans the attributes and stops at the first one keyed `value`. */
  method AttributeValue(attrs: seq<Attribute>) returns (r: Outcome<Option<string>>)
    ensures r == AttributeValueOf(attrs)
  {
    var i := 0;
    while i < |attrs|
      invariant 0 <= i <= |attrs|
      invariant forall j :: 0 <= j < i ==> !IsValueKey(attrs[j])
    {
      var a := attrs[i];
      if a.Attribute? && a.key == "value" {
        r := InnerValue(a.value);
        return;
      }
      i := i + 1;
    }
    r := Returns(None);
  }

  /** `read_bool_attribute`: Some only for the value texts `true` and `false`. */
  function ReadBoolAttribute(attrs: seq<Attribute>): (r: Outcome<Option<bool>>)
    ensures r == Panics <==> AttributeValueOf(attrs) == Panics
    ensures r == Returns(Some(true)) <==> AttributeValueOf(attrs) == Returns(Some("true"))
    ensures r == Returns(Some(false)) <==> AttributeValueOf(attrs) == Returns(Some("false"))
  {
    match AttributeValueOf(attrs)
    case Panics => Panics
    case Returns(None) => Returns(None)
    case Returns(Some(v)) =>
      if v == "true" then Returns(Some(true))
      else if v == "false" then Returns(Some(false))
      else Returns(None)
  }

  // ----------------------------------------------------------------------
  // Single-event readers
  // ----------------------------------------------------------------------

  /**
   * `read_int::<T>`: reads one event; a text event converts with
   * `bytes_to_int` (which may panic), anything else gives None.
   */
  function ReadIntSpec(ev: seq<Event>, pos: nat, lo: int, hi: int): (p: Parse<Option<int>>)
    requires pos <= |ev|
    ensures p != Hang
    ensures p.Done? ==> p.next == Next(ev, pos)
    ensures p.Done? && p.value.Some? <==> At(ev, pos).Text? && Atoi(At(ev, pos).content, lo, hi).Some?
    ensures p.Done? && p.value.Some? ==> lo <= p.value.value <= hi
    ensures p == Panic <==> At(ev, pos).Error? || (At(ev, pos).Text? && Atoi(At(ev, pos).content, lo, hi).None?)
  {
    match At(ev, pos)
    case Error(_) => Panic
    case Text(t) =>
      (match BytesToInt(t, lo, hi)
       case Returns(v) => Done(Some(v), Next(ev, pos))
       case Panics => Panic)
    case _ => Done(None, Next(ev, pos))
  }

  /** `read_string` and `read_real`: one event; a text event gives its escaped text. */
  function ReadStringSpec(ev: seq<Event>, pos: nat): (p: Parse<Option<string>>)
    requires pos <= |ev|
    ensures p != Hang
    ensures p.Done? ==> p.next == Next(ev, pos)
    ensures p == Panic <==> At(ev, pos).Error?
    ensures p.Done? ==> (p.value.Some? <==> At(ev, pos).Text?)
    ensures p.Done? && p.value.Some? ==> UnescapeAscii(p.value.value) == Some(At(ev, pos).content)
  {
    match At(ev, pos)
    case Error(_) => Panic
    case Text(t) => Done(Some(BytesToString(t)), Next(ev, pos))
    case _ => Done(None, Next(ev, pos))
  }

  method ReadInt(r: Reader, lo: int, hi: int) returns (res: Parse<Option<int>>)
    requires r.Valid()
    modifies r
    ensures r.Valid() && res == ReadIntSpec(r.events, old(r.pos), lo, hi)
    ensures res.Done? ==> r.pos == res.next
  {
    var e := r.ReadEvent();
    match e {
      case Error(_) => res := Panic;
      case Text(t) =>
        var v := BytesToInt(t, lo, hi);
        if v.Returns? {
          res := Done(Some(v.value), r.pos);
        } else {
          res := Panic;
        }
      case _ => res := Done(None, r.pos);
    }
  }

  method ReadReal(r: Reader) returns (res: Parse<Option<string>>)
    requires r.Valid()
    modifies r
    ensures r.Valid() && res == ReadStringSpec(r.events, old(r.pos))
    ensures res.Done? ==> r.pos == res.next
  {
    var e := r.ReadEvent();
    match e {
      case Error(_) => res := Panic;
      case Text(t) => res := Done(Some(BytesToString(t)), r.pos);
      case _ => res := Done(None, r.pos);
    }
  }

  method ReadString(r: Reader) returns (res: Parse<Option<string>>)
    requires r.Valid()
    modifies r
    ensures r.Valid() && res == ReadStringSpec(r.events, old(r.pos))
    ensures res.Done? ==> r.pos == res.next
  {
    var e := r.ReadEvent();
    match e {
      case Error(_) => res := Panic;
      case Text(t) => res := Done(Some(BytesToString(t)), r.pos);
      case _ => res := Done(None, r.pos);
    }
  }

  // ----------------------------------------------------------------------
  // Unchecked text lists
  // ----------------------------------------------------------------------

  /** The text a list reader keeps from a text event: escaped and trimmed. */
  function CleanText(t: seq<byte>): (s: string)
    ensures IsPrintableText(s) && IsAscii(s)
  {
    TrimPrintable(BytesToString(t));
    Trim(BytesToString(t))
  }

  /** Does the event contribute an item to a text list? */
  predicate Kept(e: Event)
  {
    e.Text? && IsAlphanum(CleanText(e.content))
  }

  /** Reference definition: the kept texts of a stretch of events, in document order. */
  function KeptTexts(es: seq<Event>): (r: seq<string>)
    ensures |r| <= |es|
    ensures forall i :: 0 <= i < |r| ==> IsAscii(r[i])
  {
    if es == [] then []
    else
      var rest := KeptTexts(es[1..]);
      if Kept(es[0]) then [CleanText(es[0].content)] + rest else rest
  }

  /** Where a list reader leaves its loop: the first End named `end`, or the first reader error. */
  function FirstStop(ev: seq<Event>, pos: nat, end: string): (k: Option<nat>)
    requires pos <= |ev|
    ensures k.Some? ==> pos <= k.value < |ev| && (ev[k.value] == End(end) || ev[k.value].Error?)
    ensures k.Some? ==> forall j :: pos <= j < k.value ==> ev[j] != End(end) && !ev[j].Error?
    ensures k.None? ==> forall j :: pos <= j < |ev| ==> ev[j] != End(end) && !ev[j].Error?
    decreases |ev| - pos
  {
    if pos == |ev| then None
    else if ev[pos] == End(end) || ev[pos].Error? then Some(pos)
    else FirstStop(ev, pos + 1, end)
  }

  /**
   * The loop of `read_vec_str_unchecked` from cursor `pos`, with `items`
   * collected so far. It does not look for Eof: at the end of the events it
   * would read Eof for ever.
   */
  function VecStrLoop(ev: seq<Event>, pos: nat, end: string, items: seq<string>): (p: Parse<seq<string>>)
    requires pos <= |ev|
    ensures Advances(ev, pos, p)
    ensures p.Done? ==> items <= p.value
    ensures p.Done? && (forall i :: 0 <= i < |items| ==> IsAscii(items[i])) ==>
      forall i :: 0 <= i < |p.value| ==> IsAscii(p.value[i])
    decreases |ev| - pos
  {
    if pos == |ev| then Hang
    else if ev[pos].Error? then Panic
    else if ev[pos] == End(end) then Done(items, pos + 1)
    else VecStrLoop(ev, pos + 1, end, items + KeptHead(ev[pos]))
  }

  /** The text an event contributes to a list, if any. */
  function KeptHead(e: Event): seq<string>
  {
    if Kept(e) then [CleanText(e.content)] else []
  }

  lemma KeptTextsCons(ev: seq<Event>, pos: nat, k: nat)
    requires pos < k <= |ev|
    ensures KeptTexts(ev[pos..k]) == KeptHead(ev[pos]) + KeptTexts(ev[pos + 1..k])
  {
    assert ev[pos..k][0] == ev[pos];
    assert ev[pos..k][1..] == ev[pos + 1..k];
  }

  /** A step over an event that does not stop the loop. */
  lemma VecStrSkip(ev: seq<Event>, pos: nat, end: string, items: seq<string>)
    requires pos < |ev| && ev[pos] != End(end) && !ev[pos].Error?
    ensures VecStrLoop(ev, pos, end, items) == VecStrLoop(ev, pos + 1, end, items + KeptHead(ev[pos]))
    ensures FirstStop(ev, pos, end) == FirstStop(ev, pos + 1, end)
  {
    assert items + [] == items;
  }

  /** Reference definition of the list loop's outcome, from `FirstStop` and `KeptTexts`. */
  function VecStrRef(ev: seq<Event>, pos: nat, end: string, items: seq<string>): Parse<seq<string>>
    requires pos <= |ev|
  {
    match FirstStop(ev, pos, end)
    case None => Hang
    case Some(k) => if ev[k].Error? then Panic else Done(items + KeptTexts(ev[pos..k]), k + 1)
  }

  lemma VecStrRefSkip(ev: seq<Event>, pos: nat, end: string, items: seq<string>)
    requires pos < |ev| && ev[pos] != End(end) && !ev[pos].Error?
    ensures VecStrRef(ev, pos, end, items) == VecStrRef(ev, pos + 1, end, items + KeptHead(ev[pos]))
  {
    VecStrSkip(ev, pos, end, items);
    match FirstStop(ev, pos + 1, end)
    case None =>
    case Some(k) =>
      KeptTextsCons(ev, pos, k);
      ConcatAssoc(items, KeptHead(ev[pos]), KeptTexts(ev[pos + 1..k]));
  }

  /** The list loop agrees with its reference definition from any cursor and any collected prefix. */
  lemma {:induction false} VecStrLoopSpec(ev: seq<Event>, pos: nat, end: string, items: seq<string>)
    requires pos <= |ev|
    ensures VecStrLoop(ev, pos, end, items) == VecStrRef(ev, pos, end, items)
    decreases |ev| - pos
  {
    if pos < |ev| && ev[pos] != End(end) && !ev[pos].Error? {
      VecStrSkip(ev, pos, end, items);
      VecStrRefSkip(ev, pos, end, items);
      VecStrLoopSpec(ev, pos + 1, end, items + KeptHead(ev[pos]));
    } else if pos < |ev| && ev[pos] == End(end) {
      assert ev[pos..pos] == [];
      assert items + [] == items;
    }
  }

  /**
   * `read_vec_str_unchecked` returns, in document order, the kept texts
   * before the first End named `end`; End tags with other names do not stop
   * it, a reader error panics, and without the End it never returns.
   */
  lemma VecStrResult(ev: seq<Event>, pos: nat, end: string)
    requires pos <= |ev|
    ensures VecStrLoop(ev, pos, end, []) ==
      match FirstStop(ev, pos, end)
      case None => Hang
      case Some(k) => if ev[k].Error? then Panic else Done(KeptTexts(ev[pos..k]), k + 1)
  {
    VecStrLoopSpec(ev, pos, end, []);
    match FirstStop(ev, pos, end)
    case None =>
    case Some(k) => assert [] + KeptTexts(ev[pos..k]) == KeptTexts(ev[pos..k]);
  }

  method ReadVecStrUnchecked(r: Reader, end: string) returns (res: Parse<seq<string>>)
    requires r.Valid()
    modifies r
    ensures r.Valid() && res == VecStrLoop(r.events, old(r.pos), end, [])
    ensures res.Done? ==> r.pos == res.next
  {
    var items: seq<string> := [];
    while true
      invariant r.Valid()
      invariant VecStrLoop(r.events, r.pos, end, items) == VecStrLoop(r.events, old(r.pos), end, [])
      decreases |r.events| - r.pos
    {
      if r.pos == |r.events| {
        return Hang;
      }
      ghost var p, before := r.pos, items;
      var e := r.ReadEvent();
      match e {
        case Error(_) => return Panic;
        case Text(t) =>
          var s := CleanText(t);
          if IsAlphanum(s) {
            items := items + [s];
          }
        case End(n) =>
          if n == end {
            return Done(items, r.pos);
          }
        case _ =>
      }
      VecStrSkip(r.events, p, end, before);
      assert before + [] == before;
    }
  }

  /** Each text converted with `bytes_to_int`; the first one that does not convert panics. */
  function ParseAll(texts: seq<string>, lo: int, hi: int): (r: Outcome<seq<int>>)
    requires forall i :: 0 <= i < |texts| ==> IsAscii(texts[i])
    ensures r.Returns? <==> forall i :: 0 <= i < |texts| ==> Atoi(AsciiBytes(texts[i]), lo, hi).Some?
    ensures r.Returns? ==> (|r.value| == |texts|
                           && forall i :: 0 <= i < |texts| ==> r.value[i] == Atoi(AsciiBytes(texts[i]), lo, hi).value)
  {
    if texts == [] then Returns([])
    else
      match BytesToInt(AsciiBytes(texts[0]), lo, hi)
      case Panics => Panics
      case Returns(v) =>
        match ParseAll(texts[1..], lo, hi)
        case Panics => Panics
        case Returns(vs) => Returns([v] + vs)
  }

  /** The loop of `read_vec_int_unchecked`: the same texts as the string version, converted. */
  function VecIntLoop(ev: seq<Event>, pos: nat, end: string, lo: int, hi: int, nums: seq<int>): (p: Parse<seq<int>>)
    requires pos <= |ev|
    ensures Advances(ev, pos, p)
    decreases |ev| - pos
  {
    if pos == |ev| then Hang
    else
      match ev[pos]
      case Error(_) => Panic
      case Text(t) =>
        var s := CleanText(t);
        if IsAlphanum(s) then
          match BytesToInt(AsciiBytes(s), lo, hi)
          case Panics => Panic
          case Returns(v) => VecIntLoop(ev, pos + 1, end, lo, hi, nums + [v])
        else VecIntLoop(ev, pos + 1, end, lo, hi, nums)
      case End(n) => if n == end then Done(nums, pos + 1) else VecIntLoop(ev, pos + 1, end, lo, hi, nums)
      case _ => VecIntLoop(ev, pos + 1, end, lo, hi, nums)
  }

  /** Every member of `s` lies within `lo..=hi`. */
  predicate InRange(s: seq<int>, lo: int, hi: int)
  {
    forall i :: 0 <= i < |s| ==> lo <= s[i] <= hi
  }

  /** Every integer the list loop returns lies in the target range. */
  lemma {:induction false} VecIntLoopInRange(ev: seq<Event>, pos: nat, end: string, lo: int, hi: int, nums: seq<int>)
    requires pos <= |ev|
    requires InRange(nums, lo, hi)
    ensures var p := VecIntLoop(ev, pos, end, lo, hi, nums); p.Done? ==> InRange(p.value, lo, hi)
    decreases |ev| - pos
  {
    if pos < |ev| && ev[pos] != End(end) && !ev[pos].Error? {
      var e := ev[pos];
      VecIntSkip(ev, pos, end, lo, hi, nums);
      if Kept(e) {
        match BytesToInt(AsciiBytes(CleanText(e.content)), lo, hi)
        case Panics =>
        case Returns(v) =>
          assert InRange(nums + [v], lo, hi);
          VecIntLoopInRange(ev, pos + 1, end, lo, hi, nums + [v]);
      } else {
        VecIntLoopInRange(ev, pos + 1, end, lo, hi, nums);
      }
    }
  }

  /** `ParseAll` of a list with one more text: the old conversions, then the new one. */
  lemma {:induction false} ParseAllSnoc(texts: seq<string>, t: string, lo: int, hi: int)
    requires forall i :: 0 <= i < |texts| ==> IsAscii(texts[i])
    requires IsAscii(t)
    ensures forall i :: 0 <= i < |texts + [t]| ==> IsAscii((texts + [t])[i])
    ensures ParseAll(texts + [t], lo, hi) ==
      match ParseAll(texts, lo, hi)
      case Panics => Panics
      case Returns(vs) =>
        (match BytesToInt(AsciiBytes(t), lo, hi)
         case Panics => Panics
         case Returns(v) => Returns(vs + [v]))
  {
    var all := texts + [t];
    assert forall i :: 0 <= i < |all| ==> IsAscii(all[i]);
    if texts != [] {
      assert all[1..] == texts[1..] + [t];
      ParseAllSnoc(texts[1..], t, lo, hi);
      match ParseAll(texts[1..], lo, hi)
      case Panics =>
      case Returns(ws) =>
        match BytesToInt(AsciiBytes(texts[0]), lo, hi)
        case Panics =>
        case Returns(w) =>
          match BytesToInt(AsciiBytes(t), lo, hi)
          case Panics =>
          case Returns(v) => ConcatAssoc([w], ws, [v]);
    } else {
      assert all == [t];
      assert all[1..] == [];
      match BytesToInt(AsciiBytes(t), lo, hi)
      case Panics =>
      case Returns(v) => assert [] + [v] == [v] + [] == [v];
    }
  }

  /** Once a prefix fails to convert, so does every extension of it. */
  lemma {:induction false} ParseAllPrefixPanics(texts: seq<string>, more: seq<string>, lo: int, hi: int)
    requires forall i :: 0 <= i < |texts + more| ==> IsAscii((texts + more)[i])
    requires forall i :: 0 <= i < |texts| ==> IsAscii(texts[i])
    requires ParseAll(texts, lo, hi) == Panics
    ensures ParseAll(texts + more, lo, hi) == Panics
  {
    var all := texts + more;
    assert all[0] == texts[0];
    if BytesToInt(AsciiBytes(texts[0]), lo, hi).Returns? {
      assert all[1..] == texts[1..] + more;
      ParseAllPrefixPanics(texts[1..], more, lo, hi);
    }
  }

  /**
   * How the outcome of the integer list reader follows from that of the
   * string list reader: the same panic, no result where the string version
   * has none, and the conversions of the returned texts.
   */
  predicate Tracks(strs: Parse<seq<string>>, nums: Parse<seq<int>>, lo: int, hi: int)
  {
    match strs
    case Panic => nums == Panic
    case Hang => !nums.Done?
    case Done(ss, n) =>
      (forall i :: 0 <= i < |ss| ==> IsAscii(ss[i]))
      && nums == match ParseAll(ss, lo, hi)
                 case Panics => Panic
                 case Returns(vs) => Done(vs, n)
  }

  /** A step of the integer list loop over an event that does not stop it. */
  lemma VecIntSkip(ev: seq<Event>, pos: nat, end: string, lo: int, hi: int, nums: seq<int>)
    requires pos < |ev| && ev[pos] != End(end) && !ev[pos].Error?
    ensures VecIntLoop(ev, pos, end, lo, hi, nums) ==
      if Kept(ev[pos]) then
        match BytesToInt(AsciiBytes(CleanText(ev[pos].content)), lo, hi)
        case Panics => Panic
        case Returns(v) => VecIntLoop(ev, pos + 1, end, lo, hi, nums + [v])
      else VecIntLoop(ev, pos + 1, end, lo, hi, nums)
  {
  }

  /** Once a kept text fails to convert, the integer reader's panic matches any string outcome. */
  lemma BadTextTracks(ev: seq<Event>, pos: nat, end: string, lo: int, hi: int, items: seq<string>)
    requires pos <= |ev|
    requires forall i :: 0 <= i < |items| ==> IsAscii(items[i])
    requires ParseAll(items, lo, hi) == Panics
    ensures Tracks(VecStrLoop(ev, pos, end, items), Panic, lo, hi)
  {
    var str := VecStrLoop(ev, pos, end, items);
    if str.Done? {
      var rest := str.value[|items|..];
      assert str.value == items + rest;
      ParseAllPrefixPanics(items, rest, lo, hi);
    }
  }

  /**
   * `read_vec_int_unchecked` converts exactly the texts that
   * `read_vec_str_unchecked` keeps, from any point of their common loop.
   */
  lemma {:induction false} VecIntTracksVecStr(ev: seq<Event>, pos: nat, end: string, lo: int, hi: int,
                                              items: seq<string>, nums: seq<int>)
    requires pos <= |ev|
    requires forall i :: 0 <= i < |items| ==> IsAscii(items[i])
    requires ParseAll(items, lo, hi) == Returns(nums)
    ensures Tracks(VecStrLoop(ev, pos, end, items), VecIntLoop(ev, pos, end, lo, hi, nums), lo, hi)
    decreases |ev| - pos
  {
    if pos < |ev| && ev[pos] != End(end) && !ev[pos].Error? {
      var e := ev[pos];
      VecStrSkip(ev, pos, end, items);
      VecIntSkip(ev, pos, end, lo, hi, nums);
      if Kept(e) {
        var s := CleanText(e.content);
        ParseAllSnoc(items, s, lo, hi);
        match BytesToInt(AsciiBytes(s), lo, hi)
        case Panics =>
          BadTextTracks(ev, pos + 1, end, lo, hi, items + [s]);
        case Returns(v) =>
          VecIntTracksVecStr(ev, pos + 1, end, lo, hi, items + [s], nums + [v]);
      } else {
        assert items + KeptHead(e) == items;
        VecIntTracksVecStr(ev, pos + 1, end, lo, hi, items, nums);
      }
    }
  }

  /** The two list readers called from the same cursor. */
  lemma VecIntMatchesVecStr(ev: seq<Event>, pos: nat, end: string, lo: int, hi: int)
    requires pos <= |ev|
    ensures Tracks(VecStrLoop(ev, pos, end, []), VecIntLoop(ev, pos, end, lo, hi, []), lo, hi)
  {
    VecIntTracksVecStr(ev, pos, end, lo, hi, [], []);
  }

  method ReadVecIntUnchecked(r: Reader, end: string, lo: int, hi: int) returns (res: Parse<seq<int>>)
    requires r.Valid()
    modifies r
    ensures r.Valid() && res == VecIntLoop(r.events, old(r.pos), end, lo, hi, [])
    ensures res.Done? ==> r.pos == res.next
  {
    var nums: seq<int> := [];
    while true
      invariant r.Valid()
      invariant VecIntLoop(r.events, r.pos, end, lo, hi, nums) == VecIntLoop(r.events, old(r.pos), end, lo, hi, [])
      decreases |r.events| - r.pos
    {
      if r.pos == |r.events| {
        return Hang;
      }
      var e := r.ReadEvent();
      match e {
        case Error(_) => return Panic;
        case Text(t) =>
          var s := CleanText(t);
          if IsAlphanum(s) {
            var v := BytesToInt(AsciiBytes(s), lo, hi);
            if v.Panics? {
              return Panic;
            }
            nums := nums + [v.value];
          }
        case End(n) =>
          if n == end {
            return Done(nums, r.pos);
          }
        case _ =>
      }
    }
  }

  /**
   * A consequence of `NewlineTextIsKept`: a list of integers with a bare
   * newline text before its closing tag panics instead of returning.
   */
  lemma NewlineInIntListPanics(end: string, lo: int, hi: int)
    ensures VecIntLoop([Text([0x0a]), End(end)], 0, end, lo, hi, []) == Panic
  {
    NewlineTextIsKept();
    var s := CleanText([0x0a]);
    assert AsciiBytes(s)[0] == 0x5c;
  }

  /**
   * `check_unexpected`: one warning for every entry of `forbidden` named
   * `current`, then a panic when there was none, as the watchdog's `check`
   * does with its stored list (an empty list always panics).
   */
  method CheckUnexpected(current: string, forbidden: seq<string>) returns (warnings: nat, res: Outcome<()>)
    ensures warnings == multiset(forbidden)[current]
    ensures res == Panics <==> current !in forbidden
    ensures res != Panics ==> res == Returns(())
    ensures forbidden == [] ==> res == Panics
  {
    var watchdog := UnexpectedTags(forbidden);
    warnings, res := watchdog.Check(current);
  }
}
