/**
 * The search summary of `src/eutils/esearchresult.rs`: the hit count, the
 * paging values and the list of matching identifiers that an ESearch
 * request returns, with its event reader.
 */
module ESearchResults {
  import opened Wrappers
  import opened Bytes
  import opened Xml
  import opened ParsingUtils

  /** `ESearchResult`; every number is a `u64`. */
  datatype ESearchResult = ESearchResult(count: nat, retMax: nat, retStart: nat, idList: seq<nat>)

  /** The derived `Default`: zero counts and no identifiers. */
  const DefaultESearchResult := ESearchResult(0, 0, 0, [])

  const ESEARCH_RESULT := "eSearchResult"

  /** The four members the reader fills. */
  datatype Member = Count | RetMax | RetStart | IdList

  function MemberName(m: Member): (s: string)
  {
    match m
    case Count => "Count"
    case RetMax => "RetMax"
    case RetStart => "RetStart"
    case IdList => "IdList"
  }

  /** The member a Start tag names, if any; other tags are ignored by the reader. */
  function MemberOf(n: string): (m: Option<Member>)
    ensures m.Some? ==> MemberName(m.value) == n
    ensures m.None? ==> forall x: Member :: MemberName(x) != n
  {
    if n == "Count" then Some(Count)
    else if n == "RetMax" then Some(RetMax)
    else if n == "RetStart" then Some(RetStart)
    else if n == "IdList" then Some(IdList)
    else None
  }

  /** Do `a` and `b` hold the same value for member `m`? */
  predicate SameMember(a: ESearchResult, b: ESearchResult, m: Member)
  {
    match m
    case Count => a.count == b.count
    case RetMax => a.retMax == b.retMax
    case RetStart => a.retStart == b.retStart
    case IdList => a.idList == b.idList
  }

  /** `read_int::<u64>(reader).unwrap()`: a text that is not a number panics, so does a non-text event. */
  function ReadU64Member(ev: seq<Event>, pos: nat): (p: Parse<nat>)
    requires pos <= |ev|
    ensures p != Hang
    ensures p.Done? ==>
      p.next == pos + 1 && pos < |ev| && ev[pos].Text? && Atoi(ev[pos].content, 0, U64_MAX) == Some(p.value)
  {
    match ReadIntSpec(ev, pos, 0, U64_MAX)
    case Done(Some(v), q) => Done(v, q)
    case Done(None, _) => Panic
    case Panic => Panic
  }

  /**
   * One member read from just after its Start tag, stored into `acc`; a
   * later occurrence of the same tag overwrites the earlier value.
   */
  function MemberFromEvents(ev: seq<Event>, pos: nat, m: Member, acc: ESearchResult): (p: Parse<ESearchResult>)
    requires pos <= |ev|
    ensures Advances(ev, pos, p)
    ensures p.Done? ==> pos < p.next
    ensures p.Done? ==> forall x :: x != m ==> SameMember(p.value, acc, x)
  {
    match m
    case IdList =>
      VecIntLoopInRange(ev, pos, MemberName(IdList), 0, U64_MAX, []);
      (match VecIntLoop(ev, pos, MemberName(IdList), 0, U64_MAX, [])
       case Done(l, q) => Done(acc.(idList := l), q)
       case Panic => Panic
       case Hang => Hang)
    case _ =>
      match ReadU64Member(ev, pos)
      case Done(v, q) =>
        Done(match m
             case Count => acc.(count := v)
             case RetMax => acc.(retMax := v)
             case RetStart => acc.(retStart := v), q)
      case Panic => Panic
  }

  /**
   * The loop of `ESearchResult::from_reader` with the record built so far.
   * Unknown tags are skipped; End `eSearchResult` returns the record. It
   * does not look for Eof.
   */
  function ESearchResultLoop(ev: seq<Event>, pos: nat, acc: ESearchResult): (p: Parse<ESearchResult>)
    requires pos <= |ev|
    ensures Advances(ev, pos, p)
    ensures p.Done? ==> pos < p.next && ev[p.next - 1] == End(ESEARCH_RESULT)
    decreases |ev| - pos
  {
    if pos == |ev| then Hang
    else
      match ev[pos]
      case Error(_) => Panic
      case Start(n, _) =>
        (match MemberOf(n)
         case None => ESearchResultLoop(ev, pos + 1, acc)
         case Some(m) =>
           match MemberFromEvents(ev, pos + 1, m, acc)
           case Done(acc', q) => ESearchResultLoop(ev, q, acc')
           case Panic => Panic
           case Hang => Hang)
      case End(n) => if n == ESEARCH_RESULT then Done(acc, pos + 1) else ESearchResultLoop(ev, pos + 1, acc)
      case _ => ESearchResultLoop(ev, pos + 1, acc)
  }

  /** Does a Start tag naming member `m` occur in `ev[lo..hi]`? */
  predicate StartsMember(ev: seq<Event>, lo: nat, hi: nat, m: Member)
    requires lo <= hi <= |ev|
  {
    exists i :: lo <= i < hi && ev[i].Start? && ev[i].name == MemberName(m)
  }

  /**
   * A member whose tag never opens between the cursor and the point where
   * the reader returns keeps the value it had (for a fresh record, its
   * `Default`).
   */
  lemma {:induction false} UntouchedMemberKept(ev: seq<Event>, pos: nat, acc: ESearchResult, m: Member)
    requires pos <= |ev|
    ensures var p := ESearchResultLoop(ev, pos, acc);
      p.Done? && !StartsMember(ev, pos, p.next, m) ==> SameMember(p.value, acc, m)
    decreases |ev| - pos
  {
    var p := ESearchResultLoop(ev, pos, acc);
    if pos < |ev| && p.Done? && !StartsMember(ev, pos, p.next, m) {
      var e := ev[pos];
      if e.Start? && MemberOf(e.name).Some? {
        var m' := MemberOf(e.name).value;
        var c := MemberFromEvents(ev, pos + 1, m', acc);
        assert c.Done?;
        assert m' != m by {
          assert e.Start? && e.name == MemberName(m');
        }
        UntouchedMemberKept(ev, c.next, c.value, m);
        NoStartInSuffix(ev, pos, c.next, p.next, m);
      } else if e != End(ESEARCH_RESULT) {
        UntouchedMemberKept(ev, pos + 1, acc, m);
        NoStartInSuffix(ev, pos, pos + 1, p.next, m);
      }
    }
  }

  lemma NoStartInSuffix(ev: seq<Event>, lo: nat, mid: nat, hi: nat, m: Member)
    requires lo <= mid <= hi <= |ev|
    requires !StartsMember(ev, lo, hi, m)
    ensures !StartsMember(ev, mid, hi, m)
  {
  }

  /**
   * A result document without any of the four member tags reads as the
   * `Default` record: counts 0 and an empty identifier list.
   */
  lemma NoMembersGiveDefault(ev: seq<Event>, pos: nat)
    requires pos <= |ev|
    ensures var p := ESearchResultLoop(ev, pos, DefaultESearchResult);
      p.Done? && (forall m :: !StartsMember(ev, pos, p.next, m)) ==> p.value == DefaultESearchResult
  {
    UntouchedMemberKept(ev, pos, DefaultESearchResult, Count);
    UntouchedMemberKept(ev, pos, DefaultESearchResult, RetMax);
    UntouchedMemberKept(ev, pos, DefaultESearchResult, RetStart);
    UntouchedMemberKept(ev, pos, DefaultESearchResult, IdList);
  }

  /** `ESearchResult::from_reader`. */
  method ESearchResultFromReader(r: Reader) returns (res: Parse<ESearchResult>)
    requires r.Valid()
    modifies r
    ensures r.Valid() && res == ESearchResultLoop(r.events, old(r.pos), DefaultESearchResult)
    ensures res.Done? ==> r.pos == res.next
  {
    var result := DefaultESearchResult;
    while true
      invariant r.Valid()
      invariant ESearchResultLoop(r.events, r.pos, result) == ESearchResultLoop(r.events, old(r.pos), DefaultESearchResult)
      decreases |r.events| - r.pos
    {
      if r.pos == |r.events| {
        return Hang;
      }
      var e := r.ReadEvent();
      match e {
        case Error(_) => return Panic;
        case Start(n, _) =>
          if n == "Count" || n == "RetMax" || n == "RetStart" {
            var v := ReadInt(r, 0, U64_MAX);
            match v {
              case Done(Some(x), _) =>
                if n == "Count" {
                  result := result.(count := x);
                } else if n == "RetMax" {
                  result := result.(retMax := x);
                } else {
                  result := result.(retStart := x);
                }
              case Done(None, _) => return Panic;
              case Panic => return Panic;
              case Hang => return Hang;
            }
          } else if n == "IdList" {
            ghost var listStart := r.pos;
            var l := ReadVecIntUnchecked(r, "IdList", 0, U64_MAX);
            VecIntLoopInRange(r.events, listStart, "IdList", 0, U64_MAX, []);
            match l {
              case Done(ids, _) => result := result.(idList := ids);
              case Panic => return Panic;
              case Hang => return Hang;
            }
          }
        case End(n) =>
          if n == ESEARCH_RESULT {
            return Done(result, r.pos);
          }
        case _ =>
      }
    }
  }

  // ----------------------------------------------------------------------
  // The test read_from_xml: count 2, ret_start 0, ret_max 2, ids [11294, 1387]
  // ----------------------------------------------------------------------

  /** A text event holding the decimal numeral of `v`. */
  function NumText(v: nat): Event
  {
    DecimalValueOfString(v);
    Text(AsciiBytes(NatToString(v)))
  }

  /** What the readers need of a number's text event: both integer readers return `v`. */
  predicate NumeralEvent(e: Event, v: nat)
  {
    e.Text? && BytesToInt(e.content, 0, U64_MAX) == Returns(v)
    && Kept(e) && BytesToInt(AsciiBytes(CleanText(e.content)), 0, U64_MAX) == Returns(v)
  }

  /** Trimming and escaping leave a numeral as it is. */
  lemma NumeralClean(v: nat)
    ensures CleanText(NumText(v).content) == NatToString(v)
  {
    var s := NatToString(v);
    DigitsClean(s);
  }

  lemma DigitsClean(s: string)
    requires |s| >= 1 && forall i :: 0 <= i < |s| ==> '0' <= s[i] <= '9'
    ensures CleanText(AsciiBytes(s)) == s
  {
    assert IsPlainText(s);
    PlainTextRoundTrip(s);
    assert BytesToString(AsciiBytes(s)) == s;
    assert TrimStart(s) == s by { assert !IsWhitespace(s[0]); }
    assert TrimEnd(s) == s by { assert !IsWhitespace(s[|s| - 1]); }
  }

  /** A numeral text is kept by the list reader and converts back to its value. */
  lemma NumeralText(v: nat)
    requires v <= U64_MAX
    ensures NumeralEvent(NumText(v), v)
  {
    NumeralClean(v);
    BytesToIntOfDecimal(v, 0, U64_MAX);
    assert IsAlphanum(NatToString(v));
  }

  /** A number member followed by its numeral text stores that number. */
  lemma NumberMemberStep(ev: seq<Event>, pos: nat, a: seq<Attribute>, m: Member, v: nat, acc: ESearchResult)
    requires pos + 1 < |ev| && m != IdList
    requires ev[pos] == Start(MemberName(m), a) && NumeralEvent(ev[pos + 1], v)
    ensures ESearchResultLoop(ev, pos, acc) == ESearchResultLoop(ev, pos + 2,
      match m
      case Count => acc.(count := v)
      case RetMax => acc.(retMax := v)
      case RetStart => acc.(retStart := v)
      case IdList => acc)
  {
    assert At(ev, pos + 1) == ev[pos + 1];
    assert ReadIntSpec(ev, pos + 1, 0, U64_MAX) == Done(Some(v), pos + 2);
    assert ReadU64Member(ev, pos + 1) == Done(v, pos + 2);
    assert MemberOf(MemberName(m)) == Some(m);
  }

  /** An event that neither opens a member nor closes the record is stepped over. */
  lemma SkipStep(ev: seq<Event>, pos: nat, acc: ESearchResult)
    requires pos < |ev| && !ev[pos].Error? && ev[pos] != End(ESEARCH_RESULT)
    requires ev[pos].Start? ==> MemberOf(ev[pos].name).None?
    ensures ESearchResultLoop(ev, pos, acc) == ESearchResultLoop(ev, pos + 1, acc)
  {
  }

  /** `<Id>v</Id>` inside the identifier list appends `v`. */
  lemma IdItemStep(ev: seq<Event>, pos: nat, v: nat, nums: seq<int>)
    requires pos + 2 < |ev|
    requires ev[pos] == Start("Id", []) && NumeralEvent(ev[pos + 1], v) && ev[pos + 2] == End("Id")
    ensures VecIntLoop(ev, pos, "IdList", 0, U64_MAX, nums) == VecIntLoop(ev, pos + 3, "IdList", 0, U64_MAX, nums + [v])
  {
    VecIntSkip(ev, pos, "IdList", 0, U64_MAX, nums);
    VecIntSkip(ev, pos + 1, "IdList", 0, U64_MAX, nums);
    VecIntSkip(ev, pos + 2, "IdList", 0, U64_MAX, nums + [v]);
  }

  lemma IdListEnd(ev: seq<Event>, pos: nat, nums: seq<int>)
    requires pos < |ev| && ev[pos] == End("IdList")
    ensures VecIntLoop(ev, pos, "IdList", 0, U64_MAX, nums) == Done(nums, pos + 1)
  {
  }

  /** `<Id>a</Id><Id>b</Id></IdList>` from `pos`. */
  predicate TwoIdsAt(ev: seq<Event>, pos: nat, a: nat, b: nat)
  {
    pos + 6 < |ev|
    && ev[pos] == Start("Id", []) && NumeralEvent(ev[pos + 1], a) && ev[pos + 2] == End("Id")
    && ev[pos + 3] == Start("Id", []) && NumeralEvent(ev[pos + 4], b) && ev[pos + 5] == End("Id")
    && ev[pos + 6] == End("IdList")
  }

  /** An identifier list holding two numerals. */
  lemma TwoIds(ev: seq<Event>, pos: nat, a: nat, b: nat)
    requires TwoIdsAt(ev, pos, a, b)
    ensures VecIntLoop(ev, pos, "IdList", 0, U64_MAX, []) == Done([a, b], pos + 7)
  {
    IdItemStep(ev, pos, a, []);
    assert [] + [a] == [a];
    LastId(ev, pos + 3, b, [a]);
    assert [a] + [b] == [a, b];
  }

  /** `<Id>v</Id></IdList>` from `pos` appends `v` and ends the list. */
  lemma LastId(ev: seq<Event>, pos: nat, v: nat, nums: seq<int>)
    requires pos + 3 < |ev|
    requires ev[pos] == Start("Id", []) && NumeralEvent(ev[pos + 1], v) && ev[pos + 2] == End("Id")
    requires ev[pos + 3] == End("IdList")
    ensures VecIntLoop(ev, pos, "IdList", 0, U64_MAX, nums) == Done(nums + [v], pos + 4)
  {
    IdItemStep(ev, pos, v, nums);
    IdListEnd(ev, pos + 3, nums + [v]);
  }

  /** `<Count>c</Count><RetMax>mx</RetMax><RetStart>st</RetStart>` from `pos`. */
  predicate NumbersAt(ev: seq<Event>, pos: nat, c: nat, mx: nat, st: nat)
  {
    pos + 8 < |ev|
    && ev[pos] == Start("Count", []) && NumeralEvent(ev[pos + 1], c) && ev[pos + 2] == End("Count")
    && ev[pos + 3] == Start("RetMax", []) && NumeralEvent(ev[pos + 4], mx) && ev[pos + 5] == End("RetMax")
    && ev[pos + 6] == Start("RetStart", []) && NumeralEvent(ev[pos + 7], st) && ev[pos + 8] == End("RetStart")
  }

  /** The three number members, in document order, each store their value. */
  lemma ThreeNumbers(ev: seq<Event>, pos: nat, c: nat, mx: nat, st: nat, acc: ESearchResult)
    requires NumbersAt(ev, pos, c, mx, st)
    ensures ESearchResultLoop(ev, pos, acc)
      == ESearchResultLoop(ev, pos + 9, acc.(count := c, retMax := mx, retStart := st))
  {
    var r1 := acc.(count := c);
    var r2 := r1.(retMax := mx);
    NumberMemberStep(ev, pos, [], Count, c, acc);
    SkipStep(ev, pos + 2, r1);
    NumberMemberStep(ev, pos + 3, [], RetMax, mx, r1);
    SkipStep(ev, pos + 5, r2);
    NumberMemberStep(ev, pos + 6, [], RetStart, st, r2);
    SkipStep(ev, pos + 8, r2.(retStart := st));
  }

  /** An IdList member holding two identifiers replaces the list with them. */
  lemma IdListMember(ev: seq<Event>, pos: nat, a: nat, b: nat, acc: ESearchResult)
    requires pos < |ev| && ev[pos] == Start("IdList", []) && TwoIdsAt(ev, pos + 1, a, b)
    ensures ESearchResultLoop(ev, pos, acc) == ESearchResultLoop(ev, pos + 8, acc.(idList := [a, b]))
  {
    TwoIds(ev, pos + 1, a, b);
    IdListStep(ev, pos, [], [a, b], pos + 8, acc);
  }

  lemma IdListTag()
    ensures MemberOf("IdList") == Some(IdList)
  {
  }

  /** An IdList member whose identifiers read as `l` replaces the list with `l`. */
  lemma IdListStep(ev: seq<Event>, pos: nat, a: seq<Attribute>, l: seq<nat>, q: nat, acc: ESearchResult)
    requires pos < |ev| && ev[pos] == Start("IdList", a)
    requires VecIntLoop(ev, pos + 1, "IdList", 0, U64_MAX, []) == Done(l, q)
    ensures ESearchResultLoop(ev, pos, acc) == ESearchResultLoop(ev, q, acc.(idList := l))
  {
    IdListTag();
    assert MemberFromEvents(ev, pos + 1, IdList, acc) == Done(acc.(idList := l), q);
  }

  /**
   * read_from_xml, for any values: the reader, started before
   * `<eSearchResult>` (an unknown tag it steps over), yields the count, the
   * paging values and the identifiers in document order.
   */
  lemma SampleDocument(ev: seq<Event>, c: nat, mx: nat, st: nat, a: nat, b: nat)
    requires 18 < |ev| && ev[0] == Start(ESEARCH_RESULT, [])
    requires NumbersAt(ev, 1, c, mx, st)
    requires ev[10] == Start("IdList", []) && TwoIdsAt(ev, 11, a, b)
    requires ev[18] == End(ESEARCH_RESULT)
    ensures ESearchResultLoop(ev, 0, DefaultESearchResult) == Done(ESearchResult(c, mx, st, [a, b]), 19)
  {
    var r3 := DefaultESearchResult.(count := c, retMax := mx, retStart := st);
    assert MemberOf(ESEARCH_RESULT).None?;
    SkipStep(ev, 0, DefaultESearchResult);
    ThreeNumbers(ev, 1, c, mx, st, DefaultESearchResult);
    IdListMember(ev, 10, a, b, r3);
    assert r3.(idList := [a, b]) == ESearchResult(c, mx, st, [a, b]);
  }

  /**
   * The events of a search result document, from its start, with the given
   * text events for the count, the paging values and two identifiers.
   */
  function SampleEvents(c: Event, mx: Event, st: Event, a: Event, b: Event): (ev: seq<Event>)
    ensures |ev| == 19
  {
    [ Start(ESEARCH_RESULT, []),
      Start("Count", []), c, End("Count"),
      Start("RetMax", []), mx, End("RetMax"),
      Start("RetStart", []), st, End("RetStart"),
      Start("IdList", []),
      Start("Id", []), a, End("Id"),
      Start("Id", []), b, End("Id"),
      End("IdList"),
      End(ESEARCH_RESULT) ]
  }

  lemma SampleShapeHead(c: Event, mx: Event, st: Event, a: Event, b: Event)
    ensures var ev := SampleEvents(c, mx, st, a, b);
      ev[0] == Start(ESEARCH_RESULT, []) && ev[1] == Start("Count", []) && ev[2] == c && ev[3] == End("Count")
  {
  }

  lemma SampleShapePaging(c: Event, mx: Event, st: Event, a: Event, b: Event)
    ensures var ev := SampleEvents(c, mx, st, a, b);
      ev[4] == Start("RetMax", []) && ev[5] == mx && ev[6] == End("RetMax")
      && ev[7] == Start("RetStart", []) && ev[8] == st && ev[9] == End("RetStart")
  {
  }

  lemma SampleShapeIds(c: Event, mx: Event, st: Event, a: Event, b: Event)
    ensures var ev := SampleEvents(c, mx, st, a, b);
      ev[10] == Start("IdList", []) && ev[11] == Start("Id", []) && ev[12] == a && ev[13] == End("Id")
  {
  }

  lemma SampleShapeTail(c: Event, mx: Event, st: Event, a: Event, b: Event)
    ensures var ev := SampleEvents(c, mx, st, a, b);
      ev[14] == Start("Id", []) && ev[15] == b && ev[16] == End("Id")
      && ev[17] == End("IdList") && ev[18] == End(ESEARCH_RESULT)
  {
  }

  /** The test's file: count 2, ret_max 2, ret_start 0, identifiers 11294 and 1387. */
  lemma TestFile()
    ensures ESearchResultLoop(SampleEvents(NumText(2), NumText(2), NumText(0), NumText(11294), NumText(1387)),
      0, DefaultESearchResult) == Done(ESearchResult(2, 2, 0, [11294, 1387]), 19)
  {
    var c, st, a, b := NumText(2), NumText(0), NumText(11294), NumText(1387);
    NumeralText(2);
    NumeralText(0);
    NumeralText(11294);
    NumeralText(1387);
    SampleShapeHead(c, c, st, a, b);
    SampleShapePaging(c, c, st, a, b);
    SampleShapeIds(c, c, st, a, b);
    SampleShapeTail(c, c, st, a, b);
    SampleDocument(SampleEvents(c, c, st, a, b), 2, 2, 0, 11294, 1387);
  }
}
