/**
 * General data elements of `src/asn/general.rs` (NCBI general.asn): dates,
 * object identifiers, database tags, fuzzy integers and user objects.
 */
module General {
  import opened Wrappers

  /** A 64-bit IEEE float, kept as its bit pattern: no arithmetic on it is modelled. */
  datatype F64 = F64(bits: bv64)

  /** `Date`: exactly one of a free-text date or a structured one. */
  datatype Date = Str(text: string) | Std(std: DateStd)

  /** `DateStd`; the year is a `u16`, the other numeric fields `u8`. */
  datatype DateStd = DateStd(
    year: int,
    month: Option<int>,
    day: Option<int>,
    season: Option<string>,
    hour: Option<int>,
    minute: Option<int>,
    second: Option<int>)

  /** An optional field that, when present, lies in `lo..=hi`. */
  predicate InRange(f: Option<int>, lo: int, hi: int)
  {
    f.Some? ==> lo <= f.value <= hi
  }

  /** The documented ranges: month 1-12, day 1-31, hour 0-23, minute and second 0-59. */
  predicate ValidDateStd(d: DateStd)
  {
    0 <= d.year < 0x1_0000
    && InRange(d.month, 1, 12) && InRange(d.day, 1, 31)
    && InRange(d.hour, 0, 23) && InRange(d.minute, 0, 59) && InRange(d.second, 0, 59)
  }

  predicate ValidDate(d: Date)
  {
    d.Std? ==> ValidDateStd(d.std)
  }

  /**
   * A structured date for a year alone is valid, and any field out of its
   * documented range makes a date invalid even though each field fits in a `u8`.
   */
  lemma DateStdRanges(year: int)
    requires 0 <= year < 0x1_0000
    ensures ValidDateStd(DateStd(year, None, None, None, None, None, None))
    ensures !ValidDateStd(DateStd(year, Some(13), None, None, None, None, None))
    ensures !ValidDateStd(DateStd(year, Some(0), None, None, None, None, None))
    ensures !ValidDateStd(DateStd(year, None, Some(32), None, None, None, None))
    ensures !ValidDateStd(DateStd(year, None, None, None, Some(24), None, None))
    ensures !ValidDateStd(DateStd(year, None, None, None, None, Some(60), None))
    ensures !ValidDateStd(DateStd(year, None, None, None, None, None, Some(60)))
  {
  }

  /** `ObjectId`: a `u64` number or a string. */
  datatype ObjectId = Id(id: int) | Str(str: string)

  /** `DbTag`: a database name paired with an identifier in it. */
  datatype DbTag = DbTag(db: string, tag: ObjectId)

  /** `NameStd`: a structured name; only the last name is mandatory. */
  datatype NameStd = NameStd(
    last: string,
    first: Option<string>,
    middle: Option<string>,
    full: Option<string>,
    initials: Option<string>,
    suffix: Option<string>,
    title: Option<string>)

  /** `PersonId`. */
  datatype PersonId =
    | DbTag(tag: DbTag)
    | Name(name: NameStd)
    | ML(ml: string)
    | Str(str: string)
    | Consortium(consortium: string)

  /** `Range`: both bounds are always present. */
  datatype Range = Range(max: int, min: int)

  /** `FuzzLimit`: the direction of an uncertain position; no `repr`, so the discriminants are `isize`. */
  datatype FuzzLimit = Unk | GT | LT | TR | TL | Circle | Other

  /** The discriminant each variant serialises as. */
  function FuzzLimitCode(x: FuzzLimit): (c: int)
    ensures -0x8000_0000_0000_0000 <= c < 0x8000_0000_0000_0000
    ensures 0 <= c <= 5 || c == 255
  {
    match x
    case Unk => 0
    case GT => 1
    case LT => 2
    case TR => 3
    case TL => 4
    case Circle => 5
    case Other => 255
  }

  /** The variant with discriminant `c`, if there is one. */
  function FuzzLimitFromCode(c: int): (r: Option<FuzzLimit>)
    ensures r.Some? <==> (0 <= c <= 5 || c == 255)
    ensures r.Some? ==> FuzzLimitCode(r.value) == c
  {
    if c == 0 then Some(FuzzLimit.Unk)
    else if c == 1 then Some(FuzzLimit.GT)
    else if c == 2 then Some(FuzzLimit.LT)
    else if c == 3 then Some(FuzzLimit.TR)
    else if c == 4 then Some(FuzzLimit.TL)
    else if c == 5 then Some(FuzzLimit.Circle)
    else if c == 255 then Some(FuzzLimit.Other)
    else None
  }

  /** Decoding the discriminant of a variant gives the variant back, so the codes are distinct. */
  lemma FuzzLimitRoundTrip(x: FuzzLimit)
    ensures FuzzLimitFromCode(FuzzLimitCode(x)) == Some(x)
  {
  }

  lemma FuzzLimitCodeInjective(x: FuzzLimit, y: FuzzLimit)
    ensures FuzzLimitCode(x) == FuzzLimitCode(y) ==> x == y
  {
    FuzzLimitRoundTrip(x);
    FuzzLimitRoundTrip(y);
  }

  /** `IntFuzz`: exactly five ways to state how uncertain an integer is. */
  datatype IntFuzz =
    | P_M(pm: int)
    | Range(range: Range)
    | Pct(pct: int)
    | Lim(lim: FuzzLimit)
    | Alt(alt: seq<int>)

  /** `UserObject`: a structured data item designed by some endeavour. */
  datatype UserObject = UserObject(objectClass: Option<string>, kind: ObjectId, data: seq<UserField>)

  /** `UserData`. */
  datatype UserData =
    | Str(str: string)
    | Int(i: int)
    | Real(r: F64)
    | Bool(b: bool)
    | Object(obj: UserObject)
    | Strs(strs: seq<string>)
    | Ints(ints: seq<int>)
    | Reals(reals: seq<F64>)
    | Fields(fields: seq<UserField>)
    | Objects(objects: seq<UserObject>)

  /** `UserField`: `num` is required for the list arms `Strs`, `Ints` and `Reals`. */
  datatype UserField = UserField(fieldLabel: ObjectId, num: Option<int>, data: UserData)

  predicate NeedsNum(d: UserData)
  {
    d.Strs? || d.Ints? || d.Reals?
  }

  /** A field and every field nested in it carry `num` where their data needs it. */
  predicate ValidUserField(f: UserField)
    decreases f, 1
  {
    (NeedsNum(f.data) ==> f.num.Some?) && ValidUserData(f.data)
  }

  predicate ValidUserData(d: UserData)
    decreases d, 0
  {
    match d
    case Object(o) => ValidUserObject(o)
    case Fields(fs) => forall i :: 0 <= i < |fs| ==> ValidUserField(fs[i])
    case Objects(os) => forall i :: 0 <= i < |os| ==> ValidUserObject(os[i])
    case _ => true
  }

  predicate ValidUserObject(o: UserObject)
    decreases o, 2
  {
    forall i :: 0 <= i < |o.data| ==> ValidUserField(o.data[i])
  }

  /**
   * A field holding a list of strings, integers or reals is invalid without
   * `num`, and valid with it.
   */
  lemma UserFieldNeedsNum(fieldLabel: ObjectId, d: UserData, n: int)
    requires d.Strs? || d.Ints? || d.Reals?
    ensures !ValidUserField(UserField(fieldLabel, None, d))
    ensures ValidUserField(UserField(fieldLabel, Some(n), d))
  {
  }
}
