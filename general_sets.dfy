/**
 * The general types of `src/general.rs`: the same schema as
 * `src/asn/general.rs` (module General), except that the alternatives of an
 * `IntFuzz` and the collections of user data are sets rather than lists.
 * The types without collections are those of module General.
 */
module GeneralSets {
  import opened Wrappers
  import opened Collections
  import G = General

  /** `IntFuzz` whose alternative values form a set. */
  datatype IntFuzz =
    | P_M(pm: int)
    | Range(range: G.Range)
    | Pct(pct: int)
    | Lim(lim: G.FuzzLimit)
    | Alt(alt: set<int>)

  /** `UserObject` holding a set of fields. */
  datatype UserObject = UserObject(objectClass: Option<string>, kind: G.ObjectId, data: set<UserField>)

  /** `UserData` whose list arms are sets. */
  datatype UserData =
    | Str(str: string)
    | Int(i: int)
    | Real(r: G.F64)
    | Bool(b: bool)
    | Object(obj: UserObject)
    | Strs(strs: set<string>)
    | Ints(ints: set<int>)
    | Reals(reals: set<G.F64>)
    | Fields(fields: set<UserField>)
    | Objects(objects: set<UserObject>)

  /** `UserField`: `num` is required for the arms `Strs`, `Ints` and `Reals`. */
  datatype UserField = UserField(fieldLabel: G.ObjectId, num: Option<int>, data: UserData)

  predicate NeedsNum(d: UserData)
  {
    d.Strs? || d.Ints? || d.Reals?
  }

  /** A field and every field nested in it carry `num` where their data needs it. */
  predicate ValidUserField(f: UserField)
    decreases f, 1
  {
    (NeedsNum(f.data) ==> f.num.Some?) && ValidUserData(f.data)
  }

  predicate ValidUserData(d: UserData)
    decreases d, 0
  {
    match d
    case Object(o) => ValidUserObject(o)
    case Fields(fs) => forall f :: f in fs ==> ValidUserField(f)
    case Objects(os) => forall o :: o in os ==> ValidUserObject(o)
    case _ => true
  }

  predicate ValidUserObject(o: UserObject)
    decreases o, 2
  {
    forall f :: f in o.data ==> ValidUserField(f)
  }

  /** The set-valued fuzz of a list-valued one: the alternatives keep exactly their members. */
  function IntFuzzOfList(z: G.IntFuzz): (r: IntFuzz)
    ensures r.Alt? <==> z.Alt?
    ensures z.Alt? ==> forall x :: x in r.alt <==> x in z.alt
    ensures z.P_M? ==> r == P_M(z.pm)
    ensures z.Range? ==> r == Range(z.range)
    ensures z.Pct? ==> r == Pct(z.pct)
    ensures z.Lim? ==> r == Lim(z.lim)
  {
    match z
    case P_M(pm) => P_M(pm)
    case Range(range) => Range(range)
    case Pct(pct) => Pct(pct)
    case Lim(lim) => Lim(lim)
    case Alt(alt) => Alt(SetOf(alt))
  }

  /** Alternatives listed in another order or with repeats make the same set-valued fuzz. */
  lemma AltIgnoresOrderAndRepeats(a: seq<int>, b: seq<int>)
    requires forall x :: x in a <==> x in b
    ensures IntFuzzOfList(G.Alt(a)) == IntFuzzOfList(G.Alt(b))
  {
    assert SetOf(a) == SetOf(b) by {
      forall x ensures x in SetOf(a) <==> x in SetOf(b) {
      }
    }
  }

  /** The set of alternatives is no larger than the list, and as large exactly without repeats. */
  lemma AltSize(a: seq<int>)
    ensures |IntFuzzOfList(G.Alt(a)).alt| <= |a|
    ensures |IntFuzzOfList(G.Alt(a)).alt| == |a| <==> NoDuplicates(a)
  {
    CardSetOf(a);
  }

  /** The set-valued form of a list-valued field. */
  function UserFieldOfList(f: G.UserField): (r: UserField)
    ensures r.fieldLabel == f.fieldLabel && r.num == f.num
    ensures NeedsNum(r.data) <==> G.NeedsNum(f.data)
    decreases f, 1
  {
    UserField(f.fieldLabel, f.num, UserDataOfList(f.data))
  }

  /** The set-valued form of list-valued data: every list becomes the set of its (converted) members. */
  function UserDataOfList(d: G.UserData): (r: UserData)
    ensures d.Strs? ==> r == Strs(SetOf(d.strs))
    ensures d.Ints? ==> r == Ints(SetOf(d.ints))
    ensures d.Reals? ==> r == Reals(SetOf(d.reals))
    ensures d.Fields? ==> r.Fields? && forall x :: x in r.fields <==> exists i :: 0 <= i < |d.fields| && x == UserFieldOfList(d.fields[i])
    ensures d.Objects? ==> r.Objects? && forall x :: x in r.objects <==> exists i :: 0 <= i < |d.objects| && x == UserObjectOfList(d.objects[i])
    ensures d.Object? ==> r == Object(UserObjectOfList(d.obj))
    ensures d.Str? ==> r == Str(d.str)
    ensures d.Int? ==> r == Int(d.i)
    ensures d.Real? ==> r == Real(d.r)
    ensures d.Bool? ==> r == Bool(d.b)
    decreases d, 0
  {
    match d
    case Str(s) => Str(s)
    case Int(i) => Int(i)
    case Real(x) => Real(x)
    case Bool(b) => Bool(b)
    case Object(o) => Object(UserObjectOfList(o))
    case Strs(ss) => Strs(SetOf(ss))
    case Ints(ns) => Ints(SetOf(ns))
    case Reals(xs) => Reals(SetOf(xs))
    case Fields(fs) => Fields(set i | 0 <= i < |fs| :: UserFieldOfList(fs[i]))
    case Objects(os) => Objects(set i | 0 <= i < |os| :: UserObjectOfList(os[i]))
  }

  /** The set-valued form of a list-valued object. */
  function UserObjectOfList(o: G.UserObject): (r: UserObject)
    ensures r.objectClass == o.objectClass && r.kind == o.kind
    ensures forall x :: x in r.data <==> exists i :: 0 <= i < |o.data| && x == UserFieldOfList(o.data[i])
    decreases o, 2
  {
    UserObject(o.objectClass, o.kind, set i | 0 <= i < |o.data| :: UserFieldOfList(o.data[i]))
  }

  /**
   * Holding collections as sets neither creates nor repairs a missing `num`:
   * a list-valued field is valid exactly when its set-valued form is.
   */
  lemma {:induction false} UserFieldValidity(f: G.UserField)
    ensures G.ValidUserField(f) <==> ValidUserField(UserFieldOfList(f))
    decreases f, 1
  {
    UserDataValidity(f.data);
  }

  lemma {:induction false} UserDataValidity(d: G.UserData)
    ensures G.ValidUserData(d) <==> ValidUserData(UserDataOfList(d))
    decreases d, 0
  {
    match d
    case Object(o) =>
      UserObjectValidity(o);
    case Fields(fs) =>
      forall i | 0 <= i < |fs| {
        UserFieldValidity(fs[i]);
      }
      var r := UserDataOfList(d);
      if G.ValidUserData(d) {
        forall x | x in r.fields ensures ValidUserField(x) {
          var i :| 0 <= i < |fs| && x == UserFieldOfList(fs[i]);
        }
      }
      if ValidUserData(r) {
        forall i | 0 <= i < |fs| ensures G.ValidUserField(fs[i]) {
          assert UserFieldOfList(fs[i]) in r.fields;
        }
      }
    case Objects(os) =>
      forall i | 0 <= i < |os| {
        UserObjectValidity(os[i]);
      }
      var r := UserDataOfList(d);
      if G.ValidUserData(d) {
        forall x | x in r.objects ensures ValidUserObject(x) {
          var i :| 0 <= i < |os| && x == UserObjectOfList(os[i]);
        }
      }
      if ValidUserData(r) {
        forall i | 0 <= i < |os| ensures G.ValidUserObject(os[i]) {
          assert UserObjectOfList(os[i]) in r.objects;
        }
      }
    case _ =>
  }

  lemma {:induction false} UserObjectValidity(o: G.UserObject)
    ensures G.ValidUserObject(o) <==> ValidUserObject(UserObjectOfList(o))
    decreases o, 2
  {
    forall i | 0 <= i < |o.data| {
      UserFieldValidity(o.data[i]);
    }
    var r := UserObjectOfList(o);
    if G.ValidUserObject(o) {
      forall x | x in r.data ensures ValidUserField(x) {
        var i :| 0 <= i < |o.data| && x == UserFieldOfList(o.data[i]);
      }
    }
    if ValidUserObject(r) {
      forall i | 0 <= i < |o.data| ensures G.ValidUserField(o.data[i]) {
        assert UserFieldOfList(o.data[i]) in r.data;
      }
    }
  }
}
