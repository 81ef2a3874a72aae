/** What equal texts say about the values: texts are equal exactly when the
    sorted values are; that means equal values, and the converse holds exactly
    when no object has two member names that the comparator does not separate
    and that can be enumerated in either order. */
module CanonicalMeaning {
  import opened StableSort
  import opened Utf16
  import opened CanonicalJson
  import opened MemberOrder

  /** A JSON value: object members have no order. */
  datatype Json =
    | JNull
    | JBool(b: bool)
    | JNumber(text: Text)
    | JString(s: Text)
    | JArray(items: seq<Json>)
    | JObject(members: map<Text, Json>)

  ghost function Meaning(v: Js): Json
    requires WellFormed(v)
  {
    match v
    case Null => JNull
    case Bool(b) => JBool(b)
    case Number(text) => JNumber(text)
    case Str(s) => JString(s)
    case Array(items) => JArray(seq(|items|, i requires 0 <= i < |items| => Meaning(items[i])))
    case Object(members) => JObject(map name | name in Names(members) :: Meaning(members[Find(members, name)].1))
  }

  function Names<V>(members: seq<(Text, V)>): set<Text> {
    set i | 0 <= i < |members| :: members[i].0
  }

  ghost function Find<V>(members: seq<(Text, V)>, name: Text): (i: nat)
    requires name in Names(members)
    ensures i < |members| && members[i].0 == name
  {
    var i :| 0 <= i < |members| && members[i].0 == name;
    i
  }

  /** A value JavaScript can hold: the members of every object are in an order it can enumerate. */
  ghost predicate Enumerated(v: Js) {
    match v
    case Array(items) => forall i :: 0 <= i < |items| ==> Enumerated(items[i])
    case Object(members) => Sorted(Before, members) && forall i :: 0 <= i < |members| ==> Enumerated(members[i].1)
    case _ => true
  }

  /** No object of v has two names that tie and that can be enumerated in either order. */
  predicate NoTies(less: (Text, Text) -> bool, v: Js) {
    match v
    case Array(items) => forall i :: 0 <= i < |items| ==> NoTies(less, items[i])
    case Object(members) => NoTiedNames(less, members) && forall i :: 0 <= i < |members| ==> NoTies(less, members[i].1)
    case _ => true
  }

  predicate NoTiedNames<V>(less: (Text, Text) -> bool, members: seq<(Text, V)>) {
    forall i, j :: 0 <= i < j < |members| ==> !FreeTie(less, members[i].0, members[j].0)
  }

  // ----- Sorting keeps the meaning -----

  lemma {:induction false} InsertUnique<V(!new)>(less: (Text, Text) -> bool, s: seq<(Text, V)>, x: (Text, V))
    requires UniqueKeys(s) && forall i :: 0 <= i < |s| ==> s[i].0 != x.0
    ensures UniqueKeys(Insert(less, s, x))
  {
    if s != [] && !less(x.0, s[0].0) {
      InsertUnique(less, s[1..], x);
      var rest := Insert(less, s[1..], x);
      forall j | 0 <= j < |rest| ensures rest[j].0 != s[0].0 {
        assert rest[j] in s[1..] || rest[j] == x;
      }
    }
  }

  lemma {:induction false} SortUnique<V(!new)>(less: (Text, Text) -> bool, s: seq<(Text, V)>)
    requires UniqueKeys(s)
    ensures UniqueKeys(Sort(less, s))
    decreases |s|
  {
    if s != [] {
      var init, last := s[..|s| - 1], s[|s| - 1];
      SortUnique(less, init);
      var sorted := Sort(less, init);
      forall i | 0 <= i < |sorted| ensures sorted[i].0 != last.0 {
        assert sorted[i] in init;
      }
      InsertUnique(less, sorted, last);
    }
  }

  lemma CanonMember(less: (Text, Text) -> bool, members: seq<(Text, Js)>, i: nat)
    requires i < |members|
    ensures |Canon(less, Object(members)).members| == |members|
    ensures var sorted := Sort(less, members);
            sorted[i] in members && Canon(less, Object(members)).members[i] == (sorted[i].0, Canon(less, sorted[i].1))
  {
    assert Sort(less, members)[i] in members;
  }

  lemma MeaningAt(members: seq<(Text, Js)>, i: nat)
    requires WellFormed(Object(members)) && i < |members|
    ensures members[i].0 in Meaning(Object(members)).members
    ensures Meaning(Object(members)).members[members[i].0] == Meaning(members[i].1)
  {
    assert members[i].0 in Names(members);
    assert Find(members, members[i].0) == i;
  }

  lemma MemberNamed(members: seq<(Text, Js)>, name: Text) returns (i: nat)
    requires WellFormed(Object(members)) && name in Meaning(Object(members)).members
    ensures i < |members| && members[i].0 == name && Meaning(Object(members)).members[name] == Meaning(members[i].1)
  {
    i := Find(members, name);
  }

  /** Some member of that name has that meaning. */
  ghost predicate HasMember(members: seq<(Text, Js)>, name: Text, meaning: Json)
    requires WellFormed(Object(members))
  {
    exists i :: 0 <= i < |members| && members[i].0 == name && Meaning(members[i].1) == meaning
  }

  lemma SubMeaning(a: seq<(Text, Js)>, b: seq<(Text, Js)>)
    requires WellFormed(Object(a)) && WellFormed(Object(b))
    requires forall i :: 0 <= i < |a| ==> HasMember(b, a[i].0, Meaning(a[i].1))
    ensures var ma, mb := Meaning(Object(a)).members, Meaning(Object(b)).members;
            forall k :: k in ma ==> k in mb && ma[k] == mb[k]
  {
    var ma, mb := Meaning(Object(a)).members, Meaning(Object(b)).members;
    forall k | k in ma ensures k in mb && ma[k] == mb[k] {
      var i := MemberNamed(a, k);
      var j :| 0 <= j < |b| && b[j].0 == a[i].0 && Meaning(b[j].1) == Meaning(a[i].1);
      MeaningAt(b, j);
    }
  }

  lemma SameMeaning(a: seq<(Text, Js)>, b: seq<(Text, Js)>)
    requires WellFormed(Object(a)) && WellFormed(Object(b))
    requires forall i :: 0 <= i < |a| ==> HasMember(b, a[i].0, Meaning(a[i].1))
    requires forall i :: 0 <= i < |b| ==> HasMember(a, b[i].0, Meaning(b[i].1))
    ensures Meaning(Object(a)) == Meaning(Object(b))
  {
    SubMeaning(a, b);
    SubMeaning(b, a);
    assert Meaning(Object(a)).members == Meaning(Object(b)).members;
  }

  lemma {:induction false} CanonKeepsMeaning(less: (Text, Text) -> bool, v: Js)
    requires WellFormed(v)
    ensures WellFormed(Canon(less, v)) && Meaning(Canon(less, v)) == Meaning(v)
  {
    match v {
      case Array(items) =>
        forall i | 0 <= i < |items|
            ensures WellFormed(Canon(less, items[i])) && Meaning(Canon(less, items[i])) == Meaning(items[i]) {
          CanonKeepsMeaning(less, items[i]);
        }
      case Object(members) =>
        forall i | 0 <= i < |members|
          ensures WellFormed(Canon(less, members[i].1)) && Meaning(Canon(less, members[i].1)) == Meaning(members[i].1)
        {
          CanonKeepsMeaning(less, members[i].1);
        }
        ObjectKeepsMeaning(less, members);
      case _ =>
    }
  }

  /** Sorting the members of this object is known to be harmless below it. */
  ghost predicate MeansTheSameBelow(less: (Text, Text) -> bool, members: seq<(Text, Js)>)
    requires WellFormed(Object(members))
  {
    forall i :: 0 <= i < |members| ==>
      WellFormed(Canon(less, members[i].1)) && Meaning(Canon(less, members[i].1)) == Meaning(members[i].1)
  }

  /** Position i of the sorted object holds some member j of the original, and every j is held. */
  lemma SourceOf(less: (Text, Text) -> bool, members: seq<(Text, Js)>, i: nat) returns (j: nat)
    requires i < |members|
    ensures j < |members| && i < |Canon(less, Object(members)).members|
    ensures Canon(less, Object(members)).members[i] == (members[j].0, Canon(less, members[j].1))
  {
    CanonMember(less, members, i);
    j :| 0 <= j < |members| && members[j] == Sort(less, members)[i];
  }

  lemma PlaceOf(less: (Text, Text) -> bool, members: seq<(Text, Js)>, j: nat) returns (i: nat)
    requires j < |members|
    ensures i < |Canon(less, Object(members)).members| == |members|
    ensures Canon(less, Object(members)).members[i] == (members[j].0, Canon(less, members[j].1))
  {
    var sorted := Sort(less, members);
    assert members[j] in sorted;
    i :| 0 <= i < |sorted| && sorted[i] == members[j];
    CanonMember(less, members, i);
  }

  lemma CanonHasSource(less: (Text, Text) -> bool, members: seq<(Text, Js)>, i: nat)
    requires WellFormed(Object(members)) && MeansTheSameBelow(less, members) && i < |members|
    ensures i < |Canon(less, Object(members)).members|
    ensures var m := Canon(less, Object(members)).members[i];
            WellFormed(m.1) && HasMember(members, m.0, Meaning(m.1))
  {
    var j := SourceOf(less, members, i);
    assert members[j].0 == Canon(less, Object(members)).members[i].0;
  }

  lemma SourceHasCanon(less: (Text, Text) -> bool, members: seq<(Text, Js)>, j: nat)
    requires WellFormed(Object(members)) && MeansTheSameBelow(less, members) && j < |members|
    requires WellFormed(Canon(less, Object(members)))
    ensures HasMember(Canon(less, Object(members)).members, members[j].0, Meaning(members[j].1))
  {
    var i := PlaceOf(less, members, j);
    assert Canon(less, Object(members)).members[i].0 == members[j].0;
  }

  lemma ObjectKeepsMeaning(less: (Text, Text) -> bool, members: seq<(Text, Js)>)
    requires WellFormed(Object(members)) && MeansTheSameBelow(less, members)
    ensures WellFormed(Canon(less, Object(members)))
    ensures Meaning(Canon(less, Object(members))) == Meaning(Object(members))
  {
    var canon := Canon(less, Object(members)).members;
    CanonWellFormed(less, members);
    forall i | 0 <= i < |canon| ensures HasMember(members, canon[i].0, Meaning(canon[i].1)) {
      CanonHasSource(less, members, i);
    }
    forall j | 0 <= j < |members| ensures HasMember(canon, members[j].0, Meaning(members[j].1)) {
      SourceHasCanon(less, members, j);
    }
    SameMeaning(canon, members);
  }

  lemma CanonWellFormed(less: (Text, Text) -> bool, members: seq<(Text, Js)>)
    requires WellFormed(Object(members))
    requires forall i :: 0 <= i < |members| ==> WellFormed(Canon(less, members[i].1))
    ensures WellFormed(Canon(less, Object(members)))
  {
    var sorted := Sort(less, members);
    var canon := Canon(less, Object(members)).members;
    SortUnique(less, members);
    forall i | 0 <= i < |canon| ensures canon[i].0 == sorted[i].0 && WellFormed(canon[i].1) {
      CanonMember(less, members, i);
      var j :| 0 <= j < |members| && members[j] == sorted[i];
    }
    assert UniqueKeys(canon);
  }

  // ----- Equal texts -----

  /** Texts are equal exactly when the sorted values are. */
  lemma EqualTextsIffEqualCanon(less: (Text, Text) -> bool, a: Js, b: Js)
    requires WellFormed(a) && WellFormed(b)
    ensures Stable(less, a) == Stable(less, b) <==> Canon(less, a) == Canon(less, b)
  {
    CanonKeepsMeaning(less, a);
    CanonKeepsMeaning(less, b);
    StablePrintsCanon(less, a);
    StablePrintsCanon(less, b);
    PrintsAsAt(Stable(less, a), Canon(less, a), []);
    PrintsAsAt(Stable(less, b), Canon(less, b), []);
    assert Stable(less, a) + [] == Stable(less, a) && Stable(less, b) + [] == Stable(less, b);
    if Stable(less, a) == Stable(less, b) {
      PrintUnique(Canon(less, a), [], Canon(less, b), []);
    }
  }

  /** Equal texts mean equal values, whatever the comparator. */
  lemma EqualTextsMeanEqualValues(less: (Text, Text) -> bool, a: Js, b: Js)
    requires WellFormed(a) && WellFormed(b)
    requires Stable(less, a) == Stable(less, b)
    ensures Meaning(a) == Meaning(b)
  {
    EqualTextsIffEqualCanon(less, a, b);
    CanonKeepsMeaning(less, a);
    CanonKeepsMeaning(less, b);
  }

  // ----- Canonicity -----

  ghost predicate StrictlySorted<V>(less: (Text, Text) -> bool, s: seq<(Text, V)>) {
    forall i, j :: 0 <= i < j < |s| ==> less(s[i].0, s[j].0)
  }

  lemma HeadIn<V(!new)>(a: seq<(Text, V)>, b: seq<(Text, V)>)
    requires a != [] && forall e :: e in a ==> e in b
    ensures b != [] && a[0] in b
  {
    assert a[0] in a;
  }

  lemma HeadLeast<V>(less: (Text, Text) -> bool, s: seq<(Text, V)>, e: (Text, V))
    requires StrictlySorted(less, s) && e in s
    ensures e == s[0] || less(s[0].0, e.0)
  {
  }

  /** Strictly sorted lists with the same elements are equal. */
  lemma {:induction false} StrictlySortedUnique<V(!new)>(less: (Text, Text) -> bool, a: seq<(Text, V)>,
      b: seq<(Text, V)>)
    requires StrictWeakOrder(less) && StrictlySorted(less, a) && StrictlySorted(less, b)
    requires forall e :: e in a <==> e in b
    ensures a == b
    decreases |a|
  {
    if a == [] {
      if b != [] {
        HeadIn(b, a);
      }
    } else {
      HeadIn(a, b);
      HeadIn(b, a);
      HeadLeast(less, b, a[0]);
      HeadLeast(less, a, b[0]);
      TailElements(less, a, b);
      TailElements(less, b, a);
      StrictlySortedUnique(less, a[1..], b[1..]);
    }
  }

  lemma TailElements<V(!new)>(less: (Text, Text) -> bool, a: seq<(Text, V)>, b: seq<(Text, V)>)
    requires StrictWeakOrder(less) && StrictlySorted(less, a) && a != [] && b != [] && a[0] == b[0]
    requires forall e :: e in a ==> e in b
    ensures forall e :: e in a[1..] ==> e in b[1..]
  {
    forall e | e in a[1..] ensures e in b[1..] {
      var i :| 0 <= i < |a[1..]| && a[1..][i] == e;
      assert less(a[0].0, a[i + 1].0) && e != a[0];
      assert e in b && b == [b[0]] + b[1..];
    }
  }

  /** Without ties, equal meanings sort to equal values. */
  lemma {:induction false} EqualValuesSortEqually(less: (Text, Text) -> bool, a: Js, b: Js)
    requires StrictWeakOrder(less) && WellFormed(a) && WellFormed(b) && Enumerated(a) && Enumerated(b)
    requires NoTies(less, a) && Meaning(a) == Meaning(b)
    ensures Canon(less, a) == Canon(less, b)
    decreases a
  {
    match a {
      case Array(items) =>
        forall i | 0 <= i < |items| ensures Canon(less, items[i]) == Canon(less, b.items[i]) {
          assert Meaning(items[i]) == Meaning(a).items[i];
          assert Meaning(b.items[i]) == Meaning(b).items[i];
          EqualValuesSortEqually(less, items[i], b.items[i]);
        }
      case Object(members) =>
        forall i, j | 0 <= i < |members| && 0 <= j < |b.members| && members[i].0 == b.members[j].0
          ensures Canon(less, members[i].1) == Canon(less, b.members[j].1)
        {
          MeaningAt(members, i);
          MeaningAt(b.members, j);
          EqualValuesSortEqually(less, members[i].1, b.members[j].1);
        }
        ObjectsSortEqually(less, members, b.members);
      case _ =>
    }
  }

  lemma SameNames(a: seq<(Text, Js)>, b: seq<(Text, Js)>, i: nat) returns (j: nat)
    requires WellFormed(Object(a)) && WellFormed(Object(b)) && Meaning(Object(a)) == Meaning(Object(b)) && i < |a|
    ensures j < |b| && a[i].0 == b[j].0
  {
    MeaningAt(a, i);
    j := MemberNamed(b, a[i].0);
  }

  lemma SameNamesNoTies(less: (Text, Text) -> bool, a: seq<(Text, Js)>, b: seq<(Text, Js)>)
    requires WellFormed(Object(a)) && WellFormed(Object(b)) && Meaning(Object(a)) == Meaning(Object(b))
    requires NoTiedNames(less, a)
    ensures NoTiedNames(less, b)
  {
    forall i, j | 0 <= i < j < |b| ensures !FreeTie(less, b[i].0, b[j].0) {
      var p := SameNames(b, a, i);
      var q := SameNames(b, a, j);
      assert b[i].0 != b[j].0 && p != q;
      assert !FreeTie(less, a[if p < q then p else q].0, a[if p < q then q else p].0);
    }
  }

  lemma CanonElements(less: (Text, Text) -> bool, a: seq<(Text, Js)>, b: seq<(Text, Js)>, e: (Text, Js))
    requires WellFormed(Object(a)) && WellFormed(Object(b)) && Meaning(Object(a)) == Meaning(Object(b))
    requires forall i, j :: 0 <= i < |a| && 0 <= j < |b| && a[i].0 == b[j].0 ==>
        Canon(less, a[i].1) == Canon(less, b[j].1)
    requires e in Canon(less, Object(a)).members
    ensures e in Canon(less, Object(b)).members
  {
    var k :| 0 <= k < |Canon(less, Object(a)).members| && Canon(less, Object(a)).members[k] == e;
    var i := SourceOf(less, a, k);
    var j := SameNames(a, b, i);
    var l := PlaceOf(less, b, j);
    assert Canon(less, Object(b)).members[l] == e;
  }

  lemma {:induction false} ClassKeepsOrder<V(!new)>(less: (Text, Text) -> bool, s: seq<(Text, V)>, k: Text)
    requires Sorted(Before, s)
    ensures Sorted(Before, Class(less, s, k))
  {
    if s != [] {
      ClassKeepsOrder(less, s[1..], k);
      ClassMembers(less, s[1..], k);
      var rest := Class(less, s[1..], k);
      forall i | 0 <= i < |rest| ensures !Before(rest[i].0, s[0].0) {
        assert rest[i] in s[1..];
      }
    }
  }

  /** Within a class of ties the enumeration leaves no choice. */
  lemma ClassIsForced<V(!new)>(less: (Text, Text) -> bool, s: seq<(Text, V)>, k: Text)
    requires StrictWeakOrder(less) && Sorted(Before, s) && UniqueKeys(s) && NoTiedNames(less, s)
    ensures StrictlySorted(Before, Class(less, s, k))
  {
    var c := Class(less, s, k);
    ClassKeepsOrder(less, s, k);
    ClassKeepsUnique(less, s, k);
    ClassMembers(less, s, k);
    forall i, j | 0 <= i < j < |c| ensures Before(c[i].0, c[j].0) {
      assert c[i] in s && c[j] in s && c[i].0 != c[j].0;
      OneIsIndex(less, s, c[i], c[j], k);
      ForcedOrder(c[i].0, c[j].0);
    }
  }

  lemma OneIsIndex<V(!new)>(less: (Text, Text) -> bool, s: seq<(Text, V)>, x: (Text, V), y: (Text, V), k: Text)
    requires StrictWeakOrder(less) && NoTiedNames(less, s) && x in s && y in s && x.0 != y.0
    requires Ties(less, x.0, k) && Ties(less, y.0, k)
    ensures IndexName(x.0) || IndexName(y.0)
  {
    var p :| 0 <= p < |s| && s[p] == x;
    var q :| 0 <= q < |s| && s[q] == y;
    assert Ties(less, x.0, y.0) && Ties(less, y.0, x.0);
    assert !FreeTie(less, s[if p < q then p else q].0, s[if p < q then q else p].0);
  }

  lemma SortedNames<V(!new), W(!new)>(less: (Text, Text) -> bool, s: seq<(Text, V)>, t: seq<(Text, W)>)
    requires SameNameList(s, t)
    ensures Sorted(less, s) ==> Sorted(less, t)
    ensures StrictlySorted(less, s) ==> StrictlySorted(less, t)
  {
  }

  /** The classes of the sorted object are in the one order that enumeration gives them. */
  lemma CanonClassIsForced(less: (Text, Text) -> bool, members: seq<(Text, Js)>, k: Text)
    requires StrictWeakOrder(less) && UniqueKeys(members) && Sorted(Before, members) && NoTiedNames(less, members)
    ensures StrictlySorted(Before, Class(less, Canon(less, Object(members)).members, k))
  {
    var canon := Canon(less, Object(members)).members;
    CanonNames(less, members);
    SortIsStable(less, members);
    ClassNames(less, Sort(less, members), canon, k);
    ClassIsForced(less, members, k);
    SortedNames(Before, Class(less, members, k), Class(less, canon, k));
  }

  lemma CanonIsSorted(less: (Text, Text) -> bool, members: seq<(Text, Js)>)
    requires StrictWeakOrder(less)
    ensures Sorted(less, Canon(less, Object(members)).members)
  {
    CanonNames(less, members);
    SortIsStable(less, members);
    SortedNames(less, Sort(less, members), Canon(less, Object(members)).members);
  }

  lemma ObjectsSortEqually(less: (Text, Text) -> bool, a: seq<(Text, Js)>, b: seq<(Text, Js)>)
    requires StrictWeakOrder(less) && Sorted(Before, a) && Sorted(Before, b)
    requires WellFormed(Object(a)) && WellFormed(Object(b)) && Meaning(Object(a)) == Meaning(Object(b))
    requires NoTiedNames(less, a)
    requires forall i, j :: 0 <= i < |a| && 0 <= j < |b| && a[i].0 == b[j].0 ==>
        Canon(less, a[i].1) == Canon(less, b[j].1)
    ensures Canon(less, Object(a)) == Canon(less, Object(b))
  {
    var ca, cb := Canon(less, Object(a)).members, Canon(less, Object(b)).members;
    SameNamesNoTies(less, a, b);
    BeforeIsWeakOrder();
    forall e ensures e in ca <==> e in cb {
      if e in ca { CanonElements(less, a, b, e); }
      if e in cb { CanonElements(less, b, a, e); }
    }
    forall k ensures Class(less, ca, k) == Class(less, cb, k) {
      CanonClassIsForced(less, a, k);
      CanonClassIsForced(less, b, k);
      ClassMembers(less, ca, k);
      ClassMembers(less, cb, k);
      StrictlySortedUnique(Before, Class(less, ca, k), Class(less, cb, k));
    }
    CanonIsSorted(less, a);
    CanonIsSorted(less, b);
    SortedStableUnique(less, ca, cb);
  }

  // ----- Ties break canonicity -----

  function Reverse<V>(s: seq<V>): (r: seq<V>)
    ensures |r| == |s|
    ensures forall i :: 0 <= i < |s| ==> r[i] == s[|s| - 1 - i]
  {
    if s == [] then [] else Reverse(s[1..]) + [s[0]]
  }

  lemma {:induction false} ClassOfReverse<V(!new)>(less: (Text, Text) -> bool, s: seq<(Text, V)>, k: Text)
    ensures Class(less, Reverse(s), k) == Reverse(Class(less, s, k))
  {
    if s != [] {
      ClassOfReverse(less, s[1..], k);
      ClassConcat(less, Reverse(s[1..]), [s[0]], k);
      assert Class(less, [s[0]], k) == if Ties(less, s[0].0, k) then [s[0]] else [];
      assert Reverse<(Text, V)>([]) == [];
      if Ties(less, s[0].0, k) {
        assert ([s[0]] + Class(less, s[1..], k))[1..] == Class(less, s[1..], k);
      } else {
        assert [] + Class(less, s[1..], k) == Class(less, s[1..], k);
      }
    }
  }

  lemma {:induction false} ClassKeepsUnique<V(!new)>(less: (Text, Text) -> bool, s: seq<(Text, V)>, k: Text)
    requires UniqueKeys(s)
    ensures UniqueKeys(Class(less, s, k))
  {
    if s != [] {
      ClassKeepsUnique(less, s[1..], k);
      ClassMembers(less, s[1..], k);
      var rest := Class(less, s[1..], k);
      forall i | 0 <= i < |rest| ensures rest[i].0 != s[0].0 {
        assert rest[i] in s[1..];
      }
    }
  }

  ghost predicate SameNameList<V, W>(s: seq<(Text, V)>, t: seq<(Text, W)>) {
    |s| == |t| && forall i :: 0 <= i < |s| ==> s[i].0 == t[i].0
  }

  lemma {:induction false} ClassNames<V(!new), W(!new)>(less: (Text, Text) -> bool, s: seq<(Text, V)>,
      t: seq<(Text, W)>, k: Text)
    requires SameNameList(s, t)
    ensures SameNameList(Class(less, s, k), Class(less, t, k))
  {
    if s != [] {
      ClassNames(less, s[1..], t[1..], k);
    }
  }

  lemma TwoInClass(less: (Text, Text) -> bool, members: seq<(Text, Js)>, i: nat, j: nat)
    requires StrictWeakOrder(less) && UniqueKeys(members) && i < j < |members| && Ties(less, members[i].0, members[j].0)
    ensures |Class(less, members, members[i].0)| >= 2
  {
    var k := members[i].0;
    ClassMembers(less, members, k);
    var c := Class(less, members, k);
    assert members[i] in c && members[j] in c && members[i] != members[j];
  }

  /** Where the names begin that are no indices. */
  lemma FirstName(members: seq<(Text, Js)>) returns (n: nat)
    requires Sorted(Before, members)
    ensures n <= |members|
    ensures forall i :: 0 <= i < |members| ==> (IndexName(members[i].0) <==> i < n)
  {
    n := 0;
    while n < |members| && IndexName(members[n].0)
      invariant n <= |members| && forall i :: 0 <= i < n ==> IndexName(members[i].0)
    {
      n := n + 1;
    }
    forall i | n <= i < |members| ensures !IndexName(members[i].0) {
      assert !Before(members[i].0, members[n].0) || i == n;
    }
  }

  /** The same object with the members from n on inserted in the opposite order. */
  function TailReversed(members: seq<(Text, Js)>, n: nat): seq<(Text, Js)>
    requires n <= |members|
  {
    members[..n] + Reverse(members[n..])
  }

  lemma TailReversedAt(members: seq<(Text, Js)>, n: nat, i: nat)
    requires n <= |members| && i < |members|
    ensures |TailReversed(members, n)| == |members|
    ensures TailReversed(members, n)[i] == members[if i < n then i else n + |members| - 1 - i]
  {
  }

  lemma TailReversedEnumerated(members: seq<(Text, Js)>, n: nat)
    requires n <= |members| && Sorted(Before, members) && UniqueKeys(members)
    requires forall i :: 0 <= i < |members| ==> (IndexName(members[i].0) <==> i < n)
    ensures Sorted(Before, TailReversed(members, n)) && UniqueKeys(TailReversed(members, n))
  {
    var back := TailReversed(members, n);
    forall i, j | 0 <= i < j < |back| ensures !Before(back[j].0, back[i].0) && back[i].0 != back[j].0 {
      TailReversedAt(members, n, i);
      TailReversedAt(members, n, j);
    }
  }

  /** Two names that tie stay in insertion order, so inserting them the other way changes the result. */
  lemma TieIsVisible(less: (Text, Text) -> bool, members: seq<(Text, Js)>, n: nat, i: nat, j: nat)
    requires StrictWeakOrder(less) && UniqueKeys(members)
    requires n <= i < j < |members| && Ties(less, members[i].0, members[j].0)
    ensures Canon(less, Object(TailReversed(members, n))) != Canon(less, Object(members))
  {
    var k := members[i].0;
    var back := TailReversed(members, n);
    SortIsStable(less, members);
    SortIsStable(less, back);
    ClassesOfTail(less, members, n, i, j);
    if Canon(less, Object(back)) == Canon(less, Object(members)) {
      CanonNames(less, members);
      CanonNames(less, back);
      ClassNames(less, Sort(less, members), Sort(less, back), k);
    }
  }

  lemma ClassesOfTail(less: (Text, Text) -> bool, members: seq<(Text, Js)>, n: nat, i: nat, j: nat)
    requires StrictWeakOrder(less) && UniqueKeys(members)
    requires n <= i < j < |members| && Ties(less, members[i].0, members[j].0)
    ensures var k := members[i].0;
            !SameNameList(Class(less, TailReversed(members, n), k), Class(less, members, k))
  {
    var k := members[i].0;
    var head, tail := Class(less, members[..n], k), Class(less, members[n..], k);
    SplitClass(less, members, n, k);
    TwoInTail(less, members, n, i, j);
    EndsDiffer(head, tail);
  }

  lemma TwoInTail(less: (Text, Text) -> bool, members: seq<(Text, Js)>, n: nat, i: nat, j: nat)
    requires StrictWeakOrder(less) && UniqueKeys(members)
    requires n <= i < j < |members| && Ties(less, members[i].0, members[j].0)
    ensures var c := Class(less, members[n..], members[i].0);
            UniqueKeys(c) && |c| >= 2
  {
    var tail := members[n..];
    assert tail[i - n] == members[i] && tail[j - n] == members[j];
    ClassKeepsUnique(less, tail, members[i].0);
    TwoInClass(less, tail, i - n, j - n);
  }

  lemma SplitClass(less: (Text, Text) -> bool, members: seq<(Text, Js)>, n: nat, k: Text)
    requires n <= |members|
    ensures Class(less, members, k) == Class(less, members[..n], k) + Class(less, members[n..], k)
    ensures Class(less, TailReversed(members, n), k)
        == Class(less, members[..n], k) + Reverse(Class(less, members[n..], k))
  {
    assert members == members[..n] + members[n..];
    ClassConcat(less, members[..n], members[n..], k);
    ClassConcat(less, members[..n], Reverse(members[n..]), k);
    ClassOfReverse(less, members[n..], k);
  }

  lemma EndsDiffer<V>(head: seq<(Text, V)>, tail: seq<(Text, V)>)
    requires UniqueKeys(tail) && |tail| >= 2
    ensures !SameNameList(head + Reverse(tail), head + tail)
  {
    var h := |head|;
    assert (head + tail)[h] == tail[0];
    assert (head + Reverse(tail))[h] == Reverse(tail)[0] == tail[|tail| - 1];
  }

  lemma CanonNames(less: (Text, Text) -> bool, members: seq<(Text, Js)>)
    ensures SameNameList(Canon(less, Object(members)).members, Sort(less, members))
  {
    forall i | 0 <= i < |members| ensures Canon(less, Object(members)).members[i].0 == Sort(less, members)[i].0 {
      CanonMember(less, members, i);
    }
  }

  lemma SameElementsMeaning(a: seq<(Text, Js)>, b: seq<(Text, Js)>)
    requires WellFormed(Object(a)) && UniqueKeys(b) && forall e :: e in a <==> e in b
    ensures WellFormed(Object(b)) && Meaning(Object(b)) == Meaning(Object(a))
  {
    forall i | 0 <= i < |b| ensures WellFormed(b[i].1) && b[i] in a {
      assert b[i] in b;
      var j :| 0 <= j < |a| && a[j] == b[i];
    }
    forall i | 0 <= i < |a| ensures HasMember(b, a[i].0, Meaning(a[i].1)) {
      assert a[i] in b;
      var j :| 0 <= j < |b| && b[j] == a[i];
    }
    forall i | 0 <= i < |b| ensures HasMember(a, b[i].0, Meaning(b[i].1)) {
      var j :| 0 <= j < |a| && a[j] == b[i];
    }
    SameMeaning(b, a);
  }

  lemma TailReversedElements(members: seq<(Text, Js)>, n: nat)
    requires n <= |members|
    ensures forall e :: e in members <==> e in TailReversed(members, n)
  {
    ReverseElements(members[n..]);
    assert members == members[..n] + members[n..];
  }

  lemma {:induction false} ReverseElements<V(!new)>(s: seq<(Text, V)>)
    ensures forall e :: e in Reverse(s) <==> e in s
  {
    if s != [] {
      ReverseElements(s[1..]);
      assert s == [s[0]] + s[1..];
    }
  }

  lemma HasAt(members: seq<(Text, Js)>, i: nat)
    requires WellFormed(Object(members)) && i < |members|
    ensures HasMember(members, members[i].0, Meaning(members[i].1))
  {
  }

  lemma SamePositions(a: seq<(Text, Js)>, b: seq<(Text, Js)>)
    requires WellFormed(Object(a)) && WellFormed(Object(b)) && SameNameList(a, b)
    requires forall j :: 0 <= j < |a| ==> Meaning(a[j].1) == Meaning(b[j].1)
    ensures Meaning(Object(a)) == Meaning(Object(b))
  {
    forall j | 0 <= j < |a| ensures HasMember(b, a[j].0, Meaning(a[j].1)) && HasMember(a, b[j].0, Meaning(b[j].1)) {
      HasAt(a, j);
      HasAt(b, j);
    }
    SameMeaning(a, b);
  }

  lemma ReplacedWellFormed(members: seq<(Text, Js)>, i: nat, w: Js)
    requires WellFormed(Object(members)) && i < |members| && WellFormed(w)
    ensures WellFormed(Object(members[i := (members[i].0, w)]))
    ensures SameNameList(members[i := (members[i].0, w)], members)
  {
    var other := members[i := (members[i].0, w)];
    assert SameNameList(other, members);
    assert forall j :: 0 <= j < |members| ==> other[j].1 == if j == i then w else members[j].1;
  }

  lemma ReplacedMemberMeaning(members: seq<(Text, Js)>, i: nat, w: Js)
    requires WellFormed(Object(members)) && i < |members| && WellFormed(w) && Meaning(w) == Meaning(members[i].1)
    ensures var other := members[i := (members[i].0, w)];
            WellFormed(Object(other)) && Meaning(Object(other)) == Meaning(Object(members))
  {
    ReplacedWellFormed(members, i, w);
    SamePositions(members[i := (members[i].0, w)], members);
  }

  lemma CanonUniqueKeys(less: (Text, Text) -> bool, members: seq<(Text, Js)>)
    requires WellFormed(Object(members))
    ensures UniqueKeys(Canon(less, Object(members)).members)
  {
    SortUnique(less, members);
    CanonNames(less, members);
  }

  /** Replacing one member's value by another of the same meaning that sorts differently. */
  lemma MemberIsVisible(less: (Text, Text) -> bool, members: seq<(Text, Js)>, i: nat, w: Js)
    requires WellFormed(Object(members)) && i < |members| && Canon(less, w) != Canon(less, members[i].1)
    ensures Canon(less, Object(members[i := (members[i].0, w)])) != Canon(less, Object(members))
  {
    CanonUniqueKeys(less, members);
    var p := PlaceOf(less, members, i);
    var q := PlaceOf(less, members[i := (members[i].0, w)], i);
  }

  lemma ReplacedEnumerated(members: seq<(Text, Js)>, i: nat, w: Js)
    requires Enumerated(Object(members)) && i < |members| && Enumerated(w)
    ensures Enumerated(Object(members[i := (members[i].0, w)]))
  {
    var other := members[i := (members[i].0, w)];
    assert SameNameList(members, other);
    SortedNames(Before, members, other);
    assert forall j :: 0 <= j < |members| ==> other[j].1 == if j == i then w else members[j].1;
  }

  /** Two names of this object tie: insert the names that are no indices the other way round. */
  lemma TiedNamesWitness(less: (Text, Text) -> bool, members: seq<(Text, Js)>) returns (b: Js)
    requires StrictWeakOrder(less) && WellFormed(Object(members)) && Enumerated(Object(members))
    requires !NoTiedNames(less, members)
    ensures WellFormed(b) && Enumerated(b) && Meaning(b) == Meaning(Object(members))
    ensures Canon(less, b) != Canon(less, Object(members))
  {
    var i, j :| 0 <= i < j < |members| && FreeTie(less, members[i].0, members[j].0);
    var n := FirstName(members);
    var back := TailReversed(members, n);
    b := Object(back);
    TailReversedEnumerated(members, n);
    TailReversedElements(members, n);
    SameElementsMeaning(members, back);
    TieIsVisible(less, members, n, i, j);
    forall k | 0 <= k < |back| ensures Enumerated(back[k].1) {
      TailReversedAt(members, n, k);
    }
  }

  /** Wherever a tie sits in a, a value of the same meaning that JavaScript can hold prints differently. */
  lemma {:induction false} TieWitness(less: (Text, Text) -> bool, a: Js) returns (b: Js)
    requires StrictWeakOrder(less) && WellFormed(a) && Enumerated(a) && !NoTies(less, a)
    ensures WellFormed(b) && Enumerated(b) && Meaning(b) == Meaning(a) && Canon(less, b) != Canon(less, a)
    decreases a
  {
    match a {
      case Array(items) =>
        var i :| 0 <= i < |items| && !NoTies(less, items[i]);
        var w := TieWitness(less, items[i]);
        b := Array(items[i := w]);
        ItemIsVisible(less, items, i, w);
      case Object(members) =>
        if i :| 0 <= i < |members| && !NoTies(less, members[i].1) {
          var w := TieWitness(less, members[i].1);
          b := Object(members[i := (members[i].0, w)]);
          ReplacedEnumerated(members, i, w);
          ReplacedMemberMeaning(members, i, w);
          MemberIsVisible(less, members, i, w);
        } else {
          b := TiedNamesWitness(less, members);
        }
    }
  }

  lemma ItemIsVisible(less: (Text, Text) -> bool, items: seq<Js>, i: nat, w: Js)
    requires WellFormed(Array(items)) && i < |items| && WellFormed(w)
    requires Meaning(w) == Meaning(items[i]) && Canon(less, w) != Canon(less, items[i])
    ensures var other := items[i := w];
            && WellFormed(Array(other)) && Meaning(Array(other)) == Meaning(Array(items))
            && Canon(less, Array(other)) != Canon(less, Array(items))
  {
    var other := items[i := w];
    assert WellFormed(Array(other));
    assert forall j :: 0 <= j < |items| ==> Meaning(other[j]) == Meaning(items[j]);
    assert Meaning(Array(other)).items == Meaning(Array(items)).items;
    assert Canon(less, Array(other)).items[i] == Canon(less, w);
    assert Canon(less, Array(items)).items[i] == Canon(less, items[i]);
  }

  /** The printer is canonical on a value exactly when its member names do not tie: then, and only then,
      every way in which JavaScript can hold the value gives the same text. */
  lemma CanonicalIffNoTies(less: (Text, Text) -> bool, a: Js)
    requires StrictWeakOrder(less) && WellFormed(a) && Enumerated(a)
    ensures NoTies(less, a) <==>
            forall b :: WellFormed(b) && Enumerated(b) && Meaning(b) == Meaning(a) ==>
                Stable(less, b) == Stable(less, a)
  {
    if NoTies(less, a) {
      forall b | WellFormed(b) && Enumerated(b) && Meaning(b) == Meaning(a) ensures Stable(less, b) == Stable(less, a) {
        EqualValuesSortEqually(less, a, b);
        EqualTextsIffEqualCanon(less, b, a);
      }
    } else {
      var b := TieWitness(less, a);
      EqualTextsIffEqualCanon(less, b, a);
    }
  }

  /** The decision the comparison of texts makes: for values without ties, texts are equal exactly when
      the values are. */
  lemma EqualTextsIffEqualValues(less: (Text, Text) -> bool, a: Js, b: Js)
    requires StrictWeakOrder(less) && WellFormed(a) && WellFormed(b) && Enumerated(a) && Enumerated(b)
    requires NoTies(less, a)
    ensures Stable(less, a) == Stable(less, b) <==> Meaning(a) == Meaning(b)
  {
    if Stable(less, a) == Stable(less, b) {
      EqualTextsMeanEqualValues(less, a, b);
    } else {
      CanonicalIffNoTies(less, a);
    }
  }
}
