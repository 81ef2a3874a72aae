/** The canonical printer that decides whether two deployment topologies are the
    same by comparing texts. */
module CanonicalJson {
  import opened Wrappers
  import opened StableSort
  import opened Utf16

  /** A JSON value as JavaScript holds it: members are in the order in which they are enumerated. A
      finite number is its ECMAScript text, which is one-to-one (0 and -0 share theirs). */
  datatype Js =
    | Null
    | Bool(b: bool)
    | Number(text: Text)
    | Str(s: Text)
    | Array(items: seq<Js>)
    | Object(members: seq<(Text, Js)>)

  // ----- Text pieces -----

  const QUOTE: Unit := 34
  const BACKSLASH: Unit := 92
  const COMMA: Text := [44]
  const COLON: Text := [58]

  /** Digits, signs, point and exponent. */
  predicate NumberUnit(u: Unit) {
    48 <= u <= 57 || u == 43 || u == 45 || u == 46 || u == 101
  }

  predicate NumberText(t: Text) {
    t != [] && (48 <= t[0] <= 57 || t[0] == 45) && forall i :: 0 <= i < |t| ==> NumberUnit(t[i])
  }

  predicate IsHigh(u: Unit) {
    0xD800 <= u <= 0xDBFF
  }

  predicate IsLow(u: Unit) {
    0xDC00 <= u <= 0xDFFF
  }

  function HexDigit(d: nat): Unit
    requires d < 16
  {
    if d < 10 then 48 + d else 87 + d
  }

  function HexValue(u: Unit): Option<nat> {
    if 48 <= u <= 57 then Some(u - 48) else if 97 <= u <= 102 then Some(u - 87) else None
  }

  function Hex4(u: Unit): Text {
    [HexDigit(u / 16 / 16 / 16), HexDigit(u / 16 / 16 % 16), HexDigit(u / 16 % 16), HexDigit(u % 16)]
  }

  /** One code unit inside a JSON string; lone surrogates and controls are escaped. */
  function EscapeUnit(u: Unit): Text {
    if u == QUOTE then [BACKSLASH, QUOTE]
    else if u == BACKSLASH then [BACKSLASH, BACKSLASH]
    else if u == 8 then [BACKSLASH, 98]
    else if u == 9 then [BACKSLASH, 116]
    else if u == 10 then [BACKSLASH, 110]
    else if u == 12 then [BACKSLASH, 102]
    else if u == 13 then [BACKSLASH, 114]
    else if u < 32 || IsHigh(u) || IsLow(u) then [BACKSLASH, 117] + Hex4(u)
    else [u]
  }

  /** JSON.stringify on a string, without the quotes: a surrogate pair is copied as it is. */
  function QuoteBody(s: Text): Text {
    if s == [] then []
    else if |s| > 1 && IsHigh(s[0]) && IsLow(s[1]) then s[..2] + QuoteBody(s[2..])
    else EscapeUnit(s[0]) + QuoteBody(s[1..])
  }

  function Quote(s: Text): Text {
    [QUOTE] + QuoteBody(s) + [QUOTE]
  }

  function Join(parts: seq<Text>): Text {
    if parts == [] then [] else if |parts| == 1 then parts[0] else parts[0] + COMMA + Join(parts[1..])
  }

  // ----- The printer -----

  /** stable: members sorted by the comparator, everything else in place. */
  function Stable(less: (Text, Text) -> bool, v: Js): Text {
    match v
    case Null => Ascii("null")
    case Bool(b) => if b then Ascii("true") else Ascii("false")
    case Number(text) => text
    case Str(s) => Quote(s)
    case Array(items) => Ascii("[") + Join(seq(|items|, i requires 0 <= i < |items| => Stable(less, items[i])))
        + Ascii("]")
    case Object(members) =>
      var sorted := Sort(less, members);
      Ascii("{") + Join(seq(|sorted|, i requires 0 <= i < |sorted| =>
        assert sorted[i] in members;
        Quote(sorted[i].0) + COLON + Stable(less, sorted[i].1))) + Ascii("}")
  }

  /** Unique member names and well-formed numbers, at every depth. */
  predicate WellFormed(v: Js) {
    match v
    case Number(text) => NumberText(text)
    case Array(items) => forall i :: 0 <= i < |items| ==> WellFormed(items[i])
    case Object(members) => UniqueKeys(members) && forall i :: 0 <= i < |members| ==> WellFormed(members[i].1)
    case _ => true
  }

  predicate UniqueKeys<V>(members: seq<(Text, V)>) {
    forall i, j :: 0 <= i < j < |members| ==> members[i].0 != members[j].0
  }

  // ----- Sorting first, printing afterwards -----

  /** The value with the members of every object in sorted order. */
  function Canon(less: (Text, Text) -> bool, v: Js): Js {
    match v
    case Array(items) => Array(seq(|items|, i requires 0 <= i < |items| => Canon(less, items[i])))
    case Object(members) =>
      var sorted := Sort(less, members);
      Object(seq(|sorted|, i requires 0 <= i < |sorted| =>
        assert sorted[i] in members;
        (sorted[i].0, Canon(less, sorted[i].1))))
    case _ => v
  }

  /** The text of v with its members in the order they have, followed by rest. */
  function PrintTo(v: Js, rest: Text): Text
    decreases v, 1
  {
    match v
    case Null => Ascii("null") + rest
    case Bool(b) => (if b then Ascii("true") else Ascii("false")) + rest
    case Number(text) => text + rest
    case Str(s) => Quote(s) + rest
    case Array(items) => [91] + (if items == [] then [93] + rest else PrintTo(items[0], ItemsTo(items[1..], rest)))
    case Object(members) => [123] + (if members == [] then [125] + rest else MemberTo(v, 0, rest))
  }

  /** The items after the first. */
  function ItemsTo(items: seq<Js>, rest: Text): Text
    decreases items, 0
  {
    if items == [] then [93] + rest else [44] + PrintTo(items[0], ItemsTo(items[1..], rest))
  }

  function MemberTo(v: Js, i: nat, rest: Text): Text
    requires v.Object? && i < |v.members|
    decreases v, 0, |v.members| - i, 0
  {
    Quote(v.members[i].0) + ([58] + PrintTo(v.members[i].1, MembersTo(v, i + 1, rest)))
  }

  /** The members of v from i on, after the first. */
  function MembersTo(v: Js, i: nat, rest: Text): Text
    requires v.Object? && i <= |v.members|
    decreases v, 0, |v.members| - i, 1
  {
    if i == |v.members| then [125] + rest else [44] + MemberTo(v, i, rest)
  }

  ghost predicate PrintsAs(part: Text, v: Js) {
    forall rest: Text :: part + rest == PrintTo(v, rest)
  }

  lemma CommaJoin(a: Text, b: Text, close: Text)
    ensures a + COMMA + b + close == a + ([44] + (b + close))
  {
  }

  lemma PrintsAsAt(part: Text, v: Js, rest: Text)
    requires PrintsAs(part, v)
    ensures part + rest == PrintTo(v, rest)
  {
  }

  lemma {:induction false} JoinItems(items: seq<Js>, parts: seq<Text>, rest: Text)
    requires |parts| == |items| > 0 && forall i :: 0 <= i < |items| ==> PrintsAs(parts[i], items[i])
    ensures Join(parts) + ([93] + rest) == PrintTo(items[0], ItemsTo(items[1..], rest))
    decreases |items|
  {
    PrintsAsAt(parts[0], items[0], ItemsTo(items[1..], rest));
    if |items| > 1 {
      JoinItems(items[1..], parts[1..], rest);
      CommaJoin(parts[0], Join(parts[1..]), [93] + rest);
    }
  }

  lemma MemberPart(key: Text, value: Text, v: Js, part: Text, after: Text)
    requires PrintsAs(value, v) && part == Quote(key) + COLON + value
    ensures part + after == Quote(key) + ([58] + PrintTo(v, after))
  {
    PrintsAsAt(value, v, after);
    assert Quote(key) + COLON + value + after == Quote(key) + ([58] + (value + after));
  }

  lemma {:induction false} JoinMembers(v: Js, i: nat, values: seq<Text>, parts: seq<Text>, rest: Text)
    requires v.Object? && i < |v.members| && |parts| == |values| == |v.members| - i
    requires forall k :: 0 <= k < |parts| ==>
        PrintsAs(values[k], v.members[i + k].1) && parts[k] == Quote(v.members[i + k].0) + COLON + values[k]
    ensures Join(parts) + ([125] + rest) == MemberTo(v, i, rest)
    decreases |v.members| - i
  {
    MemberPart(v.members[i + 0].0, values[0], v.members[i + 0].1, parts[0], MembersTo(v, i + 1, rest));
    if |parts| > 1 {
      JoinMembers(v, i + 1, values[1..], parts[1..], rest);
      CommaJoin(parts[0], Join(parts[1..]), [125] + rest);
    }
  }

  lemma ArrayPrints(items: seq<Js>, parts: seq<Text>)
    requires |parts| == |items| && forall i :: 0 <= i < |items| ==> PrintsAs(parts[i], items[i])
    ensures PrintsAs(Ascii("[") + Join(parts) + Ascii("]"), Array(items))
  {
    forall rest: Text ensures Ascii("[") + Join(parts) + Ascii("]") + rest == PrintTo(Array(items), rest) {
      assert Ascii("[") == [91] && Ascii("]") == [93];
      assert Ascii("[") + Join(parts) + Ascii("]") + rest == [91] + (Join(parts) + ([93] + rest));
      if items != [] {
        JoinItems(items, parts, rest);
      }
    }
  }

  lemma ObjectPrints(v: Js, values: seq<Text>, parts: seq<Text>)
    requires v.Object? && |parts| == |values| == |v.members|
    requires forall k :: 0 <= k < |parts| ==>
        PrintsAs(values[k], v.members[k].1) && parts[k] == Quote(v.members[k].0) + COLON + values[k]
    ensures PrintsAs(Ascii("{") + Join(parts) + Ascii("}"), v)
  {
    forall rest: Text ensures Ascii("{") + Join(parts) + Ascii("}") + rest == PrintTo(v, rest) {
      assert Ascii("{") == [123] && Ascii("}") == [125];
      assert Ascii("{") + Join(parts) + Ascii("}") + rest == [123] + (Join(parts) + ([125] + rest));
      if v.members != [] {
        JoinMembers(v, 0, values, parts, rest);
      }
    }
  }

  /** The printer is: sort every object, then print. */
  lemma {:induction false} StablePrintsCanon(less: (Text, Text) -> bool, v: Js)
    ensures PrintsAs(Stable(less, v), Canon(less, v))
  {
    var canon := Canon(less, v);
    match v {
      case Array(items) =>
        var parts := seq(|items|, i requires 0 <= i < |items| => Stable(less, items[i]));
        forall i | 0 <= i < |items| ensures PrintsAs(parts[i], canon.items[i]) {
          StablePrintsCanon(less, items[i]);
        }
        ArrayPrints(canon.items, parts);
      case Object(members) =>
        var sorted := Sort(less, members);
        var values := seq(|sorted|, i requires 0 <= i < |sorted| =>
            assert sorted[i] in members; Stable(less, sorted[i].1));
        var parts := seq(|sorted|, i requires 0 <= i < |sorted| =>
          assert sorted[i] in members;
          Quote(sorted[i].0) + COLON + Stable(less, sorted[i].1));
        forall i | 0 <= i < |sorted| ensures PrintsAs(values[i], canon.members[i].1) {
          assert sorted[i] in members;
          StablePrintsCanon(less, sorted[i].1);
        }
        ObjectPrints(canon, values, parts);
      case _ =>
    }
  }

  // ----- Printing is unambiguous -----

  /** A rest that cannot extend a number. */
  predicate Delimited(rest: Text) {
    rest == [] || !NumberUnit(rest[0])
  }

  /** How many units at the front can belong to a number. */
  function NumberLength(t: Text): nat {
    if t == [] || !NumberUnit(t[0]) then 0 else 1 + NumberLength(t[1..])
  }

  lemma {:induction false} NumberLengthOf(t: Text, rest: Text)
    requires Delimited(rest) && forall i :: 0 <= i < |t| ==> NumberUnit(t[i])
    ensures NumberLength(t + rest) == |t|
  {
    if t == [] {
      assert t + rest == rest;
    } else {
      assert (t + rest)[1..] == t[1..] + rest;
      NumberLengthOf(t[1..], rest);
    }
  }

  lemma NumberEnds(t: Text, r: Text, u: Text, q: Text)
    requires NumberText(t) && NumberText(u)
    requires Delimited(r) && Delimited(q) && t + r == u + q
    ensures t == u && r == q
  {
    NumberLengthOf(t, r);
    NumberLengthOf(u, q);
    assert (t + r)[..|t|] == t && (u + q)[..|u|] == u;
    assert (t + r)[|t|..] == r && (u + q)[|u|..] == q;
  }

  /** Reads one code unit of a string body. */
  function ReadUnit(t: Text): Option<(Unit, Text)> {
    if t == [] || t[0] == QUOTE then None
    else if t[0] != BACKSLASH then Some((t[0], t[1..]))
    else if |t| < 2 then None
    else if t[1] == QUOTE || t[1] == BACKSLASH then Some((t[1], t[2..]))
    else if t[1] == 98 then Some((8, t[2..]))
    else if t[1] == 116 then Some((9, t[2..]))
    else if t[1] == 110 then Some((10, t[2..]))
    else if t[1] == 102 then Some((12, t[2..]))
    else if t[1] == 114 then Some((13, t[2..]))
    else if t[1] == 117 && |t| >= 6 then
      match (HexValue(t[2]), HexValue(t[3]), HexValue(t[4]), HexValue(t[5]))
      case (Some(a), Some(b), Some(c), Some(d)) =>
        var u := ((a * 16 + b) * 16 + c) * 16 + d;
        if u < 0x1_0000 then Some((u, t[6..])) else None
      case _ => None
    else None
  }

  /** Reads a string body up to its closing quote. */
  function ReadBody(t: Text): Option<(Text, Text)>
    decreases |t|
  {
    if t == [] then None
    else if t[0] == QUOTE then Some(([], t[1..]))
    else match ReadUnit(t)
      case None => None
      case Some((u, rest)) =>
        if |rest| >= |t| then None
        else match ReadBody(rest)
          case Some((s, after)) => Some(([u] + s, after))
          case None => None
  }

  lemma HexRoundTrip(u: Unit)
    ensures var h := Hex4(u);
            && HexValue(h[0]) == Some(u / 16 / 16 / 16) && HexValue(h[1]) == Some(u / 16 / 16 % 16)
            && HexValue(h[2]) == Some(u / 16 % 16) && HexValue(h[3]) == Some(u % 16)
  {
  }

  lemma HexSum(u: Unit)
    ensures ((u / 16 / 16 / 16 * 16 + u / 16 / 16 % 16) * 16 + u / 16 % 16) * 16 + u % 16 == u
  {
    var a := u / 16;
    var b := a / 16;
    assert a * 16 + u % 16 == u;
    assert b * 16 + a % 16 == a;
    assert b / 16 * 16 + b % 16 == b;
  }

  lemma EscapeRoundTrip(u: Unit, rest: Text)
    ensures ReadUnit(EscapeUnit(u) + rest) == Some((u, rest))
    ensures EscapeUnit(u) != [] && EscapeUnit(u)[0] != QUOTE
  {
    var t := EscapeUnit(u) + rest;
    assert t[|EscapeUnit(u)|..] == rest;
    if u < 32 || IsHigh(u) || IsLow(u) {
      HexRoundTrip(u);
      HexSum(u);
    }
  }

  lemma ReadMore(u: Unit, printed: Text, s: Text, tail: Text, rest: Text)
    requires printed != [] && printed[0] != QUOTE
    requires ReadUnit(printed + tail) == Some((u, tail)) && ReadBody(tail) == Some((s, rest))
    ensures ReadBody(printed + tail) == Some(([u] + s, rest))
  {
  }

  lemma ReadRaw(u: Unit, s: Text, tail: Text, rest: Text)
    requires u != QUOTE && u != BACKSLASH && ReadBody(tail) == Some((s, rest))
    ensures ReadBody([u] + tail) == Some(([u] + s, rest))
  {
    assert ([u] + tail)[1..] == tail;
    ReadMore(u, [u], s, tail, rest);
  }

  lemma ReadPair(s: Text, rest: Text)
    requires |s| > 1 && IsHigh(s[0]) && IsLow(s[1])
    requires ReadBody(QuoteBody(s[2..]) + [QUOTE] + rest) == Some((s[2..], rest))
    ensures ReadBody(QuoteBody(s) + [QUOTE] + rest) == Some((s, rest))
  {
    var tail := QuoteBody(s[2..]) + [QUOTE] + rest;
    ReadRaw(s[1], s[2..], tail, rest);
    ReadRaw(s[0], [s[1]] + s[2..], [s[1]] + tail, rest);
    assert QuoteBody(s) + [QUOTE] + rest == [s[0]] + ([s[1]] + tail);
    assert s == [s[0]] + ([s[1]] + s[2..]);
  }

  /** Reading gives back the string that was quoted. */
  lemma {:induction false} QuoteRoundTrip(s: Text, rest: Text)
    ensures ReadBody(QuoteBody(s) + [QUOTE] + rest) == Some((s, rest))
    decreases |s|
  {
    var t := QuoteBody(s) + [QUOTE] + rest;
    if s == [] {
      assert t[1..] == rest;
    } else if |s| > 1 && IsHigh(s[0]) && IsLow(s[1]) {
      QuoteRoundTrip(s[2..], rest);
      ReadPair(s, rest);
    } else {
      var tail := QuoteBody(s[1..]) + [QUOTE] + rest;
      QuoteRoundTrip(s[1..], rest);
      EscapeRoundTrip(s[0], tail);
      ReadMore(s[0], EscapeUnit(s[0]), s[1..], tail, rest);
      assert t == EscapeUnit(s[0]) + tail;
      assert s == [s[0]] + s[1..];
    }
  }

  lemma QuoteEnds(s: Text, r: Text, u: Text, q: Text)
    requires Quote(s) + r == Quote(u) + q
    ensures s == u && r == q
  {
    assert (Quote(s) + r)[1..] == QuoteBody(s) + [QUOTE] + r;
    assert (Quote(u) + q)[1..] == QuoteBody(u) + [QUOTE] + q;
    QuoteRoundTrip(s, r);
    QuoteRoundTrip(u, q);
  }

  /** The first unit says what kind of value follows. */
  predicate StartsValue(v: Js, u: Unit) {
    match v
    case Null => u == 110
    case Bool(b) => u == if b then 116 else 102
    case Number(_) => 48 <= u <= 57 || u == 45
    case Str(_) => u == QUOTE
    case Array(_) => u == 91
    case Object(_) => u == 123
  }

  lemma PrintStarts(v: Js, r: Text)
    requires WellFormed(v)
    ensures PrintTo(v, r) != [] && StartsValue(v, PrintTo(v, r)[0])
  {
  }

  lemma DropPrefix(p: Text, r: Text, q: Text)
    requires p + r == p + q
    ensures r == q
  {
    assert (p + r)[|p|..] == r && (p + q)[|p|..] == q;
  }

  /** Equal texts, up to rests that cannot extend a number, come from equal values and leave equal rests. */
  lemma {:induction false} PrintUnique(v: Js, r: Text, w: Js, q: Text)
    requires WellFormed(v) && WellFormed(w) && Delimited(r) && Delimited(q)
    requires PrintTo(v, r) == PrintTo(w, q)
    ensures v == w && r == q
    decreases v, 1
  {
    PrintStarts(v, r);
    PrintStarts(w, q);
    match v {
      case Null => DropPrefix(Ascii("null"), r, q);
      case Bool(b) => DropPrefix(if b then Ascii("true") else Ascii("false"), r, q);
      case Number(text) => NumberEnds(text, r, w.text, q);
      case Str(s) => QuoteEnds(s, r, w.s, q);
      case Array(items) => ArrayUnique(items, r, w.items, q);
      case Object(_) => ObjectUnique(v, r, w, q);
    }
  }

  lemma {:induction false} ArrayUnique(vs: seq<Js>, r: Text, ws: seq<Js>, q: Text)
    requires WellFormed(Array(vs)) && WellFormed(Array(ws)) && Delimited(r) && Delimited(q)
    requires PrintTo(Array(vs), r) == PrintTo(Array(ws), q)
    ensures vs == ws && r == q
    decreases vs, 2
  {
    DropPrefix([91], PrintTo(Array(vs), r)[1..], PrintTo(Array(ws), q)[1..]);
    if vs == [] || ws == [] {
      FirstItem(vs, r);
      FirstItem(ws, q);
      DropPrefix([93], r, q);
    } else {
      PrintUnique(vs[0], ItemsTo(vs[1..], r), ws[0], ItemsTo(ws[1..], q));
      ItemsUnique(vs[1..], r, ws[1..], q);
      assert vs == [vs[0]] + vs[1..] && ws == [ws[0]] + ws[1..];
    }
  }

  /** After the opening bracket comes a value or the closing bracket. */
  lemma FirstItem(vs: seq<Js>, r: Text)
    requires WellFormed(Array(vs))
    ensures |PrintTo(Array(vs), r)| > 1 && (PrintTo(Array(vs), r)[1] == 93 <==> vs == [])
  {
    if vs != [] {
      PrintStarts(vs[0], ItemsTo(vs[1..], r));
    }
  }

  lemma {:induction false} ItemsUnique(vs: seq<Js>, r: Text, ws: seq<Js>, q: Text)
    requires WellFormed(Array(vs)) && WellFormed(Array(ws)) && Delimited(r) && Delimited(q)
    requires ItemsTo(vs, r) == ItemsTo(ws, q)
    ensures vs == ws && r == q
    decreases vs, 0
  {
    assert ItemsTo(vs, r)[0] == if vs == [] then 93 else 44;
    assert ItemsTo(ws, q)[0] == if ws == [] then 93 else 44;
    if vs == [] {
      DropPrefix([93], r, q);
    } else {
      DropPrefix([44], PrintTo(vs[0], ItemsTo(vs[1..], r)), PrintTo(ws[0], ItemsTo(ws[1..], q)));
      PrintUnique(vs[0], ItemsTo(vs[1..], r), ws[0], ItemsTo(ws[1..], q));
      ItemsUnique(vs[1..], r, ws[1..], q);
      assert vs == [vs[0]] + vs[1..] && ws == [ws[0]] + ws[1..];
    }
  }

  lemma {:induction false} ObjectUnique(v: Js, r: Text, w: Js, q: Text)
    requires WellFormed(v) && WellFormed(w) && Delimited(r) && Delimited(q) && v.Object? && w.Object?
    requires PrintTo(v, r) == PrintTo(w, q)
    ensures v == w && r == q
    decreases v, 0, |v.members|, 3
  {
    DropPrefix([123], PrintTo(v, r)[1..], PrintTo(w, q)[1..]);
    assert v.members != [] ==> PrintTo(v, r)[1] == QUOTE;
    assert w.members != [] ==> PrintTo(w, q)[1] == QUOTE;
    if v.members == [] {
      DropPrefix([125], r, q);
    } else {
      MemberUnique(v, 0, r, w, 0, q);
      assert v.members[0..] == v.members && w.members[0..] == w.members;
    }
  }

  lemma {:induction false} MemberUnique(v: Js, i: nat, r: Text, w: Js, j: nat, q: Text)
    requires WellFormed(v) && WellFormed(w) && Delimited(r) && Delimited(q)
    requires v.Object? && w.Object? && i < |v.members| && j < |w.members|
    requires MemberTo(v, i, r) == MemberTo(w, j, q)
    ensures v.members[i..] == w.members[j..] && r == q
    decreases v, 0, |v.members| - i, 0
  {
    var x, y := v.members[i].1, w.members[j].1;
    var after, afterw := MembersTo(v, i + 1, r), MembersTo(w, j + 1, q);
    QuoteEnds(v.members[i].0, [58] + PrintTo(x, after), w.members[j].0, [58] + PrintTo(y, afterw));
    DropPrefix([58], PrintTo(x, after), PrintTo(y, afterw));
    PrintUnique(x, after, y, afterw);
    assert after[0] == if i + 1 == |v.members| then 125 else 44;
    assert afterw[0] == if j + 1 == |w.members| then 125 else 44;
    if i + 1 == |v.members| {
      DropPrefix([125], r, q);
    } else {
      DropPrefix([44], MemberTo(v, i + 1, r), MemberTo(w, j + 1, q));
      MemberUnique(v, i + 1, r, w, j + 1, q);
    }
    assert v.members[i..] == [v.members[i]] + v.members[i + 1..];
    assert w.members[j..] == [w.members[j]] + w.members[j + 1..];
  }
}
