/** The five successive replacements that escape text for markup. */
module Markup {
  import opened Utf16

  const AMP: Unit := 38
  const LT: Unit := 60
  const GT: Unit := 62
  const QUOT: Unit := 34
  const APOS: Unit := 39

  const AMP_ENTITY: Text := [38, 97, 109, 112, 59]
  const LT_ENTITY: Text := [38, 108, 116, 59]
  const GT_ENTITY: Text := [38, 103, 116, 59]
  const QUOT_ENTITY: Text := [38, 113, 117, 111, 116, 59]
  const APOS_ENTITY: Text := [38, 35, 51, 57, 59]

  function ReplaceAll(s: Text, u: Unit, entity: Text): Text {
    if s == [] then [] else (if s[0] == u then entity else [s[0]]) + ReplaceAll(s[1..], u, entity)
  }

  /** The four replacements after the ampersand. */
  function EscapeBrackets(s: Text): Text {
    ReplaceAll(
      ReplaceAll(ReplaceAll(ReplaceAll(s, LT, LT_ENTITY), GT, GT_ENTITY), QUOT, QUOT_ENTITY),
      APOS, APOS_ENTITY)
  }

  function EscapeMarkup(s: Text): Text {
    EscapeBrackets(ReplaceAll(s, AMP, AMP_ENTITY))
  }

  predicate Special(u: Unit) {
    u == LT || u == GT || u == QUOT || u == APOS
  }

  /** What one unit becomes. */
  function Entity(u: Unit): Text {
    if u == AMP then AMP_ENTITY
    else if u == LT then LT_ENTITY
    else if u == GT then GT_ENTITY
    else if u == QUOT then QUOT_ENTITY
    else if u == APOS then APOS_ENTITY
    else [u]
  }

  function Substitute(s: Text): Text {
    if s == [] then [] else Entity(s[0]) + Substitute(s[1..])
  }

  lemma {:induction false} ReplaceConcat(a: Text, b: Text, u: Unit, entity: Text)
    ensures ReplaceAll(a + b, u, entity) == ReplaceAll(a, u, entity) + ReplaceAll(b, u, entity)
  {
    if a == [] {
      assert a + b == b;
    } else {
      ReplaceConcat(a[1..], b, u, entity);
      assert (a + b)[1..] == a[1..] + b;
      var head := if a[0] == u then entity else [a[0]];
      assert head + (ReplaceAll(a[1..], u, entity) + ReplaceAll(b, u, entity))
          == (head + ReplaceAll(a[1..], u, entity)) + ReplaceAll(b, u, entity);
    }
  }

  lemma {:induction false} ReplaceAbsent(s: Text, u: Unit, entity: Text)
    requires u !in s
    ensures ReplaceAll(s, u, entity) == s
  {
    if s != [] {
      ReplaceAbsent(s[1..], u, entity);
      assert [s[0]] + s[1..] == s;
    }
  }

  lemma ReplaceOne(u: Unit, target: Unit, entity: Text)
    ensures ReplaceAll([u], target, entity) == if u == target then entity else [u]
  {
    assert ReplaceAll([u][1..], target, entity) == [];
  }

  lemma BracketsConcat(a: Text, b: Text)
    ensures EscapeBrackets(a + b) == EscapeBrackets(a) + EscapeBrackets(b)
  {
    var a1, b1 := ReplaceAll(a, LT, LT_ENTITY), ReplaceAll(b, LT, LT_ENTITY);
    var a2, b2 := ReplaceAll(a1, GT, GT_ENTITY), ReplaceAll(b1, GT, GT_ENTITY);
    var a3, b3 := ReplaceAll(a2, QUOT, QUOT_ENTITY), ReplaceAll(b2, QUOT, QUOT_ENTITY);
    ReplaceConcat(a, b, LT, LT_ENTITY);
    ReplaceConcat(a1, b1, GT, GT_ENTITY);
    ReplaceConcat(a2, b2, QUOT, QUOT_ENTITY);
    ReplaceConcat(a3, b3, APOS, APOS_ENTITY);
  }

  /** Text without brackets and quotes passes through; no entity contains any. */
  lemma BracketsAbsent(s: Text)
    requires forall i :: 0 <= i < |s| ==> !Special(s[i])
    ensures EscapeBrackets(s) == s
  {
    ReplaceAbsent(s, LT, LT_ENTITY);
    ReplaceAbsent(s, GT, GT_ENTITY);
    ReplaceAbsent(s, QUOT, QUOT_ENTITY);
    ReplaceAbsent(s, APOS, APOS_ENTITY);
  }

  lemma EscapeLess()
    ensures EscapeBrackets([LT]) == LT_ENTITY
  {
    ReplaceOne(LT, LT, LT_ENTITY);
    ReplaceAbsent(LT_ENTITY, GT, GT_ENTITY);
    ReplaceAbsent(LT_ENTITY, QUOT, QUOT_ENTITY);
    ReplaceAbsent(LT_ENTITY, APOS, APOS_ENTITY);
  }

  lemma EscapeGreater()
    ensures EscapeBrackets([GT]) == GT_ENTITY
  {
    ReplaceOne(GT, LT, LT_ENTITY);
    ReplaceOne(GT, GT, GT_ENTITY);
    ReplaceAbsent(GT_ENTITY, QUOT, QUOT_ENTITY);
    ReplaceAbsent(GT_ENTITY, APOS, APOS_ENTITY);
  }

  lemma EscapeQuote()
    ensures EscapeBrackets([QUOT]) == QUOT_ENTITY
  {
    ReplaceOne(QUOT, LT, LT_ENTITY);
    ReplaceOne(QUOT, GT, GT_ENTITY);
    ReplaceOne(QUOT, QUOT, QUOT_ENTITY);
    ReplaceAbsent(QUOT_ENTITY, APOS, APOS_ENTITY);
  }

  lemma EscapeApostrophe()
    ensures EscapeBrackets([APOS]) == APOS_ENTITY
  {
    ReplaceOne(APOS, LT, LT_ENTITY);
    ReplaceOne(APOS, GT, GT_ENTITY);
    ReplaceOne(APOS, QUOT, QUOT_ENTITY);
    ReplaceOne(APOS, APOS, APOS_ENTITY);
  }

  lemma EscapeBracketsOne(u: Unit)
    ensures EscapeBrackets([u]) == if u == AMP then [u] else Entity(u)
  {
    if u == LT { EscapeLess(); }
    else if u == GT { EscapeGreater(); }
    else if u == QUOT { EscapeQuote(); }
    else if u == APOS { EscapeApostrophe(); }
    else { BracketsAbsent([u]); }
  }

  lemma EscapeOne(u: Unit)
    ensures EscapeMarkup([u]) == Entity(u)
  {
    ReplaceOne(u, AMP, AMP_ENTITY);
    if u == AMP {
      BracketsAbsent(AMP_ENTITY);
    } else {
      EscapeBracketsOne(u);
    }
  }

  lemma EscapeConcat(a: Text, b: Text)
    ensures EscapeMarkup(a + b) == EscapeMarkup(a) + EscapeMarkup(b)
  {
    ReplaceConcat(a, b, AMP, AMP_ENTITY);
    BracketsConcat(ReplaceAll(a, AMP, AMP_ENTITY), ReplaceAll(b, AMP, AMP_ENTITY));
  }

  /** Five passes over the whole string are one substitution per unit. */
  lemma {:induction false} FivePassesAreOne(s: Text)
    ensures EscapeMarkup(s) == Substitute(s)
  {
    if s == [] {
      BracketsAbsent([]);
    } else {
      assert s == [s[0]] + s[1..];
      EscapeConcat([s[0]], s[1..]);
      EscapeOne(s[0]);
      FivePassesAreOne(s[1..]);
    }
  }

  /** Escaped text has no raw bracket or quote. */
  lemma {:induction false} EscapedIsSafe(s: Text)
    ensures forall i :: 0 <= i < |EscapeMarkup(s)| ==> !Special(EscapeMarkup(s)[i])
  {
    FivePassesAreOne(s);
    if s != [] {
      EscapedIsSafe(s[1..]);
      FivePassesAreOne(s[1..]);
    }
  }

  function Unescape(t: Text): Text {
    if t == [] then []
    else if AMP_ENTITY <= t then [AMP] + Unescape(t[5..])
    else if LT_ENTITY <= t then [LT] + Unescape(t[4..])
    else if GT_ENTITY <= t then [GT] + Unescape(t[4..])
    else if QUOT_ENTITY <= t then [QUOT] + Unescape(t[6..])
    else if APOS_ENTITY <= t then [APOS] + Unescape(t[5..])
    else [t[0]] + Unescape(t[1..])
  }

  /** Entities are told apart by their second unit, or the last but one of `&#39;`. */
  lemma EntityPrefix(t: Text, e: Text)
    requires e <= t
    requires e == AMP_ENTITY || e == LT_ENTITY || e == GT_ENTITY || e == QUOT_ENTITY || e == APOS_ENTITY
    ensures (AMP_ENTITY <= t <==> e == AMP_ENTITY) && (LT_ENTITY <= t <==> e == LT_ENTITY)
        && (GT_ENTITY <= t <==> e == GT_ENTITY)
    ensures (QUOT_ENTITY <= t <==> e == QUOT_ENTITY) && (APOS_ENTITY <= t <==> e == APOS_ENTITY)
  {
    assert t[1] == e[1];
    assert AMP_ENTITY[1] == 97 && LT_ENTITY[1] == 108 && GT_ENTITY[1] == 103 && QUOT_ENTITY[1] == 113
        && APOS_ENTITY[1] == 35;
  }

  lemma UnescapeEntity(u: Unit, rest: Text)
    ensures Unescape(Entity(u) + rest) == [u] + Unescape(rest)
  {
    var e := Entity(u);
    var t := e + rest;
    assert t[|e|..] == rest;
    if u == AMP || Special(u) {
      assert e <= t;
      EntityPrefix(t, e);
    } else {
      assert t[0] == u && AMP_ENTITY[0] == LT_ENTITY[0] == GT_ENTITY[0] == QUOT_ENTITY[0] == APOS_ENTITY[0] == AMP;
    }
  }

  /** Unescaping recovers the input. */
  lemma {:induction false} EscapeRoundTrip(s: Text)
    ensures Unescape(EscapeMarkup(s)) == s
  {
    FivePassesAreOne(s);
    if s != [] {
      EscapeRoundTrip(s[1..]);
      FivePassesAreOne(s[1..]);
      UnescapeEntity(s[0], Substitute(s[1..]));
      assert [s[0]] + s[1..] == s;
    }
  }

  // ----- Why the ampersand goes first -----

  /** The same replacements with the ampersand last. */
  function AmpersandLast(s: Text): Text {
    ReplaceAll(EscapeBrackets(s), AMP, AMP_ENTITY)
  }

  function Specials(s: Text): nat {
    if s == [] then 0 else (if Special(s[0]) then 1 else 0) + Specials(s[1..])
  }

  /** An entity has one ampersand, its first unit. */
  lemma EscapedEntity(u: Unit)
    requires Special(u)
    ensures |ReplaceAll(Entity(u), AMP, AMP_ENTITY)| == |Entity(u)| + 4
  {
    var e := Entity(u);
    var tail := e[1..];
    ReplaceAbsent(tail, AMP, AMP_ENTITY);
    assert ReplaceAll(e, AMP, AMP_ENTITY) == AMP_ENTITY + ReplaceAll(tail, AMP, AMP_ENTITY);
  }

  lemma AmpersandLastOne(u: Unit)
    ensures |AmpersandLast([u])| == |EscapeMarkup([u])| + (if Special(u) then 4 else 0)
    ensures !Special(u) ==> AmpersandLast([u]) == EscapeMarkup([u])
  {
    EscapeOne(u);
    EscapeBracketsOne(u);
    if Special(u) {
      EscapedEntity(u);
    } else {
      ReplaceOne(u, AMP, AMP_ENTITY);
    }
  }

  lemma {:induction false} AmpersandLastGrows(s: Text)
    ensures |AmpersandLast(s)| == |EscapeMarkup(s)| + 4 * Specials(s)
    ensures Specials(s) == 0 ==> AmpersandLast(s) == EscapeMarkup(s)
  {
    if s == [] {
      BracketsAbsent([]);
    } else {
      assert s == [s[0]] + s[1..];
      EscapeConcat([s[0]], s[1..]);
      BracketsConcat([s[0]], s[1..]);
      ReplaceConcat(EscapeBrackets([s[0]]), EscapeBrackets(s[1..]), AMP, AMP_ENTITY);
      AmpersandLastOne(s[0]);
      AmpersandLastGrows(s[1..]);
    }
  }

  /** With the ampersand last, the result is right exactly for text without brackets and quotes. */
  lemma AmpersandMustBeFirst(s: Text)
    ensures AmpersandLast(s) == EscapeMarkup(s) <==> Specials(s) == 0
  {
    AmpersandLastGrows(s);
  }
}
