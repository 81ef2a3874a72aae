/** JavaScript strings: sequences of UTF-16 code units, compared unit by unit. */
module Utf16 {
  import opened StableSort

  type Unit = n: int | 0 <= n < 0x1_0000
  type Text = seq<Unit>

  /** The text of an ASCII literal. */
  function Ascii(s: string): Text {
    seq(|s|, i requires 0 <= i < |s| => if s[i] <= '\U{007F}' then s[i] as int else 0)
  }

  /** The `<` of JavaScript on strings. */
  predicate Less(a: Text, b: Text) {
    if b == [] then false
    else if a == [] then true
    else a[0] < b[0] || (a[0] == b[0] && Less(a[1..], b[1..]))
  }

  lemma {:induction false} LessAsymmetric(a: Text, b: Text)
    requires Less(a, b)
    ensures !Less(b, a)
  {
    if a != [] && a[0] == b[0] {
      LessAsymmetric(a[1..], b[1..]);
    }
  }

  lemma {:induction false} NotLessTransitive(a: Text, b: Text, c: Text)
    requires !Less(a, b) && !Less(b, c)
    ensures !Less(a, c)
  {
    if a != [] && b != [] && c != [] && a[0] == b[0] && b[0] == c[0] {
      NotLessTransitive(a[1..], b[1..], c[1..]);
    }
  }

  /** Later first: the order of a descending sort. */
  predicate Later(a: Text, b: Text) {
    Less(b, a)
  }

  lemma LaterIsWeakOrder()
    ensures StrictWeakOrder(Later)
  {
    forall a, b | Later(a, b) ensures !Later(b, a) {
      LessAsymmetric(b, a);
    }
    forall a, b, c | !Later(a, b) && !Later(b, c) ensures !Later(a, c) {
      NotLessTransitive(c, b, a);
    }
  }
}
