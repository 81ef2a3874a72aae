/** The order in which JavaScript enumerates the members of an object: array
    indices first, ascending, then the other names as they were inserted. */
module MemberOrder {
  import opened StableSort
  import opened Utf16

  predicate IsDigit(u: Unit) {
    48 <= u <= 57
  }

  /** Decimal, without leading zeros, below 2^32 - 1. */
  predicate IndexName(t: Text) {
    && t != [] && (forall i :: 0 <= i < |t| ==> IsDigit(t[i])) && (t[0] == 48 ==> |t| == 1)
    && (|t| < 10 || (|t| == 10 && Less(t, Ascii("4294967295"))))
  }

  /** Which of two names is enumerated first whatever the program does. Without leading zeros, decimals
      compare by length and then digit by digit. */
  predicate Before(a: Text, b: Text) {
    IndexName(a) && (!IndexName(b) || |a| < |b| || (|a| == |b| && Less(a, b)))
  }

  lemma {:induction false} LessTotal(a: Text, b: Text)
    requires !Less(a, b) && !Less(b, a)
    ensures a == b
  {
    if a != [] && b != [] {
      LessTotal(a[1..], b[1..]);
      assert a == [a[0]] + a[1..] && b == [b[0]] + b[1..];
    }
  }

  lemma BeforeIsWeakOrder()
    ensures StrictWeakOrder(Before)
  {
    forall a, b | Before(a, b) ensures !Before(b, a) {
      if Less(a, b) {
        LessAsymmetric(a, b);
      }
    }
    forall a, b, c | !Before(a, b) && !Before(b, c) ensures !Before(a, c) {
      if |a| == |b| == |c| && !Less(a, b) && !Less(b, c) {
        NotLessTransitive(a, b, c);
      }
    }
  }

  /** Names of which one is an index have a forced order. */
  lemma ForcedOrder(a: Text, b: Text)
    requires a != b && (IndexName(a) || IndexName(b)) && !Before(b, a)
    ensures Before(a, b)
  {
    if IndexName(a) && IndexName(b) && !Less(a, b) && !Less(b, a) {
      LessTotal(a, b);
    }
  }

  /** Two names that the comparator does not separate and that a program can insert in either order. */
  predicate FreeTie(less: (Text, Text) -> bool, a: Text, b: Text) {
    !IndexName(a) && !IndexName(b) && Ties(less, a, b)
  }
}
