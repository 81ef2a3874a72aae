/** The bounded list of entries in a rendered guestbook: one pass with insertion
    and truncation, against "the first twenty of the stable descending sort". */
module GuestbookSnapshot {
  import opened Wrappers
  import opened StableSort
  import opened Utf16

  const LIMIT: nat := 20

  datatype Rendered = Rendered(author: Text, message: Text, timestamp: Option<Text>)

  datatype Listed = Listed(published: bool, entry: Rendered)

  /** A missing timestamp sorts like an empty one. */
  function SortKey(e: Rendered): Text {
    e.timestamp.GetOr([])
  }

  function Keyed(list: seq<Rendered>): seq<(Text, Rendered)> {
    seq(|list|, i requires 0 <= i < |list| => (SortKey(list[i]), list[i]))
  }

  function Published(entries: seq<Listed>): seq<Rendered> {
    if entries == [] then []
    else
      Published(entries[..|entries| - 1])
      + (if entries[|entries| - 1].published then [entries[|entries| - 1].entry] else [])
  }

  function Take<T>(n: nat, s: seq<T>): seq<T> {
    if |s| <= n then s else s[..n]
  }

  /** Truncating before an insertion loses nothing that a truncation after it would keep. */
  lemma {:induction false} TakeInsert<K(!new), V(!new)>(less: (K, K) -> bool, n: nat, s: seq<(K, V)>, x: (K, V))
    ensures Take(n, Insert(less, Take(n, s), x)) == Take(n, Insert(less, s, x))
    decreases |s|
  {
    if |s| > n {
      if n == 0 || less(x.0, s[0].0) {
      } else {
        TakeInsert(less, n - 1, s[1..], x);
        assert Take(n, s) == [s[0]] + Take(n - 1, s[1..]);
        assert Take(n, s)[1..] == Take(n - 1, s[1..]);
        assert Take(n, [s[0]] + Insert(less, s[1..], x)) == [s[0]] + Take(n - 1, Insert(less, s[1..], x));
        assert Take(n, [s[0]] + Insert(less, Take(n - 1, s[1..]), x))
            == [s[0]] + Take(n - 1, Insert(less, Take(n - 1, s[1..]), x));
      }
    }
  }

  lemma {:induction false} InsertBetween<K(!new), V(!new)>(less: (K, K) -> bool, a: seq<(K, V)>, b: seq<(K, V)>,
      x: (K, V))
    requires forall i :: 0 <= i < |a| ==> !less(x.0, a[i].0)
    requires b != [] ==> less(x.0, b[0].0)
    ensures Insert(less, a + b, x) == a + ([x] + b)
    decreases |a|
  {
    if a == [] {
      assert a + b == b && a + ([x] + b) == [x] + b;
    } else {
      var rest := a[1..];
      assert (a + b)[1..] == rest + b;
      InsertBetween(less, rest, b, x);
      assert [a[0]] + (rest + ([x] + b)) == a + ([x] + b);
    }
  }

  /** Inserting at the first position whose element x precedes. */
  lemma InsertAtFirst<K(!new), V(!new)>(less: (K, K) -> bool, s: seq<(K, V)>, x: (K, V), index: nat)
    requires index <= |s|
    requires forall i :: 0 <= i < index ==> !less(x.0, s[i].0)
    requires index < |s| ==> less(x.0, s[index].0)
    ensures Insert(less, s, x) == s[..index] + ([x] + s[index..])
  {
    var a, b := s[..index], s[index..];
    assert s == a + b;
    InsertBetween(less, a, b, x);
  }

  /** The sorted list of what has been read so far, cut at the limit. */
  ghost function Best(entries: seq<Listed>): seq<(Text, Rendered)> {
    Take(LIMIT, Sort(Later, Keyed(Published(entries))))
  }

  lemma BestStep(entries: seq<Listed>, e: Listed)
    ensures Best(entries + [e])
            == if e.published then Take(LIMIT, Insert(Later, Best(entries), (SortKey(e.entry), e.entry)))
                else Best(entries)
  {
    assert (entries + [e])[..|entries + [e]| - 1] == entries;
    var before := Published(entries);
    if e.published {
      var x := (SortKey(e.entry), e.entry);
      assert Keyed(before + [e.entry])[..|before|] == Keyed(before);
      assert Sort(Later, Keyed(before + [e.entry])) == Insert(Later, Sort(Later, Keyed(before)), x);
      TakeInsert(Later, LIMIT, Sort(Later, Keyed(before)), x);
    } else {
      assert before + [] == before;
    }
  }

  lemma KeyedSplice(s: seq<Rendered>, x: Rendered, i: nat)
    requires i <= |s|
    ensures Keyed(s[..i] + [x] + s[i..]) == Keyed(s)[..i] + ([(SortKey(x), x)] + Keyed(s)[i..])
  {
  }

  /** Before the first older entry, else at the end. */
  method InsertRendered(list: seq<Rendered>, rendered: Rendered) returns (shown: seq<Rendered>)
    ensures Keyed(shown) == Insert(Later, Keyed(list), (SortKey(rendered), rendered))
  {
    shown := list;
    var inserted := false;
    var index := 0;
    while index < |list| && !inserted
      invariant index <= |list|
      invariant forall i :: 0 <= i < index ==> !Later(SortKey(rendered), Keyed(list)[i].0)
      invariant shown == if inserted then list[..index] + [rendered] + list[index..] else list
      invariant inserted ==> index < |list| && Later(SortKey(rendered), Keyed(list)[index].0)
      decreases |list| - index, !inserted
    {
      if Less(SortKey(shown[index]), SortKey(rendered)) {
        shown := shown[..index] + [rendered] + shown[index..];
        inserted := true;
      } else {
        index := index + 1;
      }
    }
    KeyedSplice(list, rendered, index);
    InsertAtFirst(Later, Keyed(list), (SortKey(rendered), rendered), index);
    if !inserted {
      shown := shown + [rendered];
      assert shown == list[..index] + [rendered] + list[index..];
    }
  }

  /** One pass over the listed entries: insert what is published, drop the twenty-first. */
  method CollectEntries(entries: seq<Listed>) returns (shown: seq<Rendered>)
    ensures Keyed(shown) == Best(entries)
    ensures |shown| <= LIMIT
  {
    shown := [];
    for n := 0 to |entries|
      invariant |shown| <= LIMIT && Keyed(shown) == Best(entries[..n])
    {
      assert entries[..n + 1] == entries[..n] + [entries[n]];
      BestStep(entries[..n], entries[n]);
      if entries[n].published {
        var longer := InsertRendered(shown, entries[n].entry);
        shown := if |longer| > LIMIT then longer[..|longer| - 1] else longer;
        assert Keyed(shown) == Take(LIMIT, Keyed(longer));
      }
    }
    assert entries[..|entries|] == entries;
  }

  /** What Best means without mentioning insertion: the first twenty of the published entries in the one
      order that is descending by timestamp and keeps ties as listed. */
  lemma BestIsStableDescending(entries: seq<Listed>, r: seq<(Text, Rendered)>)
    requires Sorted(Later, r) && SameClasses(Later, r, Keyed(Published(entries)))
    ensures Best(entries) == Take(LIMIT, r)
  {
    var published := Keyed(Published(entries));
    LaterIsWeakOrder();
    SortIsStable(Later, published);
    SortedStableUnique(Later, Sort(Later, published), r);
  }
}
