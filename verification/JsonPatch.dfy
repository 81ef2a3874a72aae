/** JSON Patch as the API server evaluates it: entries run one after another on
    the document and the first failing entry discards the whole patch
    (RFC 6902 sections 4 and 5; pointers follow RFC 6901). */
module JsonPatch {
  import opened Wrappers
  import opened Json
  import Digits

  datatype Op = Add | Remove | Replace | Move | Copy | Test

  datatype Entry = Entry(op: Op, path: string, value: Option<Value>, from: Option<string>)

  // ----- JSON Pointer -----

  function Split(s: string): (parts: seq<string>)
    ensures |parts| >= 1
  {
    if s == "" then [""]
    else
      var rest := Split(s[1..]);
      if s[0] == '/' then [""] + rest else [[s[0]] + rest[0]] + rest[1..]
  }

  function Unescape(t: string): Option<string> {
    if t == "" then Some("")
    else if t[0] != '~' then
      match Unescape(t[1..])
      case Some(rest) => Some([t[0]] + rest)
      case None => None
    else if |t| > 1 && t[1] in "01" then
      match Unescape(t[2..])
      case Some(rest) => Some((if t[1] == '0' then "~" else "/") + rest)
      case None => None
    else None
  }

  function UnescapeAll(parts: seq<string>): Option<seq<string>> {
    if parts == [] then Some([])
    else
      match (Unescape(parts[0]), UnescapeAll(parts[1..]))
      case (Some(t), Some(rest)) => Some([t] + rest)
      case _ => None
  }

  function Tokens(path: string): Option<seq<string>> {
    if path == "" then Some([])
    else if path[0] != '/' then None
    else UnescapeAll(Split(path[1..]))
  }

  const DIGIT_CHARS := "0123456789"

  function Decimal(n: nat): (s: string)
    ensures |s| >= 1 && forall i :: 0 <= i < |s| ==> s[i] in DIGIT_CHARS
  {
    var ds := Digits.ToDigits(n, 10);
    seq(|ds|, i requires 0 <= i < |ds| => DIGIT_CHARS[ds[i]])
  }

  function DigitValue(c: char): nat {
    if '0' <= c <= '9' then c as int - '0' as int else 0
  }

  /** An array index token: digits only, no leading zero. */
  function ParseIndex(token: string): Option<nat> {
    if token == "" || (|token| > 1 && token[0] == '0')
        || exists i :: 0 <= i < |token| && token[i] !in DIGIT_CHARS then None
    else Some(Digits.FromDigits(seq(|token|, i requires 0 <= i < |token| => DigitValue(token[i])), 10))
  }

  // ----- Evaluation -----

  function Lookup(doc: Value, tokens: seq<string>): Option<Value> {
    if tokens == [] then Some(doc)
    else match doc
      case Object(entries) => if tokens[0] in entries then Lookup(entries[tokens[0]], tokens[1..]) else None
      case Array(items) =>
        (match ParseIndex(tokens[0])
         case Some(i) => if i < |items| then Lookup(items[i], tokens[1..]) else None
         case None => None)
      case _ => None
  }

  function AddAt(doc: Value, tokens: seq<string>, value: Value): Option<Value> {
    if tokens == [] then Some(value)
    else match doc
      case Object(entries) =>
        if |tokens| == 1 then Some(Object(entries[tokens[0] := value]))
        else if tokens[0] !in entries then None
        else
          (match AddAt(entries[tokens[0]], tokens[1..], value)
           case Some(child) => Some(Object(entries[tokens[0] := child]))
           case None => None)
      case Array(items) =>
        if |tokens| == 1 && tokens[0] == "-" then Some(Array(items + [value]))
        else
          (match ParseIndex(tokens[0])
           case Some(i) =>
             if |tokens| == 1 then
               if i <= |items| then Some(Array(items[..i] + [value] + items[i..])) else None
             else if i < |items| then
               (match AddAt(items[i], tokens[1..], value)
                case Some(child) => Some(Array(items[i := child]))
                case None => None)
             else None
           case None => None)
      case _ => None
  }

  function RemoveAt(doc: Value, tokens: seq<string>): Option<Value> {
    if tokens == [] then None
    else match doc
      case Object(entries) =>
        if tokens[0] !in entries then None
        else if |tokens| == 1 then Some(Object(entries - {tokens[0]}))
        else
          (match RemoveAt(entries[tokens[0]], tokens[1..])
           case Some(child) => Some(Object(entries[tokens[0] := child]))
           case None => None)
      case Array(items) =>
        (match ParseIndex(tokens[0])
         case Some(i) =>
           if i >= |items| then None
           else if |tokens| == 1 then Some(Array(items[..i] + items[i + 1..]))
           else
             (match RemoveAt(items[i], tokens[1..])
              case Some(child) => Some(Array(items[i := child]))
              case None => None)
         case None => None)
      case _ => None
  }

  /** One entry. None means the entry fails: a test that does not hold, a missing target
      or operand, or a malformed pointer. */
  function ApplyEntry(doc: Value, entry: Entry): Option<Value> {
    match Tokens(entry.path)
    case None => None
    case Some(tokens) =>
      match entry.op
      case Test =>
        if entry.value.Some? && Lookup(doc, tokens) == entry.value then Some(doc) else None
      case Add =>
        if entry.value.Some? then AddAt(doc, tokens, entry.value.value) else None
      case Remove => RemoveAt(doc, tokens)
      case Replace =>
        if entry.value.None? || Lookup(doc, tokens).None? then None
        else if tokens == [] then entry.value
        else
          (match RemoveAt(doc, tokens)
           case Some(without) => AddAt(without, tokens, entry.value.value)
           case None => None)
      case Move =>
        (match FromOperand(doc, entry)
         case Some((source, value)) =>
           if source == tokens then Some(doc)
           else if source < tokens then None
           else
             (match RemoveAt(doc, source)
              case Some(without) => AddAt(without, tokens, value)
              case None => None)
         case None => None)
      case Copy =>
        (match FromOperand(doc, entry)
         case Some((_, value)) => AddAt(doc, tokens, value)
         case None => None)
  }

  function FromOperand(doc: Value, entry: Entry): Option<(seq<string>, Value)> {
    match entry.from
    case None => None
    case Some(from) =>
      match Tokens(from)
      case None => None
      case Some(source) =>
        match Lookup(doc, source)
        case Some(value) => Some((source, value))
        case None => None
  }

  function Evaluate(doc: Value, entries: seq<Entry>): Option<Value>
    decreases |entries|
  {
    if entries == [] then Some(doc)
    else
      match ApplyEntry(doc, entries[0])
      case Some(next) => Evaluate(next, entries[1..])
      case None => None
  }

  // ----- Pointers built by the host -----

  predicate Plain(t: string) {
    '/' !in t && '~' !in t
  }

  lemma {:induction false} SplitPlain(t: string)
    requires '/' !in t
    ensures Split(t) == [t]
  {
    if t != "" {
      SplitPlain(t[1..]);
      assert [t[0]] + t[1..] == t;
    }
  }

  lemma {:induction false} SplitAfter(t: string, rest: string)
    requires '/' !in t
    ensures Split(t + "/" + rest) == [t] + Split(rest)
  {
    var s := t + "/" + rest;
    if t == "" {
      assert s[1..] == rest;
    } else {
      SplitAfter(t[1..], rest);
      assert s[1..] == t[1..] + "/" + rest;
      assert [t[0]] + t[1..] == t;
    }
  }

  lemma {:induction false} UnescapePlain(t: string)
    requires '~' !in t
    ensures Unescape(t) == Some(t)
  {
    if t != "" {
      UnescapePlain(t[1..]);
      assert [t[0]] + t[1..] == t;
    }
  }

  lemma {:induction false} UnescapeAllPlain(parts: seq<string>)
    requires forall i :: 0 <= i < |parts| ==> Plain(parts[i])
    ensures UnescapeAll(parts) == Some(parts)
  {
    if parts != [] {
      UnescapePlain(parts[0]);
      UnescapeAllPlain(parts[1..]);
      assert [parts[0]] + parts[1..] == parts;
    }
  }

  lemma TwoTokens(a: string, b: string)
    requires Plain(a) && Plain(b)
    ensures Tokens("/" + a + "/" + b) == Some([a, b])
  {
    assert ("/" + a + "/" + b)[1..] == a + "/" + b;
    SplitAfter(a, b);
    SplitPlain(b);
    assert [a] + [b] == [a, b];
    UnescapeAllPlain([a, b]);
  }

  lemma ThreeTokens(a: string, b: string, c: string)
    requires Plain(a) && Plain(b) && Plain(c)
    ensures Tokens("/" + a + "/" + b + "/" + c) == Some([a, b, c])
  {
    assert ("/" + a + "/" + b + "/" + c)[1..] == a + "/" + (b + "/" + c);
    SplitAfter(a, b + "/" + c);
    SplitAfter(b, c);
    SplitPlain(c);
    assert [a] + ([b] + [c]) == [a, b, c];
    UnescapeAllPlain([a, b, c]);
  }

  /** An index written in decimal is read back as the same index. */
  lemma IndexRoundTrip(n: nat)
    ensures ParseIndex(Decimal(n)) == Some(n)
    ensures Plain(Decimal(n))
  {
    var ds := Digits.ToDigits(n, 10);
    var s := Decimal(n);
    assert forall i :: 0 <= i < |s| ==> s[i] != '/' && s[i] != '~';
    forall i | 0 <= i < |ds| ensures DigitValue(s[i]) == ds[i] {
      assert s[i] == DIGIT_CHARS[ds[i]];
    }
    assert seq(|s|, i requires 0 <= i < |s| => DigitValue(s[i])) == ds;
    Digits.DigitsRoundTrip(n, 10);
    NoLeadingZero(n);
  }

  lemma {:induction false} NoLeadingZero(n: nat)
    ensures |Digits.ToDigits(n, 10)| > 1 ==> Digits.ToDigits(n, 10)[0] != 0
    decreases n
  {
    if n >= 10 {
      NoLeadingZero(n / 10);
    }
  }
}
