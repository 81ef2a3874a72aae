/** Generated tool names: a readable part and a hash of the operation id. */
module ToolName {
  import opened Wrappers
  import opened Text
  import Digits

  const PREFIX := "applik8s_"
  const SCHEME := "applik8s://"
  const BASE36 := "0123456789abcdefghijklmnopqrstuvwxyz"

  predicate Allowed(c: char) {
    'A' <= c <= 'Z' || 'a' <= c <= 'z' || '0' <= c <= '9' || c == '_' || c == '-'
  }

  predicate AllAllowed(s: string) {
    forall i :: 0 <= i < |s| ==> Allowed(s[i])
  }

  /** What validateToolName accepts. */
  predicate ValidToolName(name: string) {
    1 <= |name| <= 64 && AllAllowed(name)
  }

  // ----- The readable part -----

  function StripScheme(s: string): string {
    if SCHEME <= s then s[|SCHEME|..] else s
  }

  /** Every run of characters outside the alphabet becomes one underscore. */
  function ReplaceRuns(s: string, inRun: bool): string {
    if s == "" then ""
    else if Allowed(s[0]) then [s[0]] + ReplaceRuns(s[1..], false)
    else (if inRun then "" else "_") + ReplaceRuns(s[1..], true)
  }

  function StripUnderscores(s: string): string {
    if s != "" && s[0] == '_' then StripUnderscores(s[1..])
    else if s != "" && s[|s| - 1] == '_' then StripUnderscores(s[..|s| - 1])
    else s
  }

  function Normalized(operationId: string, title: Option<string>): string {
    var trimmed := JsTrim(title.GetOr(""));
    var source := if trimmed == "" then operationId else trimmed;
    var stripped := StripUnderscores(ReplaceRuns(StripScheme(source), false));
    if stripped == "" then "operation" else stripped
  }

  // ----- The hash -----

  /** Exclusive or of the lowest bits. */
  function Xor(a: nat, b: nat, bits: nat): nat
    decreases bits
  {
    if bits == 0 then 0 else (a % 2 + b % 2) % 2 + 2 * Xor(a / 2, b / 2, bits - 1)
  }

  /** One turn: xor with the code point, then a 32-bit multiplication that wraps around. */
  function Mix(hash: nat, c: char): nat {
    Xor(hash, c as nat, 32) * 16777619 % 0x1_0000_0000
  }

  function HashFrom(hash: nat, s: string): nat
    decreases |s|
  {
    if s == "" then hash else HashFrom(Mix(hash, s[0]), s[1..])
  }

  lemma {:induction false} HashSnoc(hash: nat, s: string, c: char)
    ensures HashFrom(hash, s + [c]) == Mix(HashFrom(hash, s), c)
    decreases |s|
  {
    if s == "" {
      assert ([] + [c])[1..] == "";
      assert HashFrom(Mix(hash, c), "") == Mix(hash, c);
    } else {
      assert (s + [c])[1..] == s[1..] + [c];
      HashSnoc(Mix(hash, s[0]), s[1..], c);
    }
  }

  lemma {:induction false} HashIs32Bits(hash: nat, s: string)
    requires hash < 0x1_0000_0000
    ensures HashFrom(hash, s) < 0x1_0000_0000
    decreases |s|
  {
    if s != "" {
      HashIs32Bits(Mix(hash, s[0]), s[1..]);
    }
  }

  /** The value of the hash, before it is written down. */
  function OperationHash(operationId: string): (h: nat)
    ensures h < 0x1_0000_0000
  {
    HashIs32Bits(2166136261, operationId);
    HashFrom(2166136261, operationId)
  }

  function Written(ds: seq<nat>): string
    requires forall i :: 0 <= i < |ds| ==> ds[i] < 36
  {
    seq(|ds|, i requires 0 <= i < |ds| => BASE36[ds[i]])
  }

  /** Base 36, padded to seven characters. */
  function Digest(h: nat): string {
    var text := Written(Digits.ToDigits(h, 36));
    var padded := if |text| < 7 then seq(7 - |text|, _ => '0') + text else text;
    padded[|padded| - 7..]
  }

  method PortableHash(value: string) returns (digest: string)
    ensures digest == Digest(OperationHash(value))
  {
    var hash: nat := 2166136261;
    for i := 0 to |value|
      invariant hash == HashFrom(2166136261, value[..i])
    {
      assert value[..i + 1] == value[..i] + [value[i]];
      HashSnoc(2166136261, value[..i], value[i]);
      hash := Mix(hash, value[i]);
    }
    assert value[..|value|] == value;
    digest := Digest(hash);
  }

  /** Prefix, readable part cut to fit 64 characters, digest. */
  function Assemble(normalized: string, digest: string): string {
    var suffix := "_" + digest;
    var room := 64 - |PREFIX| - |suffix|;
    PREFIX + (if 0 <= room < |normalized| then normalized[..room] else normalized) + suffix
  }

  function Name(operationId: string, title: Option<string>): string {
    Assemble(Normalized(operationId, title), Digest(OperationHash(operationId)))
  }

  // ----- Properties -----

  lemma {:induction false} RunsAllowed(s: string, inRun: bool)
    ensures AllAllowed(ReplaceRuns(s, inRun))
  {
    if s != "" {
      RunsAllowed(s[1..], !Allowed(s[0]));
    }
  }

  lemma {:induction false} StripAllowed(s: string)
    requires AllAllowed(s)
    ensures AllAllowed(StripUnderscores(s))
  {
    if s != "" && s[0] == '_' {
      StripAllowed(s[1..]);
    } else if s != "" && s[|s| - 1] == '_' {
      StripAllowed(s[..|s| - 1]);
    }
  }

  function CharValue(c: char): nat {
    if '0' <= c <= '9' then c as nat - '0' as nat else if 'a' <= c <= 'z' then c as nat - 'a' as nat + 10 else 0
  }

  function FromDigest(s: string): nat {
    Digits.FromDigits(seq(|s|, i requires 0 <= i < |s| => CharValue(s[i])), 36)
  }

  /** Six base-36 digits are too few for 32 bits, seven are enough. */
  lemma SevenDigits()
    ensures Digits.Pow(36, 6) < 0x1_0000_0000 < Digits.Pow(36, 7)
  {
    assert Digits.Pow(36, 1) == 36;
    assert Digits.Pow(36, 2) == 1296;
    assert Digits.Pow(36, 3) == 46656;
    assert Digits.Pow(36, 4) == 1679616;
    assert Digits.Pow(36, 5) == 60466176;
    assert Digits.Pow(36, 6) == 2176782336;
  }

  lemma BaseChar(d: nat)
    requires d < 36
    ensures Allowed(BASE36[d]) && CharValue(BASE36[d]) == d
  {
  }

  lemma WrittenDigits(ds: seq<nat>)
    requires forall i :: 0 <= i < |ds| ==> ds[i] < 36
    ensures AllAllowed(Written(ds)) && FromDigest(Written(ds)) == Digits.FromDigits(ds, 36)
  {
    var s := Written(ds);
    forall i | 0 <= i < |ds| ensures Allowed(s[i]) && CharValue(s[i]) == ds[i] {
      BaseChar(ds[i]);
    }
    assert seq(|s|, i requires 0 <= i < |s| => CharValue(s[i])) == ds;
  }

  lemma PaddedDigits(zeros: nat, ds: seq<nat>)
    requires forall i :: 0 <= i < |ds| ==> ds[i] < 36
    ensures seq(zeros, _ => '0') + Written(ds) == Written(seq(zeros, _ => 0) + ds)
  {
    assert BASE36[0] == '0';
  }

  /** The digits behind a digest, padded to seven. */
  lemma DigestDigits(h: nat) returns (ds: seq<nat>)
    requires h < 0x1_0000_0000
    ensures forall i :: 0 <= i < |ds| ==> ds[i] < 36
    ensures |ds| == 7 && Digest(h) == Written(ds) && Digits.FromDigits(ds, 36) == h
  {
    var short := Digits.ToDigits(h, 36);
    SevenDigits();
    Digits.DigitCount(h, 36, 7);
    Digits.DigitsRoundTrip(h, 36);
    var zeros := 7 - |short|;
    ds := seq(zeros, _ => 0) + short;
    Digits.LeadingZeros(zeros, short, 36);
    PaddedDigits(zeros, short);
    DigestText(h, short, Written(short));
  }

  lemma DigestText(h: nat, short: seq<nat>, text: string)
    requires h < 0x1_0000_0000 && short == Digits.ToDigits(h, 36) && text == Written(short) && |short| <= 7
    ensures Digest(h) == seq(7 - |short|, _ => '0') + text
  {
    assert |text| == 7 ==> seq(0, _ => '0') + text == text;
  }

  lemma TextIsLossless(text: string, ds: seq<nat>, h: nat)
    requires forall i :: 0 <= i < |ds| ==> ds[i] < 36
    requires |ds| == 7 && text == Written(ds) && Digits.FromDigits(ds, 36) == h
    ensures |text| == 7 && AllAllowed(text) && FromDigest(text) == h
  {
    WrittenDigits(ds);
  }

  /** Seven base-36 characters hold any 32-bit value, and lose nothing. */
  lemma DigestIsLossless(h: nat)
    requires h < 0x1_0000_0000
    ensures |Digest(h)| == 7 && AllAllowed(Digest(h)) && FromDigest(Digest(h)) == h
  {
    var ds := DigestDigits(h);
    TextIsLossless(Digest(h), ds, h);
  }

  lemma AssembledIsValid(normalized: string, digest: string)
    requires AllAllowed(normalized) && AllAllowed(digest) && |digest| == 7
    ensures var name := Assemble(normalized, digest);
            ValidToolName(name) && |name| >= 17 && name[|name| - 7..] == digest
  {
    assert |PREFIX| == 9 && AllAllowed(PREFIX);
  }

  lemma NormalizedIsAllowed(operationId: string, title: Option<string>)
    ensures AllAllowed(Normalized(operationId, title)) && Normalized(operationId, title) != ""
  {
    var trimmed := JsTrim(title.GetOr(""));
    var source := if trimmed == "" then operationId else trimmed;
    RunsAllowed(StripScheme(source), false);
    StripAllowed(ReplaceRuns(StripScheme(source), false));
    assert AllAllowed("operation");
  }

  /** Every generated name is a valid tool name and ends in the digest of its operation id. */
  lemma NameIsValid(operationId: string, title: Option<string>)
    ensures var name := Name(operationId, title);
            && ValidToolName(name)
            && |name| >= 17 && name[|name| - 7..] == Digest(OperationHash(operationId))
            && FromDigest(name[|name| - 7..]) == OperationHash(operationId)
  {
    NormalizedIsAllowed(operationId, title);
    DigestIsLossless(OperationHash(operationId));
    AssembledIsValid(Normalized(operationId, title), Digest(OperationHash(operationId)));
  }

  /** Two operations share a name only if their hashes collide, whatever their labels. */
  lemma EqualNamesMeanEqualHashes(a: string, titleA: Option<string>, b: string, titleB: Option<string>)
    requires Name(a, titleA) == Name(b, titleB)
    ensures OperationHash(a) == OperationHash(b)
  {
    NameIsValid(a, titleA);
    NameIsValid(b, titleB);
  }
}
