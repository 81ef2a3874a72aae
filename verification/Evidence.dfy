/** Release evidence: two checkers of the same one-to-one relation between
    assertions and evidence, written in different ways, and the writer. */
module Evidence {
  import opened Wrappers
  import opened Text
  import opened Sequences

  /** An identity is compared by its serialised text; None is an absent one. */
  datatype Run = Run(id: string, startedAt: string, completedAt: string)

  datatype Proof = Proof(assertion: string, test: string, runId: string, observedAt: string)

  datatype Receipt = Receipt(
    schemaVersion: int, suite: string, run: Option<Run>, completedAt: string,
    git: Option<string>, cluster: Option<string>, installation: Option<string>, artifacts: Option<string>,
    assertions: seq<string>, evidence: seq<Proof>)

  datatype Expected = Expected(git: string, cluster: Option<string>, installation: Option<string>,
      artifacts: Option<string>)

  /** Milliseconds for a date text; None for a text that is not a date. */
  type Clock = string -> Option<int>

  const MAX_AGE := 24 * 60 * 60 * 1000

  function Elements(s: seq<string>): set<string> {
    set x | x in s
  }

  function NamesOf(evidence: seq<Proof>): set<string> {
    set e | e in evidence :: e.assertion
  }

  predicate DistinctNames(evidence: seq<Proof>) {
    forall i, j :: 0 <= i < j < |evidence| ==> evidence[i].assertion != evidence[j].assertion
  }

  predicate Matches(actual: Option<string>, expected: Option<string>) {
    expected.None? || actual == expected
  }

  // ----- Counting -----

  lemma SubsetCardinality(a: set<string>, b: set<string>)
    requires a <= b
    ensures |a| <= |b|
    ensures |a| == |b| ==> a == b
  {
    var rest := b - a;
    assert b == a + rest && a !! rest;
    assert |b| == |a| + |rest|;
  }

  lemma {:induction false} ElementsCount(s: seq<string>)
    ensures |Elements(s)| <= |s|
    ensures |Elements(s)| == |s| <==> Distinct(s)
    decreases |s|
  {
    if s != [] {
      var init, last := s[..|s| - 1], s[|s| - 1];
      ElementsCount(init);
      assert s == init + [last];
      assert Elements(s) == Elements(init) + {last};
      if Distinct(init) && last !in init {
        assert Distinct(s);
      } else if last in init {
        assert Elements(s) == Elements(init);
        var i :| 0 <= i < |init| && init[i] == last;
        assert s[i] == s[|s| - 1];
      } else {
        var i, j :| 0 <= i < j < |init| && init[i] == init[j];
        assert s[i] == s[j];
      }
    }
  }

  function NameList(evidence: seq<Proof>): seq<string> {
    seq(|evidence|, i requires 0 <= i < |evidence| => evidence[i].assertion)
  }

  lemma NamesCount(evidence: seq<Proof>)
    ensures |NamesOf(evidence)| == |evidence| <==> DistinctNames(evidence)
  {
    var names := NameList(evidence);
    assert NamesOf(evidence) == Elements(names) by {
      forall n | n in NamesOf(evidence) ensures n in Elements(names) {
        var i :| 0 <= i < |evidence| && evidence[i].assertion == n;
        assert names[i] == n;
      }
      forall n | n in Elements(names) ensures n in NamesOf(evidence) {
        var i :| 0 <= i < |names| && names[i] == n;
        assert evidence[i] in evidence;
      }
    }
    ElementsCount(names);
    assert Distinct(names) <==> DistinctNames(evidence) by {
      assert forall i :: 0 <= i < |names| ==> names[i] == evidence[i].assertion;
    }
  }

  // ----- What both checkers mean -----

  predicate InTime(clock: Clock, receipt: Receipt, now: int) {
    && receipt.run.Some?
    && clock(receipt.completedAt).Some? && clock(receipt.run.value.startedAt).Some?
    && clock(receipt.run.value.startedAt).value <= clock(receipt.completedAt).value
    && clock(receipt.completedAt).value <= now + 60000
    && now - clock(receipt.completedAt).value <= MAX_AGE
  }

  predicate RunComplete(receipt: Receipt) {
    receipt.run.Some? && receipt.run.value.id != "" && receipt.run.value.completedAt == receipt.completedAt
  }

  /** The start of the run, when there is one that is a date. */
  function Started(clock: Clock, receipt: Receipt): Option<int> {
    clock(if receipt.run.Some? then receipt.run.value.startedAt else "")
  }

  /** The evidence belongs to the run and was observed during it. A bound that is no date bounds nothing:
      comparisons with it are false. */
  predicate RunBound(clock: Clock, receipt: Receipt, e: Proof) {
    && receipt.run.Some? && e.runId == receipt.run.value.id
    && clock(e.observedAt).Some?
    && (Started(clock, receipt).Some? ==> Started(clock, receipt).value <= clock(e.observedAt).value)
    && (clock(receipt.completedAt).Some? ==> clock(e.observedAt).value <= clock(receipt.completedAt).value + 1000)
  }

  // ----- The v0.7 checker: a map from assertion to evidence, and sizes -----

  datatype Finding =
    | MissingReceipt | WrongSchema | WrongSuite | WrongTree | WrongCluster | StaleInterval | IncompleteRun
    | DuplicateAssertions | MissingAssertions(names: seq<string>) | UnclassifiedAssertions(unclassified: set<string>)
    | NotOneToOne | LacksEvidence(assertion: string)

  /** A receipt without findings. */
  ghost predicate V07Clean(clock: Clock, receipt: Receipt, suite: string, required: seq<string>, git: string,
      cluster: Option<string>, now: int) {
    && receipt.schemaVersion == 3 && receipt.suite == suite
    && receipt.git == Some(git) && Matches(receipt.cluster, cluster)
    && InTime(clock, receipt, now) && RunComplete(receipt)
    && Distinct(receipt.assertions) && Elements(receipt.assertions) == Elements(required)
    && DistinctNames(receipt.evidence) && |receipt.evidence| == |receipt.assertions|
    && forall i :: 0 <= i < |required| ==> HasProof(clock, receipt, required[i])
  }

  /** Some evidence of that name belongs to the run and names a test. */
  ghost predicate HasProof(clock: Clock, receipt: Receipt, assertion: string)
  {
    exists e :: e in receipt.evidence && e.assertion == assertion && RunBound(clock, receipt, e) && JsTrim(e.test) != ""
  }

  function Without(names: seq<string>, known: set<string>): seq<string> {
    if names == [] then [] else (if names[0] in known then [] else [names[0]]) + Without(names[1..], known)
  }

  lemma {:induction false} WithoutEmpty(names: seq<string>, known: set<string>)
    ensures Without(names, known) == [] <==> Elements(names) <= known
  {
    if names != [] {
      WithoutEmpty(names[1..], known);
      assert names == [names[0]] + names[1..];
      assert Elements(names) == {names[0]} + Elements(names[1..]);
    }
  }

  /** Later entries replace earlier ones, as in the constructor of a Map. */
  method EvidenceMap(evidence: seq<Proof>) returns (m: map<string, Proof>)
    ensures m.Keys == NamesOf(evidence)
    ensures forall a :: a in m ==> m[a] in evidence && m[a].assertion == a
  {
    m := map[];
    for i := 0 to |evidence|
      invariant m.Keys == NamesOf(evidence[..i])
      invariant forall a :: a in m ==> m[a] in evidence && m[a].assertion == a
    {
      assert evidence[..i + 1] == evidence[..i] + [evidence[i]];
      m := m[evidence[i].assertion := evidence[i]];
    }
    assert evidence[..|evidence|] == evidence;
  }

  predicate GoodEvidence(clock: Clock, receipt: Receipt, m: map<string, Proof>, a: string) {
    && a in m && RunBound(clock, receipt, m[a]) && JsTrim(m[a].test) != ""
  }

  /** The part of the checker before the assertions are looked at. */
  method IdentityFindings(clock: Clock, receipt: Receipt, suite: string, git: string, cluster: Option<string>, now: int)
    returns (findings: seq<Finding>)
    ensures findings == [] <==>
            && receipt.schemaVersion == 3 && receipt.suite == suite
            && receipt.git == Some(git) && Matches(receipt.cluster, cluster)
            && InTime(clock, receipt, now) && RunComplete(receipt)
  {
    findings := [];
    if receipt.schemaVersion != 3 { findings := findings + [WrongSchema]; }
    if receipt.suite != suite { findings := findings + [WrongSuite]; }
    if receipt.git != Some(git) { findings := findings + [WrongTree]; }
    if cluster.Some? && receipt.cluster != cluster { findings := findings + [WrongCluster]; }
    if !InTime(clock, receipt, now) { findings := findings + [StaleInterval]; }
    if !RunComplete(receipt) { findings := findings + [IncompleteRun]; }
  }

  method AssertionFindings(assertions: seq<string>, required: seq<string>) returns (findings: seq<Finding>)
    ensures findings == [] <==> Distinct(assertions) && Elements(assertions) == Elements(required)
  {
    findings := [];
    var present := Elements(assertions);
    ElementsCount(assertions);
    if |present| != |assertions| { findings := findings + [DuplicateAssertions]; }
    var missing := Without(required, present);
    WithoutEmpty(required, present);
    if |missing| > 0 { findings := findings + [MissingAssertions(missing)]; }
    var unexpected := present - Elements(required);
    if unexpected != {} { findings := findings + [UnclassifiedAssertions(unexpected)]; }
    if unexpected == {} {
      forall a | a in present ensures a in Elements(required) {
        assert a !in unexpected;
      }
    }
  }

  method EvidenceFindings(clock: Clock, r: Receipt, required: seq<string>) returns (findings: seq<Finding>)
    ensures findings == [] <==>
            && DistinctNames(r.evidence) && |r.evidence| == |r.assertions|
            && forall i :: 0 <= i < |required| ==> HasProof(clock, r, required[i])
  {
    findings := [];
    var m := EvidenceMap(r.evidence);
    NamesCount(r.evidence);
    if |m.Keys| != |r.evidence| || |r.evidence| != |r.assertions| { findings := findings + [NotOneToOne]; }
    ghost var before := findings;
    for i := 0 to |required|
      invariant findings == [] <==> before == [] && forall j :: 0 <= j < i ==> GoodEvidence(clock, r, m, required[j])
    {
      if !GoodEvidence(clock, r, m, required[i]) { findings := findings + [LacksEvidence(required[i])]; }
    }
    if DistinctNames(r.evidence) {
      forall i | 0 <= i < |required|
          ensures GoodEvidence(clock, r, m, required[i]) <==> HasProof(clock, r, required[i]) {
        MapFindsProof(clock, r, m, required[i]);
      }
    }
  }

  /** The checker reports nothing exactly for clean receipts. */
  method ValidateV07(clock: Clock, receipt: Option<Receipt>, suite: string, required: seq<string>, git: string,
      cluster: Option<string>, now: int) returns (findings: seq<Finding>)
    ensures findings == [] <==> receipt.Some? && V07Clean(clock, receipt.value, suite, required, git, cluster, now)
  {
    if receipt.None? {
      return [MissingReceipt];
    }
    var identity := IdentityFindings(clock, receipt.value, suite, git, cluster, now);
    var assertions := AssertionFindings(receipt.value.assertions, required);
    var evidence := EvidenceFindings(clock, receipt.value, required);
    findings := identity + assertions + evidence;
  }

  /** With distinct names the map finds an assertion's evidence whenever there is any. */
  lemma MapFindsProof(clock: Clock, r: Receipt, m: map<string, Proof>, a: string)
    requires DistinctNames(r.evidence) && m.Keys == NamesOf(r.evidence)
    requires forall a :: a in m ==> m[a] in r.evidence && m[a].assertion == a
    ensures GoodEvidence(clock, r, m, a) <==> HasProof(clock, r, a)
  {
    if HasProof(clock, r, a) {
      var e :| e in r.evidence && e.assertion == a && RunBound(clock, r, e) && JsTrim(e.test) != "";
      assert a in NamesOf(r.evidence);
      assert m[a] in r.evidence && m[a].assertion == e.assertion;
      assert m[a] == e;
    }
  }

  // ----- The v0.6 checker: names deleted from a set -----

  /** The part of the checker before the loop. */
  predicate V06Header(clock: Clock, r: Receipt, suite: string, expected: Expected, now: int) {
    && r.schemaVersion == 3 && r.suite == suite && r.completedAt != ""
    && InTime(clock, r, now) && RunComplete(r)
    && r.git == Some(expected.git) && Matches(r.cluster, expected.cluster)
    && Matches(r.installation, expected.installation) && Matches(r.artifacts, expected.artifacts)
    && |r.evidence| == |r.assertions| && Distinct(r.assertions)
  }

  /** What is asked of each piece of evidence apart from its name. */
  predicate V06Proof(clock: Clock, r: Receipt, e: Proof)
    requires r.run.Some? && clock(r.completedAt).Some? && clock(r.run.value.startedAt).Some?
  {
    e.assertion != "" && e.test != "" && RunBound(clock, r, e)
  }

  ghost predicate V06Accepts(clock: Clock, r: Receipt, suite: string, expected: Expected, now: int) {
    && V06Header(clock, r, suite, expected, now)
    && DistinctNames(r.evidence) && NamesOf(r.evidence) <= Elements(r.assertions)
    && forall i :: 0 <= i < |r.evidence| ==> V06Proof(clock, r, r.evidence[i])
  }

  /** As many distinct names as assertions, all of them assertions: then every assertion is named. */
  lemma EveryAssertionNamed(r: Receipt)
    requires DistinctNames(r.evidence) && Distinct(r.assertions) && |r.evidence| == |r.assertions|
    ensures NamesOf(r.evidence) <= Elements(r.assertions) <==> Elements(r.assertions) <= NamesOf(r.evidence)
    ensures NamesOf(r.evidence) <= Elements(r.assertions) ==> NamesOf(r.evidence) == Elements(r.assertions)
  {
    NamesCount(r.evidence);
    ElementsCount(r.assertions);
    if NamesOf(r.evidence) <= Elements(r.assertions) {
      SubsetCardinality(NamesOf(r.evidence), Elements(r.assertions));
    }
    if Elements(r.assertions) <= NamesOf(r.evidence) {
      SubsetCardinality(Elements(r.assertions), NamesOf(r.evidence));
    }
  }

  /** Accepts exactly what V06Accepts says; the names left over at the end are always none. */
  method LiveReceipt(clock: Clock, value: Option<Receipt>, suite: string, expected: Expected, now: int)
      returns (r: Option<Receipt>)
    ensures r.Some? <==> value.Some? && V06Accepts(clock, value.value, suite, expected, now)
    ensures r.Some? ==> r == value
  {
    if value.None? || !V06Header(clock, value.value, suite, expected, now) {
      return None;
    }
    var receipt := value.value;
    var names := Elements(receipt.assertions);
    for i := 0 to |receipt.evidence|
      invariant DistinctNames(receipt.evidence[..i]) && NamesOf(receipt.evidence[..i]) <= Elements(receipt.assertions)
      invariant names == Elements(receipt.assertions) - NamesOf(receipt.evidence[..i])
      invariant forall j :: 0 <= j < i ==> V06Proof(clock, receipt, receipt.evidence[j])
    {
      var e := receipt.evidence[i];
      var next := receipt.evidence[..i + 1];
      assert next == receipt.evidence[..i] + [e];
      if e.assertion !in names {
        RejectedName(receipt, i);
        return None;
      }
      names := names - {e.assertion};
      AcceptedName(receipt.evidence[..i], e);
      if !V06Proof(clock, receipt, e) {
        return None;
      }
    }
    assert receipt.evidence[..|receipt.evidence|] == receipt.evidence;
    EveryAssertionNamed(receipt);
    assert names == {};
    r := value;
  }

  lemma NamesSnoc(evidence: seq<Proof>, e: Proof)
    ensures NamesOf(evidence + [e]) == NamesOf(evidence) + {e.assertion}
  {
    forall n | n in NamesOf(evidence) + {e.assertion} ensures n in NamesOf(evidence + [e]) {
      if n == e.assertion {
        assert e in evidence + [e];
      } else {
        var f :| f in evidence && f.assertion == n;
        assert f in evidence + [e];
      }
    }
  }

  lemma AcceptedName(evidence: seq<Proof>, e: Proof)
    requires DistinctNames(evidence) && e.assertion !in NamesOf(evidence)
    ensures DistinctNames(evidence + [e]) && NamesOf(evidence + [e]) == NamesOf(evidence) + {e.assertion}
  {
    NamesSnoc(evidence, e);
    forall i | 0 <= i < |evidence| ensures evidence[i].assertion != e.assertion {
      assert evidence[i] in evidence;
    }
  }

  /** A name that cannot be deleted is no assertion, or repeats an earlier name. */
  lemma RejectedName(r: Receipt, i: nat)
    requires i < |r.evidence|
    requires r.evidence[i].assertion !in Elements(r.assertions) - NamesOf(r.evidence[..i])
    ensures !(DistinctNames(r.evidence) && NamesOf(r.evidence) <= Elements(r.assertions))
  {
    var name := r.evidence[i].assertion;
    assert r.evidence[i] in r.evidence && name in NamesOf(r.evidence);
    if name in NamesOf(r.evidence[..i]) {
      var j :| 0 <= j < |r.evidence[..i]| && r.evidence[..i][j].assertion == name;
      assert r.evidence[j].assertion == r.evidence[i].assertion;
    }
  }

  // ----- The two checkers agree -----

  /** A receipt without findings pairs assertions and evidence one to one. */
  lemma CleanIsOneToOne(clock: Clock, r: Receipt, suite: string, required: seq<string>, git: string,
      cluster: Option<string>, now: int)
    requires V07Clean(clock, r, suite, required, git, cluster, now)
    ensures NamesOf(r.evidence) == Elements(r.assertions) == Elements(required)
    ensures forall i :: 0 <= i < |r.evidence| ==> RunBound(clock, r, r.evidence[i]) && JsTrim(r.evidence[i].test) != ""
  {
    forall a | a in Elements(r.assertions) ensures a in NamesOf(r.evidence) {
      var i :| 0 <= i < |required| && required[i] == a;
      assert HasProof(clock, r, required[i]);
    }
    EveryAssertionNamed(r);
    forall i | 0 <= i < |r.evidence| ensures RunBound(clock, r, r.evidence[i]) && JsTrim(r.evidence[i].test) != "" {
      assert r.evidence[i] in r.evidence;
      assert r.evidence[i].assertion in NamesOf(r.evidence);
      var j :| 0 <= j < |required| && required[j] == r.evidence[i].assertion;
      assert HasProof(clock, r, required[j]);
      var e :| e in r.evidence && e.assertion == required[j] && RunBound(clock, r, e) && JsTrim(e.test) != "";
      var k :| 0 <= k < |r.evidence| && r.evidence[k] == e;
    }
  }

  /** Under the same clock and identities, the v0.7 checker finds nothing exactly when the v0.6 checker
      accepts, the assertions are the required ones, and no test name is blank. */
  lemma CheckersAgree(clock: Clock, r: Receipt, suite: string, required: seq<string>, git: string,
      cluster: Option<string>, now: int)
    requires clock("").None? && "" !in required
    ensures V07Clean(clock, r, suite, required, git, cluster, now)
            <==> && V06Accepts(clock, r, suite, Expected(git, cluster, None, None), now)
                 && Elements(r.assertions) == Elements(required)
                 && forall i :: 0 <= i < |r.evidence| ==> JsTrim(r.evidence[i].test) != ""
  {
    if V07Clean(clock, r, suite, required, git, cluster, now) {
      CleanIsOneToOne(clock, r, suite, required, git, cluster, now);
      forall i | 0 <= i < |r.evidence| ensures V06Proof(clock, r, r.evidence[i]) {
        assert r.evidence[i] in r.evidence && r.evidence[i].assertion in NamesOf(r.evidence);
        assert JsTrim("") == "";
      }
    }
    if V06Accepts(clock, r, suite, Expected(git, cluster, None, None), now)
       && Elements(r.assertions) == Elements(required)
       && forall i :: 0 <= i < |r.evidence| ==> JsTrim(r.evidence[i].test) != ""
    {
      EveryAssertionNamed(r);
      forall i | 0 <= i < |required| ensures HasProof(clock, r, required[i]) {
        assert required[i] in Elements(required);
        assert required[i] in NamesOf(r.evidence);
        var e :| e in r.evidence && e.assertion == required[i];
        var k :| 0 <= k < |r.evidence| && r.evidence[k] == e;
        assert V06Proof(clock, r, r.evidence[k]);
      }
    }
  }

  // ----- The writer -----

  datatype Claim = Claim(assertion: string, test: string, observedAt: Option<string>)

  datatype WriteError = DuplicateOrEmpty(assertion: string) | NoEvidence | MixedRuns

  /** Stamps each claim with the run; the texts of the present moment stand in for missing times. */
  method CreateEvidence(claims: seq<Claim>, runId: string, moments: seq<string>)
    returns (r: Result<seq<Proof>, WriteError>)
    requires |moments| == |claims|
    ensures r.Success? <==> (forall i :: 0 <= i < |claims| ==> claims[i].assertion != "")
                            && forall i, j :: 0 <= i < j < |claims| ==> claims[i].assertion != claims[j].assertion
    ensures r.Success? ==> |r.value| == |claims| && forall i :: 0 <= i < |claims| ==>
              r.value[i] == Proof(claims[i].assertion, claims[i].test, runId, claims[i].observedAt.GetOr(moments[i]))
    ensures r.Failure? ==> r.error.DuplicateOrEmpty?
  {
    var names: set<string> := {};
    var proofs: seq<Proof> := [];
    for i := 0 to |claims|
      invariant names == set j | 0 <= j < i :: claims[j].assertion
      invariant forall j :: 0 <= j < i ==> claims[j].assertion != ""
      invariant forall j, k :: 0 <= j < k < i ==> claims[j].assertion != claims[k].assertion
      invariant |proofs| == i && forall j :: 0 <= j < i ==>
                  proofs[j] == Proof(claims[j].assertion, claims[j].test, runId, claims[j].observedAt.GetOr(moments[j]))
    {
      var claim := claims[i];
      if claim.assertion == "" || claim.assertion in names {
        return Failure(DuplicateOrEmpty(claim.assertion));
      }
      names := names + {claim.assertion};
      proofs := proofs + [Proof(claim.assertion, claim.test, runId, claim.observedAt.GetOr(moments[i]))];
    }
    r := Success(proofs);
  }

  function WriteReceipt(suite: string, run: Run, candidate: Expected,
      evidence: seq<Proof>): Result<Receipt, WriteError> {
    if evidence == [] then Failure(NoEvidence)
    else if exists i :: 0 <= i < |evidence| && evidence[i].runId != run.id then Failure(MixedRuns)
    else
      Success(Receipt(3, suite, Some(run), run.completedAt, Some(candidate.git), candidate.cluster,
                      candidate.installation, candidate.artifacts, NameList(evidence), evidence))
  }

  lemma SameDistinctness(names: seq<string>, evidence: seq<Proof>)
    requires |names| == |evidence| && forall i :: 0 <= i < |evidence| ==> names[i] == evidence[i].assertion
    ensures Distinct(names) <==> DistinctNames(evidence)
  {
    if Distinct(names) {
      forall i, j | 0 <= i < j < |evidence| ensures evidence[i].assertion != evidence[j].assertion {
        assert names[i] != names[j];
      }
    }
  }

  /** A written receipt is accepted for its own candidate exactly when its run has an id, its times fit and
      its evidence is named, tested and observed in time: shape and pairing are right by construction. */
  lemma WrittenReceiptsAreAccepted(clock: Clock, suite: string, run: Run, candidate: Expected, evidence: seq<Proof>,
      now: int)
    requires clock("").None?
    requires WriteReceipt(suite, run, candidate, evidence).Success?
    ensures var r := WriteReceipt(suite, run, candidate, evidence).value;
            V06Accepts(clock, r, suite, candidate, now)
            <==> && run.id != "" && InTime(clock, r, now) && DistinctNames(evidence)
                 && forall i :: 0 <= i < |evidence| ==>
                      && evidence[i].assertion != "" && evidence[i].test != "" && clock(evidence[i].observedAt).Some?
                      && clock(run.startedAt).value <= clock(evidence[i].observedAt).value
                      && clock(evidence[i].observedAt).value <= clock(run.completedAt).value + 1000
  {
    var r := WriteReceipt(suite, run, candidate, evidence).value;
    var names := NameList(evidence);
    assert forall i :: 0 <= i < |evidence| ==> names[i] == evidence[i].assertion;
    SameDistinctness(names, evidence);
    forall n | n in NamesOf(evidence) ensures n in Elements(names) {
      var i :| 0 <= i < |evidence| && evidence[i].assertion == n;
      assert names[i] == n;
    }
    forall i | 0 <= i < |evidence| ensures evidence[i].runId == run.id {
    }
  }
}
