// The assessor: coverage, evidence index, requirement statuses and the conclusion.
module SlsaAssessor {
  import opened Wrappers
  import opened Json
  import opened PyStrings
  import opened StableSort
  import opened SlsaContract
  import opened Times
  import Views = SlsaViews

  type CoverageRow = Views.CoverageRow

  // ---------------------------------------------------------------- policy

  predicate RequirementOk(r: Requirement, issuers: map<string, Json>) {
    && ListsTypes(r)
    && NoRepeats(r.types.items)
    && forall i :: 0 <= i < |r.types.items| ==> r.types.items[i].Str? && r.types.items[i].s in issuers
  }

  predicate AssessorAccepts(w: World, p: Policy) {
    && HeaderOk(p)
    && p.maximumAge.Num? && p.maximumAge.n >= 1
    && p.issuers.Some? && p.issuers.value != map[] && p.requirements.Some? && |p.requirements.value| == 7
    && IssuersOk(w, p.issuers.value)
    && forall i :: 0 <= i < |p.requirements.value| ==> RequirementOk(p.requirements.value[i], p.issuers.value)
  }

  // ---------------------------------------------------------------- coverage

  datatype Covered = Covered(title: string, responsibility: string, status: string, checks: seq<string>)

  function CoveredOf(row: CoverageRow): Covered {
    Covered(row.title, row.responsibility, row.status, Views.LoadedChecks(row.mappedChecks))
  }

  predicate InProfile(row: CoverageRow) { row.profile == "slsa-build-l2" }

  predicate CoverageMetadata(row: CoverageRow) {
    row.title != "" && row.responsibility != "" && row.version == "1.2" && row.track == "build" && row.targetLevel == "2"
  }

  predicate DistinctCoverage(rows: seq<CoverageRow>) {
    && (forall i :: 0 <= i < |rows| && InProfile(rows[i]) ==> rows[i].requirementId != "")
    && forall i, j :: 0 <= i < j < |rows| && InProfile(rows[i]) && InProfile(rows[j]) ==>
        rows[i].requirementId != rows[j].requirementId
  }

  function CoveredIds(rows: seq<CoverageRow>): set<string> {
    set i | 0 <= i < |rows| && InProfile(rows[i]) :: rows[i].requirementId
  }

  function RequirementIds(reqs: seq<Requirement>): set<string> {
    set i | 0 <= i < |reqs| :: reqs[i].id
  }

  /** The coverage rows of the profile: one for each requirement of the policy, with the expected metadata. */
  predicate CoverageAccepted(reqs: seq<Requirement>, rows: seq<CoverageRow>) {
    && DistinctCoverage(rows)
    && CoveredIds(rows) == RequirementIds(reqs)
    && forall i :: 0 <= i < |rows| && InProfile(rows[i]) ==> CoverageMetadata(rows[i])
  }

  function CoverageMap(rows: seq<CoverageRow>): map<string, Covered> {
    if rows == [] then map[]
    else
      var last := rows[|rows| - 1];
      var before := CoverageMap(rows[..|rows| - 1]);
      if InProfile(last) then before[last.requirementId := CoveredOf(last)] else before
  }

  // ---------------------------------------------------------------- evidence

  datatype Outcome = Pass | Finding | Error

  datatype Indexed = Indexed(code: string, result: Outcome)

  predicate EntryOk(w: World, issuers: map<string, Json>, e: Entry) {
    && e.exact
    && SafeText(e.code, w.code)
    && NonEmptyText(e.evidenceType) && e.evidenceType.s in issuers
    && SafeText(e.sha256, w.sha256) && SafeText(e.scopeSha256, w.sha256)
    && ResultOk(e.result) && w.time(e.observedAt).Some?
    && NonEmptyText(e.uri)
  }

  function CodesOf(catalog: seq<Entry>): seq<Json> {
    seq(|catalog|, i requires 0 <= i < |catalog| => catalog[i].code)
  }

  function TypesOf(catalog: seq<Entry>): seq<Json> {
    seq(|catalog|, i requires 0 <= i < |catalog| => catalog[i].evidenceType)
  }

  predicate DistinctEntries(catalog: seq<Entry>) {
    NoRepeats(CodesOf(catalog)) && NoRepeats(TypesOf(catalog))
  }

  predicate CatalogAccepted(w: World, issuers: map<string, Json>, catalog: seq<Entry>) {
    && (forall i :: 0 <= i < |catalog| ==> EntryOk(w, issuers, catalog[i]))
    && DistinctEntries(catalog)
  }

  predicate MetadataOk(w: World, p: Policy, digest: string, assessedAt: int, e: Entry)
    requires AssessorAccepts(w, p) && EntryOk(w, p.issuers.value, e)
  {
    && e.issuerRole == p.issuers.value[e.evidenceType.s]
    && w.uri(e.uri.s)
    && e.scopeSha256 == Str(digest)
    && Fresh(assessedAt, w.time(e.observedAt).value, p.maximumAge.n)
    && e.immutable == YES && e.authenticated == YES && e.reviewed == YES
  }

  /** A collection failure stays an error; anything else counts as a finding unless its metadata is sound. */
  function Effective(w: World, p: Policy, digest: string, assessedAt: int, e: Entry): Outcome
    requires AssessorAccepts(w, p) && EntryOk(w, p.issuers.value, e)
  {
    if e.result == Str("error") then Error
    else if e.result == Str("pass") && MetadataOk(w, p, digest, assessedAt, e) then Pass
    else Finding
  }

  function Index(w: World, p: Policy, digest: string, assessedAt: int, catalog: seq<Entry>): map<string, Indexed>
    requires AssessorAccepts(w, p)
    requires forall i :: 0 <= i < |catalog| ==> EntryOk(w, p.issuers.value, catalog[i])
  {
    if catalog == [] then map[]
    else
      var last := catalog[|catalog| - 1];
      EntryTexts(w, p.issuers.value, last);
      Index(w, p, digest, assessedAt, catalog[..|catalog| - 1])
        [last.evidenceType.s := Indexed(last.code.s, Effective(w, p, digest, assessedAt, last))]
  }

  // ---------------------------------------------------------------- statuses

  datatype Status = PASS | NOT_CHECKED | FAIL | ERROR

  function Rank(s: Status): nat {
    match s case PASS => 0 case NOT_CHECKED => 1 case FAIL => 2 case ERROR => 3
  }

  datatype Conclusion = ConcludedPass | Incomplete | ConcludedFail | ConcludedError

  datatype Judgement = Judgement(
    requirementId: string, title: string, responsibility: string, status: Status, checks: seq<string>,
    codes: seq<string>)

  datatype Summary = Summary(pass: nat, fail: nat, notChecked: nat, error: nat)

  datatype Assessment = Assessment(
    source: Json, generatedAt: string, scopeSha256: string, conclusion: Conclusion, summary: Summary,
    results: seq<Judgement>)

  function Available(index: map<string, Indexed>, types: seq<Json>): seq<Indexed> {
    if types == [] then []
    else
      (if types[0].Str? && types[0].s in index then [index[types[0].s]] else []) + Available(index, types[1..])
  }

  predicate SomeResult(available: seq<Indexed>, result: Outcome) {
    exists i :: 0 <= i < |available| && available[i].result == result
  }

  function StatusOf(covered: Covered, available: seq<Indexed>, required: nat): Status {
    if SomeResult(available, Error) then ERROR
    else if SomeResult(available, Finding) then FAIL
    else if covered.status != "mapped-evidence" || covered.checks == [] || |available| != required then NOT_CHECKED
    else PASS
  }

  function Codes(available: seq<Indexed>): seq<string> {
    seq(|available|, i requires 0 <= i < |available| => available[i].code)
  }

  function Judge(r: Requirement, coverage: map<string, Covered>, index: map<string, Indexed>): Judgement
    requires r.id in coverage && r.types.Arr?
  {
    var covered, available := coverage[r.id], Available(index, r.types.items);
    Judgement(r.id, covered.title, covered.responsibility, StatusOf(covered, available, |r.types.items|),
              SortStrings(covered.checks), SortStrings(Codes(available)))
  }

  function Judgements(reqs: seq<Requirement>, coverage: map<string, Covered>, index: map<string, Indexed>)
    : (js: seq<Judgement>)
    requires forall i :: 0 <= i < |reqs| ==> reqs[i].id in coverage && reqs[i].types.Arr?
    ensures |js| == |reqs|
  {
    seq(|reqs|, i requires 0 <= i < |reqs| => Judge(reqs[i], coverage, index))
  }

  function Count(results: seq<Judgement>, status: Status): nat {
    if results == [] then 0
    else Count(results[..|results| - 1], status) + (if results[|results| - 1].status == status then 1 else 0)
  }

  function Summarize(results: seq<Judgement>): Summary {
    Summary(Count(results, PASS), Count(results, FAIL), Count(results, NOT_CHECKED), Count(results, ERROR))
  }

  function Conclude(s: Summary): Conclusion {
    if s.error > 0 then ConcludedError
    else if s.fail > 0 then ConcludedFail
    else if s.notChecked > 0 then Incomplete
    else ConcludedPass
  }

  // ---------------------------------------------------------------- the whole assessment

  predicate DocumentHeader(w: World, doc: Document, generatedAt: int) {
    && doc.exact && doc.schema == Str("psb-slsa-build-l2-assessment-input/v1") && SourceOk(doc.source)
    && w.time(doc.assessedAt).Some? && w.time(doc.assessedAt).value <= generatedAt
    && ScopeOk(w, doc.scope)
    && doc.catalog.Some?
  }

  predicate AssessAccepted(w: World, p: Policy, rows: seq<CoverageRow>, doc: Document, generatedAt: int) {
    && AssessorAccepts(w, p)
    && DocumentHeader(w, doc, generatedAt)
    && CoverageAccepted(p.requirements.value, rows)
    && CatalogAccepted(w, p.issuers.value, doc.catalog.value)
  }

  function IndexOf(w: World, p: Policy, doc: Document, generatedAt: int): map<string, Indexed>
    requires AssessorAccepts(w, p) && DocumentHeader(w, doc, generatedAt)
    requires CatalogAccepted(w, p.issuers.value, doc.catalog.value)
  {
    Index(w, p, w.digest(doc.scope.value), w.time(doc.assessedAt).value, doc.catalog.value)
  }

  function Results(w: World, p: Policy, rows: seq<CoverageRow>, doc: Document, generatedAt: int): seq<Judgement>
    requires AssessAccepted(w, p, rows, doc, generatedAt)
  {
    RequirementsCovered(w, p, rows, doc, generatedAt);
    Judgements(p.requirements.value, CoverageMap(rows), IndexOf(w, p, doc, generatedAt))
  }

  function AssessmentOf(w: World, p: Policy, rows: seq<CoverageRow>, doc: Document, generatedAt: int): Assessment
    requires AssessAccepted(w, p, rows, doc, generatedAt)
  {
    var results := Results(w, p, rows, doc, generatedAt);
    Assessment(doc.source, w.stamp(generatedAt), w.digest(doc.scope.value), Conclude(Summarize(results)),
               Summarize(results), results)
  }

  lemma {:induction false} CoverageKeys(rows: seq<CoverageRow>)
    ensures CoverageMap(rows).Keys == CoveredIds(rows)
  {
    if rows != [] {
      var init, last := rows[..|rows| - 1], rows[|rows| - 1];
      CoverageKeys(init);
      assert rows == init + [last];
      CoveredIdsSnoc(init, last);
    }
  }

  lemma CoveredIdsSnoc(rows: seq<CoverageRow>, last: CoverageRow)
    ensures CoveredIds(rows + [last]) == CoveredIds(rows) + if InProfile(last) then {last.requirementId} else {}
  {
    var all := rows + [last];
    assert all[|rows|] == last;
    forall id | id in CoveredIds(rows) ensures id in CoveredIds(all) {
      var i :| 0 <= i < |rows| && InProfile(rows[i]) && rows[i].requirementId == id;
      assert all[i] == rows[i];
    }
    assert InProfile(last) ==> all[|rows|].requirementId in CoveredIds(all);
  }

  lemma RequirementsCovered(w: World, p: Policy, rows: seq<CoverageRow>, doc: Document, generatedAt: int)
    requires AssessAccepted(w, p, rows, doc, generatedAt)
    ensures var reqs := p.requirements.value;
            forall i :: 0 <= i < |reqs| ==> reqs[i].id in CoverageMap(rows) && reqs[i].types.Arr?
  {
    hide CoverageMap, DistinctCoverage, CatalogAccepted, DocumentHeader;
    var reqs := p.requirements.value;
    CoverageKeys(rows);
    forall i | 0 <= i < |reqs| ensures reqs[i].id in CoverageMap(rows) && reqs[i].types.Arr? {
      assert reqs[i].id in RequirementIds(reqs);
      assert RequirementOk(reqs[i], p.issuers.value);
    }
  }

  // ---------------------------------------------------------------- the assessor as written

  lemma DistinctCoverageStep(rows: seq<CoverageRow>, n: nat)
    requires n < |rows|
    ensures DistinctCoverage(rows[..n + 1])
            <==> DistinctCoverage(rows[..n])
                 && (InProfile(rows[n]) ==> rows[n].requirementId != "" && rows[n].requirementId !in CoveredIds(rows[..n]))
  {
    var before, now := rows[..n], rows[..n + 1];
    assert forall i :: 0 <= i < n ==> before[i] == now[i];
    assert now[n] == rows[n];
    if DistinctCoverage(now) && InProfile(rows[n]) {
      forall i | 0 <= i < n && InProfile(before[i]) ensures before[i].requirementId != rows[n].requirementId {
        assert now[i].requirementId != now[n].requirementId;
      }
    }
  }

  lemma DistinctCoveragePrefix(rows: seq<CoverageRow>, n: nat)
    requires n <= |rows|
    ensures DistinctCoverage(rows) ==> DistinctCoverage(rows[..n])
  {
  }

  /** `load_coverage` on the rows of the file. */
  method LoadCoverage(reqs: seq<Requirement>, rows: seq<CoverageRow>) returns (r: Result<map<string, Covered>, Refused>)
    ensures r.Ok? <==> CoverageAccepted(reqs, rows)
    ensures r.Ok? ==> r.value == CoverageMap(rows)
  {
    hide DistinctCoverage, CoveredIds, CoveredOf, CoverageMetadata;
    var coverage: map<string, Covered> := map[];
    assert rows[..0] == [];
    assert DistinctCoverage(rows[..0]) by { NothingCovered(); }
    for i := 0 to |rows|
      invariant coverage == CoverageMap(rows[..i]) && DistinctCoverage(rows[..i])
    {
      assert rows[..i + 1][..i] == rows[..i];
      DistinctCoverageStep(rows, i);
      DistinctCoveragePrefix(rows, i + 1);
      CoverageKeys(rows[..i]);
      if InProfile(rows[i]) {
        var id := rows[i].requirementId;
        if id == "" || id in coverage {
          return Err(Refused);
        }
        coverage := coverage[id := CoveredOf(rows[i])];
      }
    }
    assert rows[..|rows|] == rows;
    CoverageKeys(rows);
    if coverage.Keys != RequirementIds(reqs) {
      return Err(Refused);
    }
    if exists i :: 0 <= i < |rows| && InProfile(rows[i]) && !CoverageMetadata(rows[i]) {
      return Err(Refused);
    }
    return Ok(coverage);
  }

  lemma NothingCovered()
    ensures DistinctCoverage([])
  {
  }

  lemma NoRepeatsStep(values: seq<Json>, n: nat)
    requires n < |values|
    ensures NoRepeats(values[..n + 1]) <==> NoRepeats(values[..n]) && values[n] !in values[..n]
    ensures NoRepeats(values) ==> NoRepeats(values[..n + 1])
  {
    var before, now := values[..n], values[..n + 1];
    assert forall i :: 0 <= i < n ==> before[i] == now[i];
    if NoRepeats(now) {
      forall i | 0 <= i < n ensures before[i] != values[n] {
        assert now[i] != now[n];
      }
    }
  }

  lemma DistinctEntriesStep(catalog: seq<Entry>, n: nat)
    requires n < |catalog|
    ensures DistinctEntries(catalog[..n + 1])
            <==> DistinctEntries(catalog[..n]) && catalog[n].code !in CodesOf(catalog[..n])
                 && catalog[n].evidenceType !in TypesOf(catalog[..n])
    ensures CodesOf(catalog[..n + 1]) == CodesOf(catalog[..n]) + [catalog[n].code]
    ensures TypesOf(catalog[..n + 1]) == TypesOf(catalog[..n]) + [catalog[n].evidenceType]
    ensures DistinctEntries(catalog) ==> DistinctEntries(catalog[..n + 1])
  {
    hide NoRepeats;
    var codes, types := CodesOf(catalog), TypesOf(catalog);
    assert CodesOf(catalog[..n + 1]) == codes[..n + 1] && CodesOf(catalog[..n]) == codes[..n];
    assert TypesOf(catalog[..n + 1]) == types[..n + 1] && TypesOf(catalog[..n]) == types[..n];
    NoRepeatsStep(codes, n);
    NoRepeatsStep(types, n);
  }

  lemma NoEntries()
    ensures DistinctEntries([]) && CodesOf([]) == [] && TypesOf([]) == []
  {
  }

  lemma EntryTexts(w: World, issuers: map<string, Json>, e: Entry)
    requires EntryOk(w, issuers, e)
    ensures e.code.Str? && e.evidenceType.Str?
  {
  }

  lemma IndexSlice(w: World, p: Policy, digest: string, assessedAt: int, catalog: seq<Entry>, n: nat)
    requires AssessorAccepts(w, p) && n < |catalog|
    requires forall i :: 0 <= i <= n ==> EntryOk(w, p.issuers.value, catalog[i])
    ensures catalog[n].evidenceType.Str? && catalog[n].code.Str?
    ensures Index(w, p, digest, assessedAt, catalog[..n + 1])
         == Index(w, p, digest, assessedAt, catalog[..n])
              [catalog[n].evidenceType.s := Indexed(catalog[n].code.s, Effective(w, p, digest, assessedAt, catalog[n]))]
  {
    hide EntryOk, Effective, AssessorAccepts;
    PolicyIssuers(w, p);
    EntryTexts(w, p.issuers.value, catalog[n]);
    assert catalog[..n + 1][..n] == catalog[..n];
  }

  /** `index_evidence`. */
  method IndexEvidence(w: World, p: Policy, digest: string, assessedAt: int, catalog: seq<Entry>)
    returns (r: Result<map<string, Indexed>, Refused>)
    requires AssessorAccepts(w, p)
    ensures r.Ok? <==> CatalogAccepted(w, p.issuers.value, catalog)
    ensures r.Ok? ==> r.value == Index(w, p, digest, assessedAt, catalog)
  {
    hide AssessorAccepts, EntryOk, DistinctEntries, TypesOf, CodesOf, Effective, Index;
    assert p.issuers.Some? by { PolicyIssuers(w, p); }
    var indexed: map<string, Indexed>, codes: set<Json>, types: set<Json> := map[], {}, {};
    assert catalog[..0] == [];
    NoEntries();
    assert Index(w, p, digest, assessedAt, []) == map[] by { NothingIndexed(w, p, digest, assessedAt); }
    for i := 0 to |catalog|
      invariant forall k :: 0 <= k < i ==> EntryOk(w, p.issuers.value, catalog[k])
      invariant DistinctEntries(catalog[..i])
      invariant forall x :: x in codes <==> x in CodesOf(catalog[..i])
      invariant forall x :: x in types <==> x in TypesOf(catalog[..i])
      invariant indexed == Index(w, p, digest, assessedAt, catalog[..i])
    {
      var e := catalog[i];
      DistinctEntriesStep(catalog, i);
      if !EntryOk(w, p.issuers.value, e) {
        return Err(Refused);
      }
      if e.code in codes || e.evidenceType in types {
        return Err(Refused);
      }
      IndexSlice(w, p, digest, assessedAt, catalog, i);
      codes, types := codes + {e.code}, types + {e.evidenceType};
      indexed := indexed[e.evidenceType.s := Indexed(e.code.s, Effective(w, p, digest, assessedAt, e))];
    }
    assert catalog[..|catalog|] == catalog;
    return Ok(indexed);
  }

  lemma PolicyIssuers(w: World, p: Policy)
    requires AssessorAccepts(w, p)
    ensures p.issuers.Some? && p.requirements.Some?
  {
  }

  lemma NothingIndexed(w: World, p: Policy, digest: string, assessedAt: int)
    requires AssessorAccepts(w, p)
    ensures Index(w, p, digest, assessedAt, []) == map[]
  {
  }

  lemma ScopeGiven(w: World, scope: Option<Scope>)
    requires ScopeOk(w, scope)
    ensures scope.Some?
  {
  }

  /** `assess`: the statuses of all requirements and the conclusion, or a refusal. */
  method Assess(w: World, p: Policy, rows: seq<CoverageRow>, doc: Document, generatedAt: int)
    returns (r: Result<Assessment, Refused>)
    ensures r.Ok? <==> AssessAccepted(w, p, rows, doc, generatedAt)
    ensures r.Ok? ==> r.value == AssessmentOf(w, p, rows, doc, generatedAt)
  {
    hide AssessorAccepts, CoverageAccepted, CatalogAccepted, ScopeOk, Judge, Count, CoverageMap, Index;
    if !AssessorAccepts(w, p) || !DocumentHeader(w, doc, generatedAt) {
      return Err(Refused);
    }
    PolicyIssuers(w, p);
    assert doc.scope.Some? by { ScopeGiven(w, doc.scope); }
    var digest := w.digest(doc.scope.value);
    var coverage := LoadCoverage(p.requirements.value, rows);
    if coverage.Err? {
      return Err(Refused);
    }
    var evidence := IndexEvidence(w, p, digest, w.time(doc.assessedAt).value, doc.catalog.value);
    if evidence.Err? {
      return Err(Refused);
    }
    RequirementsCovered(w, p, rows, doc, generatedAt);
    var results: seq<Judgement> := [];
    ghost var expected := Results(w, p, rows, doc, generatedAt);
    for i := 0 to |p.requirements.value|
      invariant results == expected[..i]
    {
      results := results + [Judge(p.requirements.value[i], coverage.value, evidence.value)];
    }
    assert expected[..|p.requirements.value|] == expected;
    var summary := Summarize(results);
    return Ok(Assessment(doc.source, w.stamp(generatedAt), digest, Conclude(summary), summary, results));
  }
}
