// How the assessment moves: worse evidence never improves it, the order of the catalog does not
// matter, and a generated coverage table is one it accepts.
module SlsaVerdict {
  import opened Json
  import opened PyStrings
  import opened StableSort
  import opened SlsaContract
  import opened SlsaAdapter
  import opened SlsaAssessor
  import opened SlsaComposition
  import SlsaViewsAgree

  // ---------------------------------------------------------------- monotonicity

  function OutcomeRank(o: Outcome): nat {
    match o case Pass => 0 case Finding => 1 case Error => 2
  }

  /** The later index has the same types, each with a result at least as bad. */
  ghost predicate Worse(index: map<string, Indexed>, later: map<string, Indexed>) {
    && index.Keys == later.Keys
    && forall t :: t in index ==> OutcomeRank(index[t].result) <= OutcomeRank(later[t].result)
  }

  lemma {:induction false} WorseAvailable(index: map<string, Indexed>, later: map<string, Indexed>, types: seq<Json>)
    requires Worse(index, later)
    ensures |Available(index, types)| == |Available(later, types)|
    ensures forall i :: 0 <= i < |Available(index, types)| ==>
              OutcomeRank(Available(index, types)[i].result) <= OutcomeRank(Available(later, types)[i].result)
  {
    if types != [] {
      WorseAvailable(index, later, types[1..]);
    }
  }

  lemma WorseStatus(covered: Covered, available: seq<Indexed>, later: seq<Indexed>, required: nat)
    requires |available| == |later|
    requires forall i :: 0 <= i < |available| ==> OutcomeRank(available[i].result) <= OutcomeRank(later[i].result)
    ensures Rank(StatusOf(covered, available, required)) <= Rank(StatusOf(covered, later, required))
  {
    if SomeResult(available, Error) {
      var i :| 0 <= i < |available| && available[i].result == Error;
      assert later[i].result == Error;
    } else if SomeResult(available, Finding) {
      var i :| 0 <= i < |available| && available[i].result == Finding;
      assert later[i].result == Error || later[i].result == Finding;
    }
  }

  lemma WorseConclusion(results: seq<Judgement>, later: seq<Judgement>)
    requires |results| == |later|
    requires forall i :: 0 <= i < |results| ==> Rank(results[i].status) <= Rank(later[i].status)
    ensures Rank(Behind(Conclude(Summarize(results)))) <= Rank(Behind(Conclude(Summarize(later))))
  {
    hide Summarize;
    ConclusionIsWorst(results);
    ConclusionIsWorst(later);
    if !Conclude(Summarize(results)).ConcludedPass? {
      var i :| 0 <= i < |results| && results[i].status == Behind(Conclude(Summarize(results)));
      assert Rank(results[i].status) <= Rank(later[i].status);
    }
  }

  function ResultRank(result: Json): nat {
    if result == Str("error") then 2 else if result == Str("finding") then 1 else 0
  }

  /** The same catalog, except that some results are worse. */
  predicate Worsened(catalog: seq<Entry>, later: seq<Entry>) {
    && |catalog| == |later|
    && forall i :: 0 <= i < |catalog| ==>
        later[i] == catalog[i].(result := later[i].result) && ResultOk(later[i].result)
        && ResultRank(catalog[i].result) <= ResultRank(later[i].result)
  }

  lemma WorseEffective(w: World, p: Policy, digest: string, assessedAt: int, e: Entry, later: Entry)
    requires AssessorAccepts(w, p) && EntryOk(w, p.issuers.value, e)
    requires later == e.(result := later.result) && ResultOk(later.result)
    requires ResultRank(e.result) <= ResultRank(later.result)
    ensures EntryOk(w, p.issuers.value, later)
    ensures OutcomeRank(Effective(w, p, digest, assessedAt, e)) <= OutcomeRank(Effective(w, p, digest, assessedAt, later))
  {
    hide HeaderOk, IssuersOk, RequirementOk;
    ResultTexts();
  }

  lemma WorsenedIndex(w: World, p: Policy, digest: string, assessedAt: int, catalog: seq<Entry>, later: seq<Entry>)
    requires AssessorAccepts(w, p) && CatalogAccepted(w, p.issuers.value, catalog) && Worsened(catalog, later)
    ensures CatalogAccepted(w, p.issuers.value, later)
    ensures Worse(Index(w, p, digest, assessedAt, catalog), Index(w, p, digest, assessedAt, later))
  {
    hide AssessorAccepts, EntryOk, Effective, Index, NoRepeats, ResultOk, ResultRank;
    PolicyIssuers(w, p);
    forall i | 0 <= i < |catalog|
      ensures EntryOk(w, p.issuers.value, later[i])
      ensures OutcomeRank(Effective(w, p, digest, assessedAt, catalog[i]))
              <= OutcomeRank(Effective(w, p, digest, assessedAt, later[i]))
    {
      WorseEffective(w, p, digest, assessedAt, catalog[i], later[i]);
    }
    assert CodesOf(catalog) == CodesOf(later) && TypesOf(catalog) == TypesOf(later);
    IndexFinds(w, p, digest, assessedAt, catalog);
    IndexFinds(w, p, digest, assessedAt, later);
    var index, worse := Index(w, p, digest, assessedAt, catalog), Index(w, p, digest, assessedAt, later);
    forall t | t in index ensures t in worse && OutcomeRank(index[t].result) <= OutcomeRank(worse[t].result) {
      assert Str(t) in TypesOf(catalog);
      var i :| 0 <= i < |catalog| && TypesOf(catalog)[i] == Str(t);
      assert catalog[i].evidenceType.s == t && later[i].evidenceType.s == t;
    }
  }

  /** Worsening any evidence result never improves a requirement's status or the conclusion. */
  lemma WorseEvidenceNeverImproves(w: World, p: Policy, rows: seq<CoverageRow>, doc: Document, later: Document,
                                   generatedAt: int)
    requires AssessAccepted(w, p, rows, doc, generatedAt)
    requires later.catalog.Some? && later == doc.(catalog := later.catalog)
    requires Worsened(doc.catalog.value, later.catalog.value)
    ensures AssessAccepted(w, p, rows, later, generatedAt)
    ensures var before, after := AssessmentOf(w, p, rows, doc, generatedAt), AssessmentOf(w, p, rows, later, generatedAt);
            && |before.results| == |after.results|
            && (forall i :: 0 <= i < |before.results| ==>
                  Rank(before.results[i].status) <= Rank(after.results[i].status))
            && Rank(Behind(before.conclusion)) <= Rank(Behind(after.conclusion))
  {
    hide AssessorAccepts, CoverageAccepted, CatalogAccepted, CoverageMap, Index, Worse, Worsened, Summarize, StatusOf,
         ScopeOk, Available;
    PolicyIssuers(w, p);
    ScopeGiven(w, doc.scope);
    var digest, assessedAt := w.digest(doc.scope.value), w.time(doc.assessedAt).value;
    WorsenedIndex(w, p, digest, assessedAt, doc.catalog.value, later.catalog.value);
    var before, after := Results(w, p, rows, doc, generatedAt), Results(w, p, rows, later, generatedAt);
    RequirementsCovered(w, p, rows, doc, generatedAt);
    forall i | 0 <= i < |before| ensures Rank(before[i].status) <= Rank(after[i].status) {
      var r := p.requirements.value[i];
      var index, worse := IndexOf(w, p, doc, generatedAt), IndexOf(w, p, later, generatedAt);
      WorseAvailable(index, worse, r.types.items);
      WorseStatus(CoverageMap(rows)[r.id], Available(index, r.types.items), Available(worse, r.types.items),
                  |r.types.items|);
    }
    WorseConclusion(before, after);
  }

  // ---------------------------------------------------------------- catalog order

  function CodeKey(e: Entry): string { if e.code.Str? then e.code.s else "" }
  function TypeKey(e: Entry): string { if e.evidenceType.Str? then e.evidenceType.s else "" }

  lemma DistinctKeys(w: World, issuers: map<string, Json>, catalog: seq<Entry>)
    requires forall i :: 0 <= i < |catalog| ==> EntryOk(w, issuers, catalog[i])
    ensures DistinctEntries(catalog) <==> DistinctBy(CodeKey, catalog) && DistinctBy(TypeKey, catalog)
  {
    hide EntryOk;
    forall i | 0 <= i < |catalog|
      ensures CodesOf(catalog)[i] == Str(CodeKey(catalog[i])) && TypesOf(catalog)[i] == Str(TypeKey(catalog[i]))
    {
      EntryTexts(w, issuers, catalog[i]);
    }
  }

  lemma ShuffledCatalog(w: World, p: Policy, catalog: seq<Entry>, shuffled: seq<Entry>)
    requires AssessorAccepts(w, p) && CatalogAccepted(w, p.issuers.value, catalog)
    requires multiset(catalog) == multiset(shuffled)
    ensures CatalogAccepted(w, p.issuers.value, shuffled)
  {
    hide AssessorAccepts, EntryOk, DistinctEntries;
    PolicyIssuers(w, p);
    SameMembers(catalog, shuffled);
    forall i | 0 <= i < |shuffled| ensures EntryOk(w, p.issuers.value, shuffled[i]) {
      assert shuffled[i] in catalog;
    }
    DistinctKeys(w, p.issuers.value, catalog);
    DistinctKeys(w, p.issuers.value, shuffled);
    DistinctSpread(CodeKey, catalog, shuffled);
    DistinctSpread(TypeKey, catalog, shuffled);
  }

  lemma SameIndex(w: World, p: Policy, digest: string, assessedAt: int, catalog: seq<Entry>, shuffled: seq<Entry>)
    requires AssessorAccepts(w, p) && CatalogAccepted(w, p.issuers.value, catalog)
    requires CatalogAccepted(w, p.issuers.value, shuffled)
    requires multiset(catalog) == multiset(shuffled)
    ensures Index(w, p, digest, assessedAt, catalog) == Index(w, p, digest, assessedAt, shuffled)
  {
    hide AssessorAccepts, EntryOk, Effective, Index, DistinctEntries;
    PolicyIssuers(w, p);
    SameMembers(catalog, shuffled);
    IndexFinds(w, p, digest, assessedAt, catalog);
    IndexFinds(w, p, digest, assessedAt, shuffled);
    var index, other := Index(w, p, digest, assessedAt, catalog), Index(w, p, digest, assessedAt, shuffled);
    TypesShuffled(catalog, shuffled);
    forall t | t in index ensures t in other && index[t] == other[t] {
      assert Str(t) in TypesOf(catalog);
      var i :| 0 <= i < |catalog| && TypesOf(catalog)[i] == Str(t);
      assert catalog[i] in shuffled;
      var j :| 0 <= j < |shuffled| && shuffled[j] == catalog[i];
      assert catalog[i].evidenceType.s == t;
    }
    assert forall t :: t in index <==> t in other;
  }

  lemma TypesShuffled(catalog: seq<Entry>, shuffled: seq<Entry>)
    requires forall e :: e in catalog <==> e in shuffled
    ensures forall t :: t in TypesOf(catalog) <==> t in TypesOf(shuffled)
  {
    forall t | t in TypesOf(catalog) ensures t in TypesOf(shuffled) {
      var i :| 0 <= i < |catalog| && TypesOf(catalog)[i] == t;
      assert catalog[i] in shuffled;
      var j :| 0 <= j < |shuffled| && shuffled[j] == catalog[i];
      assert TypesOf(shuffled)[j] == t;
    }
    forall t | t in TypesOf(shuffled) ensures t in TypesOf(catalog) {
      var i :| 0 <= i < |shuffled| && TypesOf(shuffled)[i] == t;
      assert shuffled[i] in catalog;
      var j :| 0 <= j < |catalog| && catalog[j] == shuffled[i];
      assert TypesOf(catalog)[j] == t;
    }
  }

  /** The order of an accepted catalog is irrelevant to the whole assessment. */
  lemma CatalogOrderIrrelevant(w: World, p: Policy, rows: seq<CoverageRow>, doc: Document, shuffled: Document,
                               generatedAt: int)
    requires AssessAccepted(w, p, rows, doc, generatedAt)
    requires shuffled.catalog.Some? && shuffled == doc.(catalog := shuffled.catalog)
    requires multiset(doc.catalog.value) == multiset(shuffled.catalog.value)
    ensures AssessAccepted(w, p, rows, shuffled, generatedAt)
    ensures AssessmentOf(w, p, rows, doc, generatedAt) == AssessmentOf(w, p, rows, shuffled, generatedAt)
  {
    hide AssessorAccepts, CoverageAccepted, CatalogAccepted, CoverageMap, Index, Summarize, Judge, ScopeOk;
    PolicyIssuers(w, p);
    ScopeGiven(w, doc.scope);
    ShuffledCatalog(w, p, doc.catalog.value, shuffled.catalog.value);
    SameIndex(w, p, w.digest(doc.scope.value), w.time(doc.assessedAt).value, doc.catalog.value, shuffled.catalog.value);
  }

  // ---------------------------------------------------------------- the generated coverage table

  /** The requirement identifiers of the registry's profile. */
  function ProfileIds(entries: seq<Views.Entry>): set<string> {
    set e | e in entries && Views.InProfile(e) :: e.id
  }

  ghost predicate PublishableEntries(entries: seq<Views.Entry>) {
    && Views.ValidEntries(entries)
    && forall i :: 0 <= i < |entries| && Views.InProfile(entries[i]) ==>
        entries[i].id != "" && entries[i].title != "" && entries[i].responsibility != ""
  }

  /** A coverage row of one profile entry. */
  ghost predicate Covers(r: CoverageRow, controls: seq<Views.Control>, entries: seq<Views.Entry>, version: string) {
    exists e :: e in entries && Views.InProfile(e) && r == Views.CoverageOf(version, e, Views.Mapped(controls, e.id))
  }

  predicate DistinctIds(rows: seq<CoverageRow>) {
    forall i, j :: 0 <= i < j < |rows| ==> rows[i].requirementId != rows[j].requirementId
  }

  lemma DistinctIdsSnoc(rows: seq<CoverageRow>, last: CoverageRow)
    requires DistinctIds(rows) && forall i :: 0 <= i < |rows| ==> rows[i].requirementId != last.requirementId
    ensures DistinctIds(rows + [last])
  {
  }

  lemma {:induction false} CoverageDistinct(controls: seq<Views.Control>, version: string, ordered: seq<Views.Entry>)
    requires DistinctBy(Views.EntryId, ordered)
    ensures DistinctIds(Views.CoverageRows(controls, version, ordered))
  {
    hide Views.CoverageOf, Views.Mapped, DistinctIds;
    assert DistinctIds([]) by { NoIds(); }
    if ordered != [] {
      var n := |ordered| - 1;
      var init, last := ordered[..n], ordered[n];
      CoverageDistinct(controls, version, init);
      var rows := Views.CoverageRows(controls, version, init);
      assert DistinctIds(rows);
      forall i | 0 <= i < |rows| ensures rows[i].requirementId != last.id {
        SlsaViewsAgree.CoverageMembers(controls, version, init, rows[i]);
        assert rows[i] in rows;
        var e :| e in init && rows[i] == Views.CoverageOf(version, e, Views.Mapped(controls, e.id));
        CoverageFields(controls, version, e);
        var k :| 0 <= k < |init| && init[k] == e;
        assert Views.EntryId(ordered[k]) != Views.EntryId(ordered[n]);
      }
      CoverageFields(controls, version, last);
      assert rows + [] == rows;
      DistinctIdsSnoc(rows, Views.CoverageOf(version, last, Views.Mapped(controls, last.id)));
    }
  }

  lemma NoIds()
    ensures DistinctIds([])
  {
  }

  lemma CoverageFields(controls: seq<Views.Control>, version: string, e: Views.Entry)
    ensures var r := Views.CoverageOf(version, e, Views.Mapped(controls, e.id));
            r.requirementId == e.id && InProfile(r) && r.title == e.title && r.responsibility == e.responsibility
            && r.version == version && r.track == "build" && r.targetLevel == "2"
  {
  }

  lemma CoveredByEntry(controls: seq<Views.Control>, registry: Views.Registry, r: CoverageRow)
    ensures r in Views.Coverage(controls, registry)
            <==> Covers(r, controls, registry.entries, registry.mappingVersion)
  {
    hide Views.CoverageRows, Views.CoverageOf, Views.Mapped, Sort, Views.InProfile;
    var ordered := Sort(Views.EntryKey, registry.entries);
    SameMembers(ordered, registry.entries);
    SlsaViewsAgree.CoverageMembers(controls, registry.mappingVersion, ordered, r);
  }

  /** The assessor accepts every generated coverage table whose registry lists the policy's requirements. */
  lemma GeneratedCoverageLoads(controls: seq<Views.Control>, registry: Views.Registry, reqs: seq<Requirement>)
    requires PublishableEntries(registry.entries) && registry.mappingVersion == "1.2"
    requires ProfileIds(registry.entries) == RequirementIds(reqs)
    ensures CoverageAccepted(reqs, Views.Coverage(controls, registry))
  {
    hide Views.Coverage, Views.CoverageRows, Views.CoverageOf, Views.Mapped, Sort, RequirementIds;
    var entries, rows := registry.entries, Views.Coverage(controls, registry);
    forall i | 0 <= i < |rows|
      ensures InProfile(rows[i]) && CoverageMetadata(rows[i])
      ensures rows[i].requirementId != "" && rows[i].requirementId in ProfileIds(entries)
    {
      CoveredByEntry(controls, registry, rows[i]);
      var e :| e in entries && Views.InProfile(e)
               && rows[i] == Views.CoverageOf("1.2", e, Views.Mapped(controls, e.id));
      CoverageFields(controls, "1.2", e);
      var k :| 0 <= k < |entries| && entries[k] == e;
    }
    forall id | id in ProfileIds(entries) ensures id in CoveredIds(rows) {
      var e :| e in entries && Views.InProfile(e) && e.id == id;
      var r := Views.CoverageOf("1.2", e, Views.Mapped(controls, e.id));
      CoverageFields(controls, "1.2", e);
      assert Covers(r, controls, entries, "1.2");
      CoveredByEntry(controls, registry, r);
      var i :| 0 <= i < |rows| && rows[i] == r;
    }
    assert CoveredIds(rows) == ProfileIds(entries);
    GeneratedIdsDistinct(controls, registry);
  }

  lemma GeneratedIdsDistinct(controls: seq<Views.Control>, registry: Views.Registry)
    requires Views.ValidEntries(registry.entries)
    ensures DistinctIds(Views.Coverage(controls, registry))
  {
    hide Views.CoverageRows, Sort, Views.EntryKey, DistinctIds;
    var ordered := Sort(Views.EntryKey, registry.entries);
    DistinctSpread(Views.EntryId, registry.entries, ordered);
    CoverageDistinct(controls, registry.mappingVersion, ordered);
  }

  /** A generated row counts as mapped exactly when some control maps a check to its requirement. */
  lemma GeneratedRowMapped(controls: seq<Views.Control>, e: Views.Entry)
    requires Views.ValidControls(controls)
    ensures MappedEvidence(Views.CoverageOf("1.2", e, Views.Mapped(controls, e.id)))
            <==> exists c, check :: c in controls && SlsaViewsAgree.Assigns(c, check, e.id)
  {
    hide Views.ValidControls, Views.Mapped, Views.LoadedChecks, Views.SortedSet, SlsaViewsAgree.Assigns;
    var mapped := Views.Mapped(controls, e.id);
    SlsaViewsAgree.CoverageReadsBack(controls, "1.2", e);
    SlsaViewsAgree.SortedSetSorts(mapped);
    if mapped != [] {
      assert mapped[0] in mapped && mapped[0] in Views.SortedSet(mapped);
      SlsaViewsAgree.MappedMembers(controls, e.id, mapped[0]);
    }
    if c, check :| c in controls && SlsaViewsAgree.Assigns(c, check, e.id) {
      SlsaViewsAgree.MappedMembers(controls, e.id, Views.FullId(c.id, check));
    }
    assert (if mapped == [] then "gap" else "mapped-evidence") == "mapped-evidence" <==> mapped != [] by {
      assert "gap"[0] != "mapped-evidence"[0];
    }
  }

  /**
   * The whole chain, from catalogue to verdict: with a generated coverage table and an adapter's catalog the
   * conclusion is PASS exactly when every required evidence item is sound and every profile requirement of the
   * registry has a check assigned to it.
   */
  lemma PipelinePasses(w: World, p: Policy, a: AdapterPolicy, assessedAt: int, controls: seq<Views.Control>,
                       registry: Views.Registry, doc: Document, generatedAt: int)
    requires Faithful(w) && AssessorAccepts(w, p) && BuildAccepted(w, p, a, assessedAt)
    requires IsInput(w, p, a, assessedAt, doc) && assessedAt <= generatedAt
    requires Views.ValidControls(controls) && PublishableEntries(registry.entries)
    requires registry.mappingVersion == "1.2" && ProfileIds(registry.entries) == RequirementIds(p.requirements.value)
    ensures AssessAccepted(w, p, Views.Coverage(controls, registry), doc, generatedAt)
    ensures AssessmentOf(w, p, Views.Coverage(controls, registry), doc, generatedAt).conclusion == ConcludedPass
            <==> (forall t :: t in Issuers(p) ==> Sound(w, p, a, assessedAt, t))
                 && forall e :: e in registry.entries && Views.InProfile(e) ==>
                      exists c, check :: c in controls && SlsaViewsAgree.Assigns(c, check, e.id)
  {
    hide Faithful, AssessorAccepts, BuildAccepted, IsInput, Views.ValidControls, PublishableEntries, ProfileIds,
         RequirementIds, Views.Coverage, Sound, MappedEvidence, AssessmentOf, AssessAccepted, CoverageAccepted,
         Issuers, Views.CoverageOf, Views.Mapped, Views.InProfile, SlsaViewsAgree.Assigns;
    PolicyIssuers(w, p);
    var rows := Views.Coverage(controls, registry);
    GeneratedCoverageLoads(controls, registry, p.requirements.value);
    PassMeans(w, p, a, assessedAt, rows, doc, generatedAt);
    AllMapped(controls, registry);
  }

  lemma AllMapped(controls: seq<Views.Control>, registry: Views.Registry)
    requires Views.ValidControls(controls) && registry.mappingVersion == "1.2"
    ensures var rows := Views.Coverage(controls, registry);
            (forall j :: 0 <= j < |rows| && InProfile(rows[j]) ==> MappedEvidence(rows[j]))
            <==> forall e :: e in registry.entries && Views.InProfile(e) ==>
                   exists c, check :: c in controls && SlsaViewsAgree.Assigns(c, check, e.id)
  {
    hide Views.ValidControls, Views.Coverage, MappedEvidence, Views.CoverageOf, Views.Mapped, Views.InProfile,
         SlsaViewsAgree.Assigns, InProfile;
    var rows := Views.Coverage(controls, registry);
    if forall j :: 0 <= j < |rows| && InProfile(rows[j]) ==> MappedEvidence(rows[j]) {
      forall e | e in registry.entries && Views.InProfile(e)
        ensures exists c, check :: c in controls && SlsaViewsAgree.Assigns(c, check, e.id)
      {
        var r := Views.CoverageOf("1.2", e, Views.Mapped(controls, e.id));
        assert Covers(r, controls, registry.entries, "1.2");
        CoveredByEntry(controls, registry, r);
        CoverageFields(controls, "1.2", e);
        var j :| 0 <= j < |rows| && rows[j] == r;
        GeneratedRowMapped(controls, e);
      }
    }
    if forall e :: e in registry.entries && Views.InProfile(e) ==>
         exists c, check :: c in controls && SlsaViewsAgree.Assigns(c, check, e.id)
    {
      forall j | 0 <= j < |rows| && InProfile(rows[j]) ensures MappedEvidence(rows[j]) {
        CoveredByEntry(controls, registry, rows[j]);
        var e :| e in registry.entries && Views.InProfile(e)
                 && rows[j] == Views.CoverageOf("1.2", e, Views.Mapped(controls, e.id));
        GeneratedRowMapped(controls, e);
      }
    }
  }
}
