// What holds across the two programs: composition, the meaning of PASS, and how the conclusion moves.
module SlsaComposition {
  import opened Wrappers
  import opened Json
  import opened PyStrings
  import opened StableSort
  import opened SlsaContract
  import opened Times
  import opened SlsaAdapter
  import opened SlsaAssessor

  // ---------------------------------------------------------------- the conclusion

  function Behind(c: Conclusion): Status {
    match c case ConcludedPass => PASS case Incomplete => NOT_CHECKED case ConcludedFail => FAIL
            case ConcludedError => ERROR
  }

  lemma {:induction false} CountsAll(results: seq<Judgement>)
    ensures Count(results, PASS) + Count(results, FAIL) + Count(results, NOT_CHECKED) + Count(results, ERROR) == |results|
  {
    if results != [] {
      CountsAll(results[..|results| - 1]);
    }
  }

  lemma {:induction false} CountPositive(results: seq<Judgement>, status: Status)
    ensures Count(results, status) > 0 <==> exists i :: 0 <= i < |results| && results[i].status == status
  {
    if results != [] {
      var init := results[..|results| - 1];
      CountPositive(init, status);
      if i :| 0 <= i < |results| && results[i].status == status {
        assert i == |results| - 1 || init[i].status == status;
      }
      if i :| 0 <= i < |init| && init[i].status == status {
        assert results[i].status == status;
      }
    }
  }

  /** The conclusion is the worst requirement status, and the summary counts every requirement once. */
  lemma ConclusionIsWorst(results: seq<Judgement>)
    ensures forall i :: 0 <= i < |results| ==>
              Rank(results[i].status) <= Rank(Behind(Conclude(Summarize(results))))
    ensures Conclude(Summarize(results)).ConcludedPass?
            || exists i :: 0 <= i < |results| && results[i].status == Behind(Conclude(Summarize(results)))
    ensures var s := Summarize(results); s.pass + s.fail + s.notChecked + s.error == |results|
  {
    hide Count;
    CountsAll(results);
    CountPositive(results, ERROR);
    CountPositive(results, FAIL);
    CountPositive(results, NOT_CHECKED);
    forall i | 0 <= i < |results| ensures Rank(results[i].status) <= Rank(Behind(Conclude(Summarize(results)))) {
      var status := results[i].status;
      assert status == ERROR || status == FAIL || status == NOT_CHECKED || status == PASS;
    }
  }

  // ---------------------------------------------------------------- the index

  /** With distinct types every entry is found under its own type. */
  lemma {:induction false} IndexFinds(w: World, p: Policy, digest: string, assessedAt: int, catalog: seq<Entry>)
    requires AssessorAccepts(w, p) && CatalogAccepted(w, p.issuers.value, catalog)
    ensures forall t :: t in Index(w, p, digest, assessedAt, catalog) <==> Str(t) in TypesOf(catalog)
    ensures forall i :: 0 <= i < |catalog| ==>
              var t := catalog[i].evidenceType;
              t.Str? && catalog[i].code.Str? && t.s in Index(w, p, digest, assessedAt, catalog)
              && Index(w, p, digest, assessedAt, catalog)[t.s]
                 == Indexed(catalog[i].code.s, Effective(w, p, digest, assessedAt, catalog[i]))
  {
    hide AssessorAccepts, EntryOk, Effective, NoRepeats;
    PolicyIssuers(w, p);
    if catalog != [] {
      var n := |catalog| - 1;
      var init, last := catalog[..n], catalog[n];
      assert catalog[..n + 1] == catalog;
      DistinctEntriesStep(catalog, n);
      IndexFinds(w, p, digest, assessedAt, init);
      IndexSlice(w, p, digest, assessedAt, catalog, n);
      forall i | 0 <= i < n ensures catalog[i].evidenceType != last.evidenceType {
        assert catalog[i] == init[i] && TypesOf(init)[i] == init[i].evidenceType;
      }
      forall i | 0 <= i < |catalog| ensures i < n ==> catalog[i] == init[i] {
      }
    }
  }

  lemma {:induction false} AllAvailable(index: map<string, Indexed>, types: seq<Json>)
    requires forall i :: 0 <= i < |types| ==> types[i].Str? && types[i].s in index
    ensures |Available(index, types)| == |types|
    ensures forall i :: 0 <= i < |types| ==> Available(index, types)[i] == index[types[i].s]
  {
    if types != [] {
      AllAvailable(index, types[1..]);
    }
  }

  lemma ResultTexts()
    ensures "error" != "pass" && "error" != "finding" && "pass" != "finding"
  {
    assert "error"[0] == 'e' && "pass"[0] == 'p' && "finding"[0] == 'f';
  }

  // ---------------------------------------------------------------- composition

  /** Bundle evidence good enough for PASS: passed, immutable, and fresh at whole seconds. */
  predicate Sound(w: World, p: Policy, a: AdapterPolicy, assessedAt: int, t: string) {
    match Evidence(w, p, a, t)
    case None => false
    case Some((b, item)) =>
      && item.result == Str("pass") && item.immutable == YES
      && p.maximumAge.Num? && w.time(b.observedAt).Some?
      && Fresh(Floor(assessedAt), Floor(w.time(b.observedAt).value), p.maximumAge.n)
  }

  /** Bundle evidence whose collection failed. */
  predicate Failed(w: World, p: Policy, a: AdapterPolicy, t: string) {
    match Evidence(w, p, a, t)
    case None => false
    case Some((b, item)) => item.result == Str("error")
  }

  ghost predicate BundleAnswers(w: World, p: Policy, a: AdapterPolicy, t: string, b: Bundle, item: Item)
    requires a.scope.Some?
  {
    && t in Issuers(p)
    && Evidence(w, p, a, t) == Some((b, item))
    && w.time(b.observedAt).Some?
    && ItemOk(w, item, Expected(Issuers(p), Issuers(p)[t])) && item.evidenceType == Str(t)
    && CatalogEntry(w, p, a, t) == Some(EntryOf(w, w.digest(a.scope.value), Issuers(p)[t], b, item))
  }

  lemma TypeHasEvidence(w: World, p: Policy, a: AdapterPolicy, assessedAt: int, t: string)
    requires BuildAccepted(w, p, a, assessedAt) && t in Issuers(p)
    ensures a.scope.Some? && exists b, item :: BundleAnswers(w, p, a, t, b, item)
  {
    hide AdapterAccepts, Issuers, BundleOf, ItemOf, EntryOf, TrustAccepted, Evidence, CatalogEntry, ItemOk, BundleOk;
    HeaderParts(w, a);
    var role := Issuers(p)[t];
    assert role in Roles(Issuers(p));
    var b := BundleOf(w, a.trusted.value, role).value;
    BundleTypes(w, Issuers(p), w.digest(a.scope.value), role, b, t);
    var item := BundleItem(w, Issuers(p), w.digest(a.scope.value), role, b, t);
    EntryFromBundle(w, p, a, t, role, b);
    assert BundleAnswers(w, p, a, t, b, item);
  }

  lemma BundleItem(w: World, issuers: map<string, string>, digest: string, role: string, b: Bundle, t: string)
    returns (item: Item)
    requires BundleOk(w, issuers, digest, role, b) && ItemOf(b.evidence.value, t).Some?
    ensures item == ItemOf(b.evidence.value, t).value && item.evidenceType == Str(t)
    ensures ItemOk(w, item, Expected(issuers, role))
    ensures b.evidence.Some? && w.time(b.observedAt).Some?
  {
    hide ItemOf, ItemOk;
    ItemOfFinds(b.evidence.value, t);
    item := ItemOf(b.evidence.value, t).value;
  }

  lemma EntryPasses(w: World, p: Policy, a: AdapterPolicy, t: string, b: Bundle, item: Item, e: Entry)
    requires Faithful(w) && AdapterAccepts(w, p) && a.scope.Some?
    requires BundleAnswers(w, p, a, t, b, item) && CatalogEntry(w, p, a, t) == Some(e)
    ensures p.issuers.Some? && EntryOk(w, p.issuers.value, e)
    ensures e.evidenceType == Str(t) && e.code == Str(t)
  {
    hide Evidence, CatalogEntry, HeaderOk, Referenced;
    assert t in p.issuers.value;
    assert e == EntryOf(w, w.digest(a.scope.value), Issuers(p)[t], b, item);
    assert w.time(e.observedAt) == Some(Floor(w.time(b.observedAt).value));
    assert SafeText(e.scopeSha256, w.sha256);
    assert SafeText(e.code, w.code);
    assert ResultOk(e.result);
  }

  lemma TypesAreKeys(w: World, p: Policy)
    requires AdapterAccepts(w, p)
    ensures p.issuers.Some? && Issuers(p).Keys == p.issuers.value.Keys
    ensures forall t :: t in p.issuers.value ==> p.issuers.value[t] == Str(Issuers(p)[t])
  {
    hide HeaderOk, Referenced;
  }

  lemma EntryIsAccepted(w: World, p: Policy, a: AdapterPolicy, assessedAt: int, t: string, e: Entry)
    requires Faithful(w) && BuildAccepted(w, p, a, assessedAt) && t in Issuers(p)
    requires CatalogEntry(w, p, a, t) == Some(e)
    ensures p.issuers.Some? && EntryOk(w, p.issuers.value, e)
    ensures e.evidenceType == Str(t) && e.code == Str(t)
  {
    hide AdapterAccepts, BundlesOk, TrustAccepted, EntryOk, BundleAnswers, CatalogEntry, Issuers, Faithful;
    TypeHasEvidence(w, p, a, assessedAt, t);
    var b, item :| BundleAnswers(w, p, a, t, b, item);
    EntryPasses(w, p, a, t, b, item, e);
  }

  lemma EntriesAreAccepted(w: World, p: Policy, a: AdapterPolicy, assessedAt: int, doc: Document)
    requires Faithful(w) && BuildAccepted(w, p, a, assessedAt) && IsInput(w, p, a, assessedAt, doc)
    ensures p.issuers.Some?
    ensures |doc.catalog.value| == |SortedOf(Issuers(p).Keys)|
    ensures forall k :: 0 <= k < |doc.catalog.value| ==>
              EntryOk(w, p.issuers.value, doc.catalog.value[k])
              && doc.catalog.value[k].code == Str(SortedOf(Issuers(p).Keys)[k])
              && doc.catalog.value[k].evidenceType == Str(SortedOf(Issuers(p).Keys)[k])
  {
    hide BuildAccepted, EntryOk, CatalogEntry, Issuers, SortedOf, Faithful;
    var types, catalog := SortedOf(Issuers(p).Keys), doc.catalog.value;
    BuiltParts(w, p, a, assessedAt);
    forall k | 0 <= k < |catalog|
      ensures EntryOk(w, p.issuers.value, catalog[k])
              && catalog[k].code == Str(types[k]) && catalog[k].evidenceType == Str(types[k])
    {
      assert types[k] in types;
      EntryIsAccepted(w, p, a, assessedAt, types[k], catalog[k]);
    }
  }

  /** Every catalog the adapter assembles passes the assessor's entry checks, with one entry per evidence type. */
  lemma CatalogIsAccepted(w: World, p: Policy, a: AdapterPolicy, assessedAt: int, doc: Document)
    requires Faithful(w) && BuildAccepted(w, p, a, assessedAt) && IsInput(w, p, a, assessedAt, doc)
    ensures p.issuers.Some? && CatalogAccepted(w, p.issuers.value, doc.catalog.value)
    ensures |doc.catalog.value| == |p.issuers.value|
    ensures forall t :: t in p.issuers.value <==> Str(t) in TypesOf(doc.catalog.value)
  {
    hide BuildAccepted, EntryOk, IsCatalog, Issuers, SortedOf, Faithful, CatalogAccepted, Ascending, TypesOf;
    BuiltParts(w, p, a, assessedAt);
    EntriesAreAccepted(w, p, a, assessedAt, doc);
    SortedOfAscends(Issuers(p).Keys);
    NamedCatalog(w, p.issuers.value, SortedOf(Issuers(p).Keys), doc.catalog.value);
  }

  lemma NamedCatalog(w: World, issuers: map<string, Json>, names: seq<string>, catalog: seq<Entry>)
    requires Ascending(names) && |catalog| == |names| && forall t :: t in names <==> t in issuers.Keys
    requires forall k :: 0 <= k < |names| ==>
               EntryOk(w, issuers, catalog[k]) && catalog[k].code == Str(names[k])
               && catalog[k].evidenceType == Str(names[k])
    ensures CatalogAccepted(w, issuers, catalog)
    ensures forall t :: t in issuers <==> Str(t) in TypesOf(catalog)
  {
    hide EntryOk, NoRepeats, Ascending;
    AscendingDistinct(names, CodesOf(catalog));
    AscendingDistinct(names, TypesOf(catalog));
  }

  lemma AscendingDistinct(names: seq<string>, values: seq<Json>)
    requires Ascending(names) && |values| == |names|
    requires forall k :: 0 <= k < |names| ==> values[k] == Str(names[k])
    ensures NoRepeats(values)
    ensures forall t :: t in names <==> Str(t) in values
  {
    hide Less;
    forall i, j | 0 <= i < j < |values| ensures values[i] != values[j] {
      assert Less(names[i], names[j]);
      LessTotal(names[i], names[i]);
    }
    forall t | t in names ensures Str(t) in values {
      var k :| 0 <= k < |names| && names[k] == t;
      assert values[k] == Str(t);
    }
  }

  lemma OutcomeOf(w: World, p: Policy, a: AdapterPolicy, assessedAt: int, t: string, b: Bundle, item: Item, e: Entry)
    requires Faithful(w) && AdapterAccepts(w, p) && AssessorAccepts(w, p) && a.scope.Some?
    requires BundleAnswers(w, p, a, t, b, item) && CatalogEntry(w, p, a, t) == Some(e)
    ensures EntryOk(w, p.issuers.value, e)
    ensures Effective(w, p, w.digest(a.scope.value), Floor(assessedAt), e)
         == if Failed(w, p, a, t) then Error else if Sound(w, p, a, assessedAt, t) then Pass else Finding
  {
    hide Evidence, CatalogEntry, AdapterAccepts, Issuers;
    EntryPasses(w, p, a, t, b, item, e);
    TypesAreKeys(w, p);
    ResultTexts();
  }

  /** The assessor's view of an adapter's catalog, type by type. */
  lemma IndexOfBuilt(w: World, p: Policy, a: AdapterPolicy, assessedAt: int, doc: Document, t: string)
    requires Faithful(w) && AssessorAccepts(w, p)
    requires BuildAccepted(w, p, a, assessedAt) && IsInput(w, p, a, assessedAt, doc)
    requires t in Issuers(p) && a.scope.Some?
    requires CatalogAccepted(w, p.issuers.value, doc.catalog.value)
    ensures var index := Index(w, p, w.digest(a.scope.value), Floor(assessedAt), doc.catalog.value);
            t in index
            && index[t].result == if Failed(w, p, a, t) then Error
                                  else if Sound(w, p, a, assessedAt, t) then Pass else Finding
  {
    hide AdapterAccepts, AssessorAccepts, BundlesOk, TrustAccepted, EntryOk, BundleAnswers, CatalogEntry, Issuers,
         SortedOf, Faithful, Index, Effective, Sound, Failed, Evidence, DistinctEntries;
    var types, catalog := SortedOf(Issuers(p).Keys), doc.catalog.value;
    assert t in types;
    var k :| 0 <= k < |types| && types[k] == t;
    TypeHasEvidence(w, p, a, assessedAt, t);
    var b, item :| BundleAnswers(w, p, a, t, b, item);
    PolicyIssuers(w, p);
    EntryPasses(w, p, a, t, b, item, catalog[k]);
    OutcomeOf(w, p, a, assessedAt, t, b, item, catalog[k]);
    IndexFinds(w, p, w.digest(a.scope.value), Floor(assessedAt), catalog);
  }

  predicate MappedEvidence(row: CoverageRow) {
    row.status == "mapped-evidence" && Views.LoadedChecks(row.mappedChecks) != []
  }

  lemma {:induction false} CoverageHolds(rows: seq<CoverageRow>)
    requires DistinctCoverage(rows)
    ensures forall i :: 0 <= i < |rows| && InProfile(rows[i]) ==>
              rows[i].requirementId in CoverageMap(rows) && CoverageMap(rows)[rows[i].requirementId] == CoveredOf(rows[i])
  {
    hide CoveredOf;
    if rows != [] {
      var n := |rows| - 1;
      var init, last := rows[..n], rows[n];
      assert rows[..n + 1] == rows;
      CoverageHolds(init);
      forall i | 0 <= i < |rows| && InProfile(rows[i])
        ensures rows[i].requirementId in CoverageMap(rows)
                && CoverageMap(rows)[rows[i].requirementId] == CoveredOf(rows[i])
      {
        if i < n {
          assert rows[i] == init[i];
          assert InProfile(last) ==> rows[i].requirementId != last.requirementId;
        }
      }
    }
  }

  /** A requirement passes exactly when it is mapped and all its evidence is sound. */
  lemma RequirementPasses(w: World, p: Policy, a: AdapterPolicy, assessedAt: int, index: map<string, Indexed>,
                          r: Requirement, covered: Covered)
    requires ListsTypes(r)
    requires forall i :: 0 <= i < |r.types.items| ==> r.types.items[i].Str? && r.types.items[i].s in index
    requires forall t :: t in index ==> (index[t].result == Pass <==> Sound(w, p, a, assessedAt, t))
    ensures StatusOf(covered, Available(index, r.types.items), |r.types.items|) == PASS
            <==> covered.status == "mapped-evidence" && covered.checks != []
                 && forall i :: 0 <= i < |r.types.items| ==> Sound(w, p, a, assessedAt, r.types.items[i].s)
  {
    hide Sound;
    var types := r.types.items;
    var available := Available(index, types);
    AllAvailable(index, types);
    if StatusOf(covered, available, |types|) == PASS {
      forall i | 0 <= i < |types| ensures Sound(w, p, a, assessedAt, types[i].s) {
        assert available[i].result != Error && available[i].result != Finding;
      }
    }
  }

  /** What both programs accept, and a document that one hands to the other. */
  ghost predicate Handover(w: World, p: Policy, a: AdapterPolicy, assessedAt: int, rows: seq<CoverageRow>, doc: Document,
                           generatedAt: int)
  {
    && Faithful(w) && AssessorAccepts(w, p) && BuildAccepted(w, p, a, assessedAt)
    && IsInput(w, p, a, assessedAt, doc) && CoverageAccepted(p.requirements.value, rows)
    && assessedAt <= generatedAt
  }

  /** Composition: the assessor never refuses what the adapter produced. */
  lemma HandoverIsAccepted(w: World, p: Policy, a: AdapterPolicy, assessedAt: int, rows: seq<CoverageRow>,
                           doc: Document, generatedAt: int)
    requires Handover(w, p, a, assessedAt, rows, doc, generatedAt)
    ensures AssessAccepted(w, p, rows, doc, generatedAt)
    ensures w.time(doc.assessedAt) == Some(Floor(assessedAt))
    ensures forall t :: t in p.issuers.value <==> t in IndexOf(w, p, doc, generatedAt)
    ensures |doc.catalog.value| == |p.issuers.value|
  {
    hide AssessorAccepts, AdapterAccepts, BundlesOk, TrustAccepted, CatalogAccepted, CoverageAccepted, IsCatalog, Index;
    CatalogIsAccepted(w, p, a, assessedAt, doc);
    assert Floor(assessedAt) <= assessedAt;
    IndexTypes(w, p, doc, generatedAt);
  }

  lemma IndexTypes(w: World, p: Policy, doc: Document, generatedAt: int)
    requires AssessorAccepts(w, p) && DocumentHeader(w, doc, generatedAt)
    requires CatalogAccepted(w, p.issuers.value, doc.catalog.value)
    ensures forall t :: t in IndexOf(w, p, doc, generatedAt) <==> Str(t) in TypesOf(doc.catalog.value)
  {
    hide AssessorAccepts, CatalogAccepted, Index, TypesOf;
    IndexFinds(w, p, w.digest(doc.scope.value), w.time(doc.assessedAt).value, doc.catalog.value);
  }

  lemma IndexSound(w: World, p: Policy, a: AdapterPolicy, assessedAt: int, rows: seq<CoverageRow>, doc: Document,
                   generatedAt: int)
    requires Handover(w, p, a, assessedAt, rows, doc, generatedAt)
    ensures AssessAccepted(w, p, rows, doc, generatedAt)
    ensures var index := IndexOf(w, p, doc, generatedAt);
            forall t :: t in index ==>
              (index[t].result == Pass <==> Sound(w, p, a, assessedAt, t))
              && (index[t].result == Error <==> Failed(w, p, a, t))
  {
    hide AssessorAccepts, CatalogAccepted, CoverageAccepted, IsCatalog, Index, Sound, Failed, Faithful, BuildAccepted;
    HandoverIsAccepted(w, p, a, assessedAt, rows, doc, generatedAt);
    assert a.scope.Some? && Issuers(p).Keys == p.issuers.value.Keys by { BuiltParts(w, p, a, assessedAt); }
    var index := IndexOf(w, p, doc, generatedAt);
    forall t | t in index
      ensures (index[t].result == Pass <==> Sound(w, p, a, assessedAt, t))
              && (index[t].result == Error <==> Failed(w, p, a, t))
    {
      assert t in Issuers(p).Keys;
      IndexOfBuilt(w, p, a, assessedAt, doc, t);
      FailedNotSound(w, p, a, assessedAt, t);
    }
  }

  lemma BuiltParts(w: World, p: Policy, a: AdapterPolicy, assessedAt: int)
    requires BuildAccepted(w, p, a, assessedAt)
    ensures a.scope.Some? && p.issuers.Some? && Issuers(p).Keys == p.issuers.value.Keys
  {
    hide AdapterAccepts, Issuers;
    TypesAreKeys(w, p);
  }

  lemma FailedNotSound(w: World, p: Policy, a: AdapterPolicy, assessedAt: int, t: string)
    ensures !(Failed(w, p, a, t) && Sound(w, p, a, assessedAt, t))
  {
    hide Evidence;
    ResultTexts();
  }

  lemma NamedType(w: World, p: Policy, t: string) returns (i: nat, k: nat)
    requires AdapterAccepts(w, p) && t in Issuers(p)
    ensures p.requirements.Some? && i < |p.requirements.value| && ListsTypes(p.requirements.value[i])
    ensures k < |p.requirements.value[i].types.items| && p.requirements.value[i].types.items[k] == Str(t)
  {
    hide HeaderOk, IssuersOk;
    var reqs := p.requirements.value;
    assert Str(t) in TypeNames(p.issuers.value);
    assert Str(t) in Referenced(reqs);
    i, k :| 0 <= i < |reqs| && reqs[i].types.Arr? && 0 <= k < |reqs[i].types.items| && reqs[i].types.items[k] == Str(t);
  }

  lemma RequirementLists(w: World, p: Policy, i: nat)
    requires AssessorAccepts(w, p) && i < |p.requirements.value|
    ensures ListsTypes(p.requirements.value[i])
    ensures forall k :: 0 <= k < |p.requirements.value[i].types.items| ==>
              p.requirements.value[i].types.items[k].Str? && p.requirements.value[i].types.items[k].s in p.issuers.value
  {
    assert RequirementOk(p.requirements.value[i], p.issuers.value);
  }

  lemma RowOfRequirement(reqs: seq<Requirement>, rows: seq<CoverageRow>, i: nat) returns (j: nat)
    requires CoverageAccepted(reqs, rows) && i < |reqs|
    ensures j < |rows| && InProfile(rows[j]) && rows[j].requirementId == reqs[i].id
  {
    assert reqs[i].id in RequirementIds(reqs);
    assert reqs[i].id in CoveredIds(rows);
    j :| 0 <= j < |rows| && InProfile(rows[j]) && rows[j].requirementId == reqs[i].id;
  }

  lemma RequirementOfRow(reqs: seq<Requirement>, rows: seq<CoverageRow>, j: nat) returns (i: nat)
    requires CoverageAccepted(reqs, rows) && j < |rows| && InProfile(rows[j])
    ensures i < |reqs| && rows[j].requirementId == reqs[i].id
  {
    assert rows[j].requirementId in CoveredIds(rows);
    assert rows[j].requirementId in RequirementIds(reqs);
    i :| 0 <= i < |reqs| && reqs[i].id == rows[j].requirementId;
  }

  /** One requirement's verdict on a handed-over document. */
  lemma JudgedPass(w: World, p: Policy, a: AdapterPolicy, assessedAt: int, rows: seq<CoverageRow>, doc: Document,
                   generatedAt: int, i: nat, j: nat)
    requires Handover(w, p, a, assessedAt, rows, doc, generatedAt)
    requires AssessAccepted(w, p, rows, doc, generatedAt)
    requires i < |p.requirements.value| && j < |rows|
    requires InProfile(rows[j]) && rows[j].requirementId == p.requirements.value[i].id
    requires ListsTypes(p.requirements.value[i])
    ensures var types := p.requirements.value[i].types.items;
            && (forall k :: 0 <= k < |types| ==> types[k].Str?)
            && (Results(w, p, rows, doc, generatedAt)[i].status == PASS
                <==> MappedEvidence(rows[j])
                     && forall k :: 0 <= k < |types| ==> Sound(w, p, a, assessedAt, types[k].s))
  {
    hide AssessorAccepts, CatalogAccepted, IsCatalog, Index, Sound, Faithful, BuildAccepted, CoverageMap,
         StatusOf, Available, IsInput, DistinctCoverage, CoveredIds, RequirementIds;
    PolicyIssuers(w, p);
    var reqs := p.requirements.value;
    RequirementsCovered(w, p, rows, doc, generatedAt);
    IndexSound(w, p, a, assessedAt, rows, doc, generatedAt);
    HandoverIsAccepted(w, p, a, assessedAt, rows, doc, generatedAt);
    RequirementLists(w, p, i);
    CoverageHolds(rows);
    RequirementPasses(w, p, a, assessedAt, IndexOf(w, p, doc, generatedAt), reqs[i], CoveredOf(rows[j]));
  }

  /** PASS means: every bundle item passed, immutable and fresh, and every requirement mapped to some check. */
  lemma PassMeans(w: World, p: Policy, a: AdapterPolicy, assessedAt: int, rows: seq<CoverageRow>, doc: Document,
                  generatedAt: int)
    requires Handover(w, p, a, assessedAt, rows, doc, generatedAt)
    ensures AssessAccepted(w, p, rows, doc, generatedAt)
    ensures AssessmentOf(w, p, rows, doc, generatedAt).conclusion == ConcludedPass
            <==> (forall t :: t in Issuers(p) ==> Sound(w, p, a, assessedAt, t))
                 && forall j :: 0 <= j < |rows| && InProfile(rows[j]) ==> MappedEvidence(rows[j])
  {
    hide AssessorAccepts, AdapterAccepts, CatalogAccepted, CoverageAccepted, IsInput, Index, Sound, MappedEvidence,
         Faithful, CoverageMap, Judge, Summarize, BundlesOk, TrustAccepted, AdapterHeader, DocumentHeader, Issuers;
    PolicyIssuers(w, p);
    HandoverIsAccepted(w, p, a, assessedAt, rows, doc, generatedAt);
    var reqs, results := p.requirements.value, Results(w, p, rows, doc, generatedAt);
    ConclusionIsWorst(results);
    TypesAreKeys(w, p);
    if AssessmentOf(w, p, rows, doc, generatedAt).conclusion == ConcludedPass {
      forall t | t in Issuers(p) ensures Sound(w, p, a, assessedAt, t) {
        var i, k := NamedType(w, p, t);
        var j := RowOfRequirement(reqs, rows, i);
        JudgedPass(w, p, a, assessedAt, rows, doc, generatedAt, i, j);
        assert Rank(results[i].status) == 0;
        assert reqs[i].types.items[k].s == t;
      }
      forall j | 0 <= j < |rows| && InProfile(rows[j]) ensures MappedEvidence(rows[j]) {
        var i := RequirementOfRow(reqs, rows, j);
        RequirementLists(w, p, i);
        JudgedPass(w, p, a, assessedAt, rows, doc, generatedAt, i, j);
        assert Rank(results[i].status) == 0;
      }
    }
    if && (forall t :: t in Issuers(p) ==> Sound(w, p, a, assessedAt, t))
       && (forall j :: 0 <= j < |rows| && InProfile(rows[j]) ==> MappedEvidence(rows[j]))
    {
      forall i | 0 <= i < |results| ensures results[i].status == PASS {
        var j := RowOfRequirement(reqs, rows, i);
        RequirementLists(w, p, i);
        JudgedPass(w, p, a, assessedAt, rows, doc, generatedAt, i, j);
        forall k | 0 <= k < |reqs[i].types.items| ensures Sound(w, p, a, assessedAt, reqs[i].types.items[k].s) {
          assert reqs[i].types.items[k].s in p.issuers.value.Keys;
        }
      }
    }
  }
}
