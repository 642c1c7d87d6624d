// What an import conserves and what it does not reveal.
module ChecklistProperties {
  import opened PyStrings
  import opened StableSort
  import opened ChecklistImport

  // ---------------------------------------------------------------- one source's reconciliations

  lemma {:induction false} OfCounts(recs: seq<Reconciliation>, id: string, r: Reconciliation)
    ensures multiset(Of(recs, id))[r] == if r.sourceId == id then multiset(recs)[r] else 0
  {
    if recs != [] {
      var init, last := recs[..|recs| - 1], recs[|recs| - 1];
      assert recs == init + [last];
      OfCounts(init, id, r);
    }
  }

  lemma OfMembers(recs: seq<Reconciliation>, id: string)
    ensures forall r :: r in Of(recs, id) <==> r in recs && r.sourceId == id
  {
    forall r ensures r in Of(recs, id) <==> r in recs && r.sourceId == id {
      OfCounts(recs, id, r);
      assert r in Of(recs, id) <==> r in multiset(Of(recs, id));
      assert r in recs <==> r in multiset(recs);
    }
  }

  lemma OfPermutation(recs: seq<Reconciliation>, others: seq<Reconciliation>, id: string)
    requires multiset(recs) == multiset(others)
    ensures multiset(Of(recs, id)) == multiset(Of(others, id))
  {
    forall r ensures multiset(Of(recs, id))[r] == multiset(Of(others, id))[r] {
      OfCounts(recs, id, r);
      OfCounts(others, id, r);
    }
  }

  lemma {:induction false} OfDistinct(recs: seq<Reconciliation>, id: string)
    requires DistinctBy(AtomicId, recs)
    ensures DistinctBy(AtomicId, Of(recs, id))
  {
    if recs != [] {
      var init, last := recs[..|recs| - 1], recs[|recs| - 1];
      assert recs == init + [last];
      OfDistinct(init, id);
      DistinctSnoc(AtomicId, init, last);
      OfMembers(init, id);
      DistinctSnoc(AtomicId, Of(init, id), last);
    }
  }

  // ---------------------------------------------------------------- non-interference

  /** Two sources that agree in everything the organization did not withhold. */
  ghost predicate AgreesOn(s: Source, t: Source, recs: seq<Reconciliation>, others: seq<Reconciliation>) {
    && s.sourceId == t.sourceId && s.publication == t.publication
    && (!Withheld(s) ==> s == t && multiset(Of(recs, s.sourceId)) == multiset(Of(others, t.sourceId)))
  }

  /** Inputs that differ only in wording, category or reconciliations of organization-only sources. */
  ghost predicate AgreePublicly(sources: seq<Source>, recs: seq<Reconciliation>,
                                others: seq<Source>, otherRecs: seq<Reconciliation>) {
    && Ids(sources) == Ids(others)
    && forall i, j :: 0 <= i < |sources| && 0 <= j < |others| && sources[i].sourceId == others[j].sourceId ==>
        AgreesOn(sources[i], others[j], recs, otherRecs)
  }

  lemma SameBlock(cat: Catalogue, meta: Metadata, s: Source, t: Source, recs: seq<Reconciliation>,
                  others: seq<Reconciliation>)
    requires AgreesOn(s, t, recs, others) && DistinctBy(AtomicId, recs)
    ensures ProfileOf(meta, s, Of(recs, s.sourceId)) == ProfileOf(meta, t, Of(others, t.sourceId))
    ensures PublicOf(cat, s, Of(recs, s.sourceId)) == PublicOf(cat, t, Of(others, t.sourceId))
  {
    if !Withheld(s) {
      var mine, theirs := Of(recs, s.sourceId), Of(others, t.sourceId);
      OfDistinct(recs, s.sourceId);
      SortPermutation(AtomicId, mine, theirs);
      SameMembers(mine, theirs);
    }
  }

  ghost predicate Aligned(ordered: seq<Source>, others: seq<Source>, recs: seq<Reconciliation>,
                          otherRecs: seq<Reconciliation>) {
    && |ordered| == |others|
    && forall k :: 0 <= k < |ordered| ==> AgreesOn(ordered[k], others[k], recs, otherRecs)
  }

  lemma {:induction false} SameRows(cat: Catalogue, meta: Metadata, ordered: seq<Source>, others: seq<Source>,
                                    recs: seq<Reconciliation>, otherRecs: seq<Reconciliation>)
    requires Aligned(ordered, others, recs, otherRecs) && DistinctBy(AtomicId, recs)
    ensures ProfileRows(meta, ordered, recs) == ProfileRows(meta, others, otherRecs)
    ensures PublicRows(cat, ordered, recs) == PublicRows(cat, others, otherRecs)
    ensures WithheldCount(ordered) == WithheldCount(others)
    decreases |ordered|
  {
    hide ProfileOf, PublicOf, DistinctBy, Of;
    if ordered != [] {
      var n := |ordered| - 1;
      assert AgreesOn(ordered[n], others[n], recs, otherRecs);
      SameBlock(cat, meta, ordered[n], others[n], recs, otherRecs);
      SameRows(cat, meta, ordered[..n], others[..n], recs, otherRecs);
    }
  }

  /** The order is strict: every identifier occurs once. */
  ghost predicate Ascending(ordered: seq<Source>) {
    forall i, j :: 0 <= i < j < |ordered| ==> Less(ordered[i].sourceId, ordered[j].sourceId)
  }

  lemma SortAscends(sources: seq<Source>)
    requires DistinctBy(SourceId, sources)
    ensures Ascending(Sort(SourceId, sources))
    ensures forall s :: s in Sort(SourceId, sources) <==> s in sources
    ensures Ids(Sort(SourceId, sources)) == Ids(sources)
  {
    var ordered := Sort(SourceId, sources);
    SortSorts(SourceId, sources);
    DistinctSpread(SourceId, sources, ordered);
    SameMembers(ordered, sources);
    forall i, j | 0 <= i < j < |ordered| ensures Less(ordered[i].sourceId, ordered[j].sourceId) {
      assert !Less(SourceId(ordered[j]), SourceId(ordered[i]));
      assert SourceId(ordered[i]) != SourceId(ordered[j]);
      LessTotal(ordered[i].sourceId, ordered[j].sourceId);
    }
  }

  lemma NoGreaterFirst(ordered: seq<Source>, others: seq<Source>)
    requires Ascending(ordered) && Ascending(others) && Ids(ordered) == Ids(others)
    requires ordered != [] && others != []
    ensures !Less(others[0].sourceId, ordered[0].sourceId)
  {
    assert others[0].sourceId in Ids(others);
    var i :| 0 <= i < |ordered| && ordered[i].sourceId == others[0].sourceId;
    LessTotal(others[0].sourceId, ordered[0].sourceId);
  }

  /** Two ascending listings of the same identifiers list them in the same places. */
  lemma {:induction false} SamePlaces(ordered: seq<Source>, others: seq<Source>)
    requires Ascending(ordered) && Ascending(others) && Ids(ordered) == Ids(others)
    ensures |ordered| == |others|
    ensures forall k :: 0 <= k < |ordered| ==> ordered[k].sourceId == others[k].sourceId
    decreases |ordered|
  {
    hide Less;
    if ordered == [] {
      assert others != [] ==> others[0].sourceId in Ids(others);
    } else {
      assert ordered[0].sourceId in Ids(ordered);
      NoGreaterFirst(ordered, others);
      NoGreaterFirst(others, ordered);
      LessTotal(ordered[0].sourceId, others[0].sourceId);
      RestIds(ordered);
      RestIds(others);
      SamePlaces(ordered[1..], others[1..]);
      assert forall k :: 1 <= k < |ordered| ==> ordered[k] == ordered[1..][k - 1] && others[k] == others[1..][k - 1];
    }
  }

  lemma RestIds(ordered: seq<Source>)
    requires Ascending(ordered) && ordered != []
    ensures Ascending(ordered[1..])
    ensures Ids(ordered[1..]) == Ids(ordered) - {ordered[0].sourceId}
  {
    hide Less;
    assert ordered == [ordered[0]] + ordered[1..];
    forall i | 1 <= i < |ordered| ensures ordered[i].sourceId != ordered[0].sourceId {
      LessTotal(ordered[0].sourceId, ordered[i].sourceId);
    }
  }

  lemma AgreementAligns(sources: seq<Source>, recs: seq<Reconciliation>, others: seq<Source>,
                        otherRecs: seq<Reconciliation>)
    requires Consistent(sources, recs) && Consistent(others, otherRecs)
    requires AgreePublicly(sources, recs, others, otherRecs)
    ensures Aligned(Sort(SourceId, sources), Sort(SourceId, others), recs, otherRecs)
  {
    hide Less, Sort, Of, DistinctBy, Ascending;
    var mine, theirs := Sort(SourceId, sources), Sort(SourceId, others);
    SortAscends(sources);
    SortAscends(others);
    SamePlaces(mine, theirs);
    forall k | 0 <= k < |mine| ensures AgreesOn(mine[k], theirs[k], recs, otherRecs) {
      assert mine[k] in sources && theirs[k] in others;
      var i :| 0 <= i < |sources| && sources[i] == mine[k];
      var j :| 0 <= j < |others| && others[j] == theirs[k];
      assert sources[i].sourceId == others[j].sourceId;
    }
  }

  /**
   * Non-interference of the rows: for one set of metadata, nothing about an organization-only source beyond its
   * identifier reaches the profile rows or the public reconciliation, and of the counts only `atomic_rows` can differ,
   * exactly when the organization withheld a different number of reconciliations.
   */
  lemma NonInterference(cat: Catalogue, meta: Metadata, sources: seq<Source>, recs: seq<Reconciliation>,
                        others: seq<Source>, otherRecs: seq<Reconciliation>)
    requires Consistent(sources, recs) && Consistent(others, otherRecs)
    requires AgreePublicly(sources, recs, others, otherRecs)
    ensures ExportOf(cat, meta, sources, recs).profile == ExportOf(cat, meta, others, otherRecs).profile
    ensures ExportOf(cat, meta, sources, recs).reconciliation == ExportOf(cat, meta, others, otherRecs).reconciliation
    ensures ExportOf(cat, meta, sources, recs) == ExportOf(cat, meta, others, otherRecs)
            <==> WithheldRows(Sort(SourceId, sources), recs) == WithheldRows(Sort(SourceId, others), otherRecs)
  {
    hide Sort, Of, DistinctBy, Aligned, AgreePublicly, ProfileRows, PublicRows, WithheldCount, WithheldRows;
    AgreementAligns(sources, recs, others, otherRecs);
    var mine, theirs := Sort(SourceId, sources), Sort(SourceId, others);
    SameRows(cat, meta, mine, theirs, recs, otherRecs);
    assert |mine| == |theirs| by { AlignedLengths(mine, theirs, recs, otherRecs); }
    AtomicRowsAccounted(meta, sources, recs);
    AtomicRowsAccounted(meta, others, otherRecs);
  }

  lemma AlignedLengths(ordered: seq<Source>, others: seq<Source>, recs: seq<Reconciliation>,
                       otherRecs: seq<Reconciliation>)
    requires Aligned(ordered, others, recs, otherRecs)
    ensures |ordered| == |others|
  {
  }

  lemma WithheldPair(s: Source, a: Reconciliation, b: Reconciliation)
    requires Withheld(s) && a.sourceId == s.sourceId && b.sourceId == s.sourceId && a.atomicId != b.atomicId
    ensures Consistent([s], [a]) && Consistent([s], [a, b]) && AgreePublicly([s], [a], [s], [a, b])
  {
    assert Ids([s]) == {s.sourceId};
    assert Owners([a]) == {a.sourceId} && Owners([a, b]) == {a.sourceId, b.sourceId};
  }

  /** The status counts do leak: they tell one withheld reconciliation from two. */
  lemma StatusRevealsWithheldCount(cat: Catalogue, meta: Metadata, s: Source, a: Reconciliation, b: Reconciliation)
    requires Withheld(s) && a.sourceId == s.sourceId && b.sourceId == s.sourceId && a.atomicId != b.atomicId
    ensures Consistent([s], [a]) && Consistent([s], [a, b]) && AgreePublicly([s], [a], [s], [a, b])
    ensures ExportOf(cat, meta, [s], [a]).counts.atomicRows == 1
    ensures ExportOf(cat, meta, [s], [a, b]).counts.atomicRows == 2
  {
    hide Consistent, AgreePublicly, Sort, ProfileRows, PublicRows, WithheldCount;
    WithheldPair(s, a, b);
  }

  // ---------------------------------------------------------------- permuting reconciliation rows

  lemma {:induction false} ReconciliationsConcat(cat: Catalogue, a: seq<ReconciliationRow>, b: seq<ReconciliationRow>)
    ensures Reconciliations(cat, a + b) == Reconciliations(cat, a) + Reconciliations(cat, b)
    decreases |b|
  {
    hide NormalizeReconciliation;
    if b == [] {
      assert a + b == a;
    } else {
      var n := |b| - 1;
      assert (a + b)[..|a + b| - 1] == a + b[..n];
      ReconciliationsConcat(cat, a, b[..n]);
    }
  }

  lemma TakeOut(cat: Catalogue, rows: seq<ReconciliationRow>, j: nat)
    requires j < |rows|
    ensures multiset(rows[..j] + rows[j + 1..]) == multiset(rows) - multiset([rows[j]])
    ensures multiset(Reconciliations(cat, rows))
         == multiset(Reconciliations(cat, rows[..j] + rows[j + 1..])) + multiset(Reconciliations(cat, [rows[j]]))
  {
    hide NormalizeReconciliation, Reconciliations;
    var before, row, after := rows[..j], [rows[j]], rows[j + 1..];
    assert rows == before + row + after;
    ReconciliationsConcat(cat, before + row, after);
    ReconciliationsConcat(cat, before, row);
    ReconciliationsConcat(cat, before, after);
  }

  lemma {:induction false} ReconciliationsPermute(cat: Catalogue, a: seq<ReconciliationRow>, b: seq<ReconciliationRow>)
    requires multiset(a) == multiset(b)
    ensures multiset(Reconciliations(cat, a)) == multiset(Reconciliations(cat, b))
    decreases |a|
  {
    hide NormalizeReconciliation, Reconciliations;
    SameMembers(a, b);
    if a == [] {
      assert b == [];
    } else {
      assert a[0] in b;
      var j :| 0 <= j < |b| && b[j] == a[0];
      TakeOut(cat, a, 0);
      TakeOut(cat, b, j);
      assert |a[..0] + a[1..]| < |a|;
      ReconciliationsPermute(cat, a[..0] + a[1..], b[..j] + b[j + 1..]);
    }
  }

  lemma PermutedStaysConsistent(sources: seq<Source>, recs: seq<Reconciliation>, others: seq<Reconciliation>)
    requires multiset(recs) == multiset(others) && Consistent(sources, recs)
    ensures Consistent(sources, others) && AgreePublicly(sources, recs, sources, others)
  {
    DistinctSpread(AtomicId, recs, others);
    SameMembers(recs, others);
    assert Owners(recs) == Owners(others);
    DistinctCounts(SourceId, sources);
    forall i, j | 0 <= i < |sources| && 0 <= j < |sources| && sources[i].sourceId == sources[j].sourceId
      ensures AgreesOn(sources[i], sources[j], recs, others)
    {
      assert SourceId(sources[i]) == SourceId(sources[j]);
      assert sources[i] == sources[j];
      OfPermutation(recs, others, sources[i].sourceId);
    }
  }

  /** The order of the reconciliation rows decides neither acceptance nor the two row lists nor the counts. */
  lemma RowOrderIrrelevant(cat: Catalogue, meta: Metadata, sources: seq<SourceRow>, rows: seq<ReconciliationRow>,
                           permuted: seq<ReconciliationRow>)
    requires multiset(rows) == multiset(permuted) && Valid(cat, sources, rows)
    ensures Valid(cat, sources, permuted)
    ensures ExportOf(cat, meta, Sources(cat, sources), Reconciliations(cat, rows))
         == ExportOf(cat, meta, Sources(cat, sources), Reconciliations(cat, permuted))
  {
    hide NormalizeReconciliation, NormalizeSource, Sources, Reconciliations, ProfileRows, PublicRows, WithheldCount,
         Consistent, AgreePublicly, Sort, DistinctBy;
    SameMembers(rows, permuted);
    forall i | 0 <= i < |permuted| ensures NormalizeReconciliation(cat, permuted[i]).Ok? {
      assert permuted[i] in rows;
    }
    var all, recs, others := Sources(cat, sources), Reconciliations(cat, rows), Reconciliations(cat, permuted);
    ReconciliationsPermute(cat, rows, permuted);
    PermutedStaysConsistent(all, recs, others);
    NonInterference(cat, meta, all, recs, all, others);
    SameMembers(recs, others);
  }

  // ---------------------------------------------------------------- conservation

  /** Reconciliations of organization-only sources. */
  function WithheldRows(ordered: seq<Source>, recs: seq<Reconciliation>): nat {
    if ordered == [] then 0
    else
      var last := ordered[|ordered| - 1];
      WithheldRows(ordered[..|ordered| - 1], recs) + (if Withheld(last) then |Of(recs, last.sourceId)| else 0)
  }

  /** Reconciliations of the listed sources. */
  function ListedRows(ordered: seq<Source>, recs: seq<Reconciliation>): nat {
    if ordered == [] then 0
    else
      var last := ordered[|ordered| - 1];
      ListedRows(ordered[..|ordered| - 1], recs) + |Of(recs, last.sourceId)|
  }

  lemma {:induction false} ListedStep(ordered: seq<Source>, recs: seq<Reconciliation>, r: Reconciliation)
    requires Ascending(ordered)
    ensures ListedRows(ordered, recs + [r]) == ListedRows(ordered, recs) + if r.sourceId in Ids(ordered) then 1 else 0
    decreases |ordered|
  {
    hide Less;
    var all := recs + [r];
    assert all[..|recs|] == recs;
    if ordered != [] {
      var init, last := ordered[..|ordered| - 1], ordered[|ordered| - 1];
      ListedStep(init, recs, r);
      assert ordered == init + [last];
      forall i | 0 <= i < |init| ensures init[i].sourceId != last.sourceId {
        assert Less(ordered[i].sourceId, ordered[|init|].sourceId);
        LessTotal(last.sourceId, last.sourceId);
      }
    }
  }

  lemma {:induction false} ListedAll(ordered: seq<Source>, recs: seq<Reconciliation>)
    requires Ascending(ordered) && Owners(recs) <= Ids(ordered)
    ensures ListedRows(ordered, recs) == |recs|
    decreases |recs|
  {
    hide Ascending;
    if recs == [] {
      ListedNone(ordered);
    } else {
      var init, last := recs[..|recs| - 1], recs[|recs| - 1];
      assert recs == init + [last];
      assert last.sourceId in Owners(recs);
      ListedAll(ordered, init);
      ListedStep(ordered, init, last);
    }
  }

  lemma ListedNone(ordered: seq<Source>)
    ensures ListedRows(ordered, []) == 0
  {
  }

  lemma {:induction false} ListedSplit(meta: Metadata, ordered: seq<Source>, recs: seq<Reconciliation>)
    ensures ListedRows(ordered, recs) == |ProfileRows(meta, ordered, recs)| + WithheldRows(ordered, recs)
    decreases |ordered|
  {
    hide Of, Sort;
    if ordered != [] {
      ListedSplit(meta, ordered[..|ordered| - 1], recs);
    }
  }

  lemma AtomicRowsAccounted(meta: Metadata, sources: seq<Source>, recs: seq<Reconciliation>)
    requires Consistent(sources, recs)
    ensures var ordered := Sort(SourceId, sources);
            |recs| == |ProfileRows(meta, ordered, recs)| + WithheldRows(ordered, recs)
  {
    hide Sort, DistinctBy, Ascending, ProfileRows, WithheldRows, ListedRows;
    SortAscends(sources);
    ListedAll(Sort(SourceId, sources), recs);
    ListedSplit(meta, Sort(SourceId, sources), recs);
  }

  /** A profile row without its organization-specific columns. */
  function Projected(row: ProfileRow): PublicRow {
    PublicRow(row.sourceId, row.atomicId, row.relationship, row.disposition, row.controlIds,
              row.frameworkMappings, row.mappingStatus, row.publication, row.notes)
  }

  function ProjectAll(rows: seq<ProfileRow>): seq<PublicRow> {
    seq(|rows|, i requires 0 <= i < |rows| => Projected(rows[i]))
  }

  function Published(rows: seq<PublicRow>, publication: string): seq<PublicRow> {
    if rows == [] then []
    else
      Published(rows[..|rows| - 1], publication)
      + (if rows[|rows| - 1].publication == publication then [rows[|rows| - 1]] else [])
  }

  /** One redacted row per organization-only source, in order. */
  function RedactedRows(cat: Catalogue, ordered: seq<Source>): seq<PublicRow> {
    if ordered == [] then []
    else
      var last := ordered[|ordered| - 1];
      RedactedRows(cat, ordered[..|ordered| - 1]) + (if Withheld(last) then [RedactedRow(cat, last.sourceId)] else [])
  }

  lemma {:induction false} PublishedConcat(a: seq<PublicRow>, b: seq<PublicRow>, publication: string)
    ensures Published(a + b, publication) == Published(a, publication) + Published(b, publication)
    decreases |b|
  {
    if b == [] {
      assert a + b == a;
    } else {
      assert (a + b)[..|a + b| - 1] == a + b[..|b| - 1];
      PublishedConcat(a, b[..|b| - 1], publication);
    }
  }

  lemma {:induction false} PublishedUniform(rows: seq<PublicRow>, publication: string, asked: string)
    requires forall i :: 0 <= i < |rows| ==> rows[i].publication == publication
    ensures Published(rows, asked) == if asked == publication then rows else []
  {
    if rows != [] {
      PublishedUniform(rows[..|rows| - 1], publication, asked);
      assert rows == rows[..|rows| - 1] + [rows[|rows| - 1]];
    }
  }

  lemma DifferentWords()
    ensures "public" != "organization-only"
  {
    assert "public"[0] == 'p';
  }

  lemma OneSourcePublished(cat: Catalogue, meta: Metadata, s: Source, recs: seq<Reconciliation>)
    ensures Published(PublicOf(cat, s, recs), "public") == ProjectAll(ProfileOf(meta, s, recs))
    ensures Published(PublicOf(cat, s, recs), "organization-only")
         == if Withheld(s) then [RedactedRow(cat, s.sourceId)] else []
  {
    DifferentWords();
    var rows := PublicOf(cat, s, recs);
    var publication := if Withheld(s) then "organization-only" else "public";
    PublishedUniform(rows, publication, "public");
    PublishedUniform(rows, publication, "organization-only");
  }

  /**
   * The public reconciliation is the projected profile, in profile order, with exactly one redacted row per
   * organization-only source.
   */
  lemma {:induction false} ReconciliationConserves(cat: Catalogue, meta: Metadata, ordered: seq<Source>,
                                                   recs: seq<Reconciliation>)
    ensures Published(PublicRows(cat, ordered, recs), "public") == ProjectAll(ProfileRows(meta, ordered, recs))
    ensures Published(PublicRows(cat, ordered, recs), "organization-only") == RedactedRows(cat, ordered)
    ensures |RedactedRows(cat, ordered)| == WithheldCount(ordered)
    ensures |PublicRows(cat, ordered, recs)| == |ProfileRows(meta, ordered, recs)| + WithheldCount(ordered)
    decreases |ordered|
  {
    hide Published, ProfileOf, PublicOf, Of, RedactedRow;
    if ordered == [] {
      assert Published([], "public") == [] && Published([], "organization-only") == [] by { NothingPublished(); }
    } else {
      var init, last := ordered[..|ordered| - 1], ordered[|ordered| - 1];
      var mine := Of(recs, last.sourceId);
      ReconciliationConserves(cat, meta, init, recs);
      OneSourcePublished(cat, meta, last, mine);
      PublishedConcat(PublicRows(cat, init, recs), PublicOf(cat, last, mine), "public");
      PublishedConcat(PublicRows(cat, init, recs), PublicOf(cat, last, mine), "organization-only");
      BlockSizes(cat, meta, last, mine);
    }
  }

  lemma NothingPublished()
    ensures Published([], "public") == [] && Published([], "organization-only") == []
  {
  }

  lemma BlockSizes(cat: Catalogue, meta: Metadata, s: Source, recs: seq<Reconciliation>)
    ensures |PublicOf(cat, s, recs)| == |ProfileOf(meta, s, recs)| + if Withheld(s) then 1 else 0
  {
  }

  /** (source_id, atomic_id) order. */
  predicate Before(a: ProfileRow, b: ProfileRow) {
    Less(a.sourceId, b.sourceId) || (a.sourceId == b.sourceId && Less(a.atomicId, b.atomicId))
  }

  ghost predicate RowsAscend(rows: seq<ProfileRow>) {
    forall i, j :: 0 <= i < j < |rows| ==> Before(rows[i], rows[j])
  }

  /** The row that reconciliation `r` of source `s` becomes. */
  ghost predicate Renders(meta: Metadata, row: ProfileRow, s: Source, r: Reconciliation, recs: seq<Reconciliation>) {
    && r in recs && r.sourceId == s.sourceId && !Withheld(s)
    && row == ProfileRowOf(meta, s, Relationship(Of(recs, s.sourceId)), r)
  }

  lemma OneSourceAscends(meta: Metadata, s: Source, mine: seq<Reconciliation>)
    requires DistinctBy(AtomicId, mine)
    ensures RowsAscend(ProfileOf(meta, s, mine))
    ensures forall row :: row in ProfileOf(meta, s, mine) ==> row.sourceId == s.sourceId
  {
    hide Less, Sort;
    var sorted := Sort(AtomicId, mine);
    var rows := ProfileOf(meta, s, mine);
    SortSorts(AtomicId, mine);
    DistinctSpread(AtomicId, mine, sorted);
    forall i, j | 0 <= i < j < |rows| ensures Before(rows[i], rows[j]) {
      assert !Less(AtomicId(sorted[j]), AtomicId(sorted[i])) && AtomicId(sorted[i]) != AtomicId(sorted[j]);
      LessTotal(AtomicId(sorted[i]), AtomicId(sorted[j]));
    }
  }

  lemma OneSourceRows(meta: Metadata, s: Source, recs: seq<Reconciliation>, row: ProfileRow)
    ensures row in ProfileOf(meta, s, Of(recs, s.sourceId)) <==> exists r :: Renders(meta, row, s, r, recs)
  {
    hide Sort, Of, Relationship, ProfileRowOf;
    var mine := Of(recs, s.sourceId);
    var sorted := Sort(AtomicId, mine);
    var rows := ProfileOf(meta, s, mine);
    OfMembers(recs, s.sourceId);
    SameMembers(sorted, mine);
    if row in rows {
      var k :| 0 <= k < |rows| && rows[k] == row;
      assert sorted[k] in mine;
      assert Renders(meta, row, s, sorted[k], recs);
    }
    if r :| Renders(meta, row, s, r, recs) {
      assert r in sorted;
      var k :| 0 <= k < |sorted| && sorted[k] == r;
      assert rows[k] == row;
    }
  }

  /** Every reconciliation of a public source, once, in order, and no other row. */
  lemma {:induction false} ProfileConserves(meta: Metadata, ordered: seq<Source>, recs: seq<Reconciliation>)
    requires DistinctBy(AtomicId, recs) && Ascending(ordered)
    ensures var rows := ProfileRows(meta, ordered, recs);
            && RowsAscend(rows)
            && (forall row :: row in rows ==> exists i :: 0 <= i < |ordered| && row.sourceId == ordered[i].sourceId)
            && (forall row :: row in rows <==> exists s, r :: s in ordered && Renders(meta, row, s, r, recs))
    decreases |ordered|
  {
    hide Less, Sort, Of, ProfileOf, DistinctBy, Renders;
    if ordered != [] {
      var init, last := ordered[..|ordered| - 1], ordered[|ordered| - 1];
      assert ordered == init + [last];
      ProfileConserves(meta, init, recs);
      OfDistinct(recs, last.sourceId);
      OneSourceAscends(meta, last, Of(recs, last.sourceId));
      forall row ensures row in ProfileOf(meta, last, Of(recs, last.sourceId))
                         <==> exists r :: Renders(meta, row, last, r, recs)
      {
        OneSourceRows(meta, last, recs, row);
      }
      var before, added := ProfileRows(meta, init, recs), ProfileOf(meta, last, Of(recs, last.sourceId));
      var rows := before + added;
      forall i, j | 0 <= i < j < |rows| ensures Before(rows[i], rows[j]) {
        if i < |before| <= j {
          assert before[i] in before;
          assert rows[j] == added[j - |before|];
        } else if |before| <= i {
          assert rows[i] == added[i - |before|] && rows[j] == added[j - |before|];
        }
      }
    }
  }

  lemma {:induction false} AscendingOnce(rows: seq<ProfileRow>, row: ProfileRow)
    requires RowsAscend(rows) && row in rows
    ensures multiset(rows)[row] == 1
  {
    hide Less;
    assert rows == [rows[0]] + rows[1..];
    LessTotal(rows[0].sourceId, rows[0].sourceId);
    LessTotal(rows[0].atomicId, rows[0].atomicId);
    assert rows[0] !in rows[1..] by {
      assert forall j :: 1 <= j < |rows| ==> Before(rows[0], rows[j]);
    }
    if row != rows[0] {
      AscendingOnce(rows[1..], row);
    }
  }

  /** Conservation over a whole accepted import. */
  lemma ImportConserves(cat: Catalogue, meta: Metadata, sources: seq<Source>, recs: seq<Reconciliation>)
    requires Consistent(sources, recs)
    ensures var e := ExportOf(cat, meta, sources, recs);
            && RowsAscend(e.profile)
            && (forall row :: row in e.profile ==> multiset(e.profile)[row] == 1)
            && (forall row :: row in e.profile <==> exists s, r :: s in sources && Renders(meta, row, s, r, recs))
            && Published(e.reconciliation, "public") == ProjectAll(e.profile)
            && Published(e.reconciliation, "organization-only") == RedactedRows(cat, Sort(SourceId, sources))
            && |e.reconciliation| == |e.profile| + e.counts.organizationOnlyRows
            && e.counts.atomicRows == |e.profile| + WithheldRows(Sort(SourceId, sources), recs)
            && e.counts.publicAtomicRows == |e.profile|
  {
    hide Sort, Of, DistinctBy, Ascending, RowsAscend, Renders, Published, ProfileRows, PublicRows, RedactedRows,
         WithheldRows, WithheldCount;
    var ordered := Sort(SourceId, sources);
    SortAscends(sources);
    ProfileConserves(meta, ordered, recs);
    ReconciliationConserves(cat, meta, ordered, recs);
    AtomicRowsAccounted(meta, sources, recs);
    forall row | row in ProfileRows(meta, ordered, recs)
      ensures multiset(ProfileRows(meta, ordered, recs))[row] == 1
    {
      AscendingOnce(ProfileRows(meta, ordered, recs), row);
    }
  }

  // ---------------------------------------------------------------- nothing is lost on the way out

  function MetadataOf(row: ProfileRow): Metadata {
    Metadata(row.title, row.owner, row.version, row.reviewDate, row.sha256, row.sheet)
  }

  function SourceOf(row: ProfileRow): Source { Source(row.sourceId, row.wording, row.category, row.publication) }

  function RecordOf(row: ProfileRow): Reconciliation {
    Reconciliation(row.sourceId, row.atomicId, row.atomicWording, row.disposition, row.controlIds, row.responsibleRole,
                   row.verificationMethod, row.expectedEvidence, row.frameworkMappings, row.mappingStatus, row.notes)
  }

  /** From every profile row the metadata, the public source and the whole reconciliation can be read back. */
  lemma RowsCarryRecords(cat: Catalogue, meta: Metadata, sources: seq<Source>, recs: seq<Reconciliation>)
    requires Consistent(sources, recs)
    requires forall i :: 0 <= i < |sources| ==> Withheld(sources[i]) || sources[i].publication == "public"
    ensures forall row :: row in ExportOf(cat, meta, sources, recs).profile ==>
              MetadataOf(row) == meta && SourceOf(row) in sources && RecordOf(row) in recs
              && row.relationship == Relationship(Of(recs, row.sourceId))
    ensures forall r :: r in recs ==>
              (exists s :: s in sources && Withheld(s) && s.sourceId == r.sourceId)
              || exists row :: row in ExportOf(cat, meta, sources, recs).profile && RecordOf(row) == r
  {
    hide ExportOf, Consistent, Of, Relationship;
    ImportConserves(cat, meta, sources, recs);
    var profile := ExportOf(cat, meta, sources, recs).profile;
    forall row | row in profile
      ensures MetadataOf(row) == meta && SourceOf(row) in sources && RecordOf(row) in recs
              && row.relationship == Relationship(Of(recs, row.sourceId))
    {
      var s, r :| s in sources && Renders(meta, row, s, r, recs);
      var i :| 0 <= i < |sources| && sources[i] == s;
    }
    forall r | r in recs
      ensures (exists s :: s in sources && Withheld(s) && s.sourceId == r.sourceId)
              || exists row :: row in profile && RecordOf(row) == r
    {
      var s := OwnerOf(sources, recs, r);
      if !Withheld(s) {
        var row := ProfileRowOf(meta, s, Relationship(Of(recs, s.sourceId)), r);
        assert Renders(meta, row, s, r, recs);
        assert row in profile && RecordOf(row) == r;
      }
    }
  }

  lemma OwnerOf(sources: seq<Source>, recs: seq<Reconciliation>, r: Reconciliation) returns (s: Source)
    requires Consistent(sources, recs) && r in recs
    ensures s in sources && s.sourceId == r.sourceId
  {
    assert r.sourceId in Owners(recs);
    assert r.sourceId in Ids(sources);
    s :| s in sources && s.sourceId == r.sourceId;
  }
}
