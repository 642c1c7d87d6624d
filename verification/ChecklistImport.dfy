// Import of an organization checklist: reconciliation, redaction of organization-only rows,
// ordering and counting.
module ChecklistImport {
  import opened Wrappers
  import opened PyStrings
  import opened StableSort
  import opened ChecklistTable

  // ---------------------------------------------------------------- inputs

  /** A data row of the source table, by column. */
  datatype SourceRow = SourceRow(sourceId: string, wording: string, category: string, publication: string)

  /** A data row of the reconciliation table, by column. */
  datatype ReconciliationRow = ReconciliationRow(
    sourceId: string, atomicId: string, atomicWording: string, disposition: string, controlIds: string,
    responsibleRole: string, verificationMethod: string, expectedEvidence: string, frameworkMappings: string,
    notes: string)

  /** Manifest metadata that every exported row repeats; `sha256` is the digest of the source file. */
  datatype Metadata = Metadata(
    title: string, owner: string, version: string, reviewDate: string, sha256: string, sheet: string)

  datatype Framework = Framework(version: string, identifiers: set<string>)

  /** The catalogue the importer checks against, with its two patterns and its digest. */
  datatype Catalogue = Catalogue(
    isIdentifier: string -> bool,
    isControlId: string -> bool,
    knownControls: set<string>,
    frameworks: map<string, Framework>,
    digest: string -> string)

  const DISPOSITIONS := {"implemented", "planned", "duplicate", "out-of-scope", "mapping-review-required"}
  const ROLES := {"developer", "repository-admin", "ci-platform", "build-platform", "release-manager", "security",
                  "incident-response", "shared"}
  const RELATIONSHIPS := {"addresses", "supports", "detects", "mitigates", "verifies", "evidence-for", "related-to"}

  // ---------------------------------------------------------------- rows one at a time

  datatype Source = Source(sourceId: string, wording: string, category: string, publication: string)

  datatype Reconciliation = Reconciliation(
    sourceId: string, atomicId: string, atomicWording: string, disposition: string, controlIds: string,
    responsibleRole: string, verificationMethod: string, expectedEvidence: string, frameworkMappings: string,
    mappingStatus: string, notes: string)

  function RequireString(value: string, maximum: nat): Result<string, Rejected> {
    if Strip(value) == "" || |value| > maximum
       || (exists i :: 0 <= i < |value| && value[i] as int < 32 && value[i] !in "\t\r\n")
    then Err(Rejected)
    else Ok(Strip(value))
  }

  function NormalizeSource(cat: Catalogue, row: SourceRow): Result<Source, Rejected> {
    var id := RequireString(row.sourceId, 128);
    var wording := RequireString(row.wording, 5000);
    var category := RequireString(row.category, 200);
    var publication := RequireString(row.publication, 30);
    if id.Err? || !cat.isIdentifier(id.value) || wording.Err? || category.Err? || publication.Err?
       || publication.value !in {"public", "organization-only"}
    then Err(Rejected)
    else Ok(Source(id.value, wording.value, category.value, publication.value))
  }

  predicate MappingAccepted(cat: Catalogue, parts: seq<string>) {
    && |parts| == 5
    && parts[0] in cat.frameworks
    && parts[1] == cat.frameworks[parts[0]].version
    && parts[2] in cat.frameworks[parts[0]].identifiers
    && parts[3] in RELATIONSHIPS && parts[4] in {"low", "medium", "high"}
  }

  function NormalizeMappings(cat: Catalogue, raw: seq<string>): Result<seq<string>, Rejected> {
    if raw == [] then Ok([])
    else
      var parts := StripAll(Split(raw[0], '|'));
      if !MappingAccepted(cat, parts) then Err(Rejected)
      else match NormalizeMappings(cat, raw[1..])
        case Err(e) => Err(e)
        case Ok(rest) => Ok([Join(" | ", parts)] + rest)
  }

  /** The rendered mappings and their review status. */
  function ParseMappings(cat: Catalogue, value: string): Result<(string, string), Rejected> {
    var rendered := Strip(value);
    if rendered == "" then Ok(("", "unmapped"))
    else match NormalizeMappings(cat, Split(rendered, ';'))
      case Err(e) => Err(e)
      case Ok(mappings) => Ok((Join("; ", mappings), "reviewed"))
  }

  function NormalizeReconciliation(cat: Catalogue, row: ReconciliationRow): Result<Reconciliation, Rejected> {
    var sourceId := RequireString(row.sourceId, 128);
    var atomicId := RequireString(row.atomicId, 128);
    var wording := RequireString(row.atomicWording, 5000);
    var disposition := RequireString(row.disposition, 50);
    var controls := NonBlank(Split(row.controlIds, ';'));
    var role := RequireString(row.responsibleRole, 50);
    var verification := RequireString(row.verificationMethod, 5000);
    var evidence := RequireString(row.expectedEvidence, 5000);
    var mappings := ParseMappings(cat, row.frameworkMappings);
    var notes := Strip(row.notes);
    if || sourceId.Err? || atomicId.Err? || !cat.isIdentifier(atomicId.value)
       || wording.Err? || disposition.Err? || disposition.value !in DISPOSITIONS
       || (exists i :: 0 <= i < |controls| && !cat.isControlId(controls[i]))
       || (disposition.value == "implemented"
           && (controls == [] || exists i :: 0 <= i < |controls| && controls[i] !in cat.knownControls))
       || (disposition.value == "duplicate" && controls == [])
       || role.Err? || role.value !in ROLES || verification.Err? || evidence.Err? || mappings.Err?
       || (mappings.value.1 == "unmapped" && disposition.value !in {"mapping-review-required", "out-of-scope"})
       || (disposition.value == "out-of-scope" && notes == "")
    then Err(Rejected)
    else Ok(Reconciliation(sourceId.value, atomicId.value, wording.value, disposition.value, Join("; ", controls),
                           role.value, verification.value, evidence.value, mappings.value.0, mappings.value.1, notes))
  }

  // ---------------------------------------------------------------- whole inputs

  /** Rows that normalize, in order; meaningful when every row does. */
  function Sources(cat: Catalogue, rows: seq<SourceRow>): seq<Source> {
    if rows == [] then []
    else
      Sources(cat, rows[..|rows| - 1])
      + (match NormalizeSource(cat, rows[|rows| - 1]) case Err(_) => [] case Ok(s) => [s])
  }

  function Reconciliations(cat: Catalogue, rows: seq<ReconciliationRow>): seq<Reconciliation> {
    if rows == [] then []
    else
      Reconciliations(cat, rows[..|rows| - 1])
      + (match NormalizeReconciliation(cat, rows[|rows| - 1]) case Err(_) => [] case Ok(r) => [r])
  }

  function SourceId(s: Source): string { s.sourceId }
  function AtomicId(r: Reconciliation): string { r.atomicId }

  function Ids(sources: seq<Source>): set<string> {
    set s | s in sources :: s.sourceId
  }

  function AtomicIds(recs: seq<Reconciliation>): set<string> {
    set r | r in recs :: r.atomicId
  }

  function Owners(recs: seq<Reconciliation>): set<string> {
    set r | r in recs :: r.sourceId
  }

  /** The reconciliations of one source, in file order. */
  function Of(recs: seq<Reconciliation>, id: string): seq<Reconciliation> {
    if recs == [] then []
    else
      var last := recs[|recs| - 1];
      Of(recs[..|recs| - 1], id) + (if last.sourceId == id then [last] else [])
  }

  predicate AllNormalize(cat: Catalogue, sources: seq<SourceRow>, recs: seq<ReconciliationRow>) {
    && (forall i :: 0 <= i < |sources| ==> NormalizeSource(cat, sources[i]).Ok?)
    && (forall i :: 0 <= i < |recs| ==> NormalizeReconciliation(cat, recs[i]).Ok?)
  }

  /** Identities are unique and the two files cover each other. */
  ghost predicate Consistent(sources: seq<Source>, recs: seq<Reconciliation>) {
    && DistinctBy(SourceId, sources)
    && DistinctBy(AtomicId, recs)
    && Owners(recs) == Ids(sources)
  }

  /** The inputs the importer accepts. */
  ghost predicate Valid(cat: Catalogue, sources: seq<SourceRow>, recs: seq<ReconciliationRow>) {
    AllNormalize(cat, sources, recs) && Consistent(Sources(cat, sources), Reconciliations(cat, recs))
  }

  // ---------------------------------------------------------------- exported rows

  datatype ProfileRow = ProfileRow(
    title: string, owner: string, version: string, reviewDate: string, sha256: string, sheet: string,
    sourceId: string, wording: string, category: string,
    atomicId: string, atomicWording: string, relationship: string, disposition: string, controlIds: string,
    responsibleRole: string, verificationMethod: string, expectedEvidence: string, frameworkMappings: string,
    mappingStatus: string, publication: string, notes: string)

  datatype PublicRow = PublicRow(
    sourceId: string, atomicId: string, relationship: string, disposition: string, controlIds: string,
    frameworkMappings: string, mappingStatus: string, publication: string, notes: string)

  datatype Counts = Counts(sourceRows: nat, atomicRows: nat, publicAtomicRows: nat, organizationOnlyRows: nat)

  datatype Export = Export(profile: seq<ProfileRow>, reconciliation: seq<PublicRow>, counts: Counts)

  const NOTICE :=
    "Original row remains recoverable only from the organization-owned source and reconciliation files."

  function ProfileRowOf(meta: Metadata, s: Source, relationship: string, r: Reconciliation): ProfileRow {
    ProfileRow(meta.title, meta.owner, meta.version, meta.reviewDate, meta.sha256, meta.sheet,
               s.sourceId, s.wording, s.category,
               r.atomicId, r.atomicWording, relationship, r.disposition, r.controlIds,
               r.responsibleRole, r.verificationMethod, r.expectedEvidence, r.frameworkMappings,
               r.mappingStatus, "public", r.notes)
  }

  function PublicRowOf(s: Source, relationship: string, r: Reconciliation): PublicRow {
    PublicRow(s.sourceId, r.atomicId, relationship, r.disposition, r.controlIds,
              r.frameworkMappings, r.mappingStatus, "public", r.notes)
  }

  function RedactedId(cat: Catalogue, id: string): string {
    var digest := cat.digest(id);
    "REDACTED-" + (if |digest| <= 12 then digest else digest[..12])
  }

  function RedactedRow(cat: Catalogue, id: string): PublicRow {
    PublicRow(RedactedId(cat, id), "NOT-EXPORTED", "organization-only", "organization-only-not-exported", "",
              "", "not-exported", "organization-only", NOTICE)
  }

  function Relationship(recs: seq<Reconciliation>): string {
    if |recs| > 1 then "split-from" else "same-as-source"
  }

  function ProfileBlock(meta: Metadata, s: Source, relationship: string, sorted: seq<Reconciliation>): seq<ProfileRow> {
    seq(|sorted|, i requires 0 <= i < |sorted| => ProfileRowOf(meta, s, relationship, sorted[i]))
  }

  function PublicBlock(s: Source, relationship: string, sorted: seq<Reconciliation>): seq<PublicRow> {
    seq(|sorted|, i requires 0 <= i < |sorted| => PublicRowOf(s, relationship, sorted[i]))
  }

  predicate Withheld(s: Source) { s.publication == "organization-only" }

  /** The rows one source contributes to the profile and to the public reconciliation. */
  function ProfileOf(meta: Metadata, s: Source, recs: seq<Reconciliation>): seq<ProfileRow> {
    if Withheld(s) then [] else ProfileBlock(meta, s, Relationship(recs), Sort(AtomicId, recs))
  }

  function PublicOf(cat: Catalogue, s: Source, recs: seq<Reconciliation>): seq<PublicRow> {
    if Withheld(s) then [RedactedRow(cat, s.sourceId)]
    else PublicBlock(s, Relationship(recs), Sort(AtomicId, recs))
  }

  function ProfileRows(meta: Metadata, ordered: seq<Source>, recs: seq<Reconciliation>): seq<ProfileRow> {
    if ordered == [] then []
    else
      var last := ordered[|ordered| - 1];
      ProfileRows(meta, ordered[..|ordered| - 1], recs) + ProfileOf(meta, last, Of(recs, last.sourceId))
  }

  function PublicRows(cat: Catalogue, ordered: seq<Source>, recs: seq<Reconciliation>): seq<PublicRow> {
    if ordered == [] then []
    else
      var last := ordered[|ordered| - 1];
      PublicRows(cat, ordered[..|ordered| - 1], recs) + PublicOf(cat, last, Of(recs, last.sourceId))
  }

  function WithheldCount(sources: seq<Source>): nat {
    if sources == [] then 0
    else WithheldCount(sources[..|sources| - 1]) + (if Withheld(sources[|sources| - 1]) then 1 else 0)
  }

  /** The export of normalized inputs: sources in identifier order, reconciliations in atomic order. */
  function ExportOf(cat: Catalogue, meta: Metadata, sources: seq<Source>, recs: seq<Reconciliation>): Export {
    var ordered := Sort(SourceId, sources);
    var profile := ProfileRows(meta, ordered, recs);
    Export(profile, PublicRows(cat, ordered, recs),
           Counts(|sources|, |recs|, |profile|, WithheldCount(ordered)))
  }

  // ---------------------------------------------------------------- the import as written

  /** The source loop: the records in file order, or a rejection. */
  method LoadSources(cat: Catalogue, rows: seq<SourceRow>) returns (r: Result<seq<Source>, Rejected>)
    ensures r.Ok? <==> (forall i :: 0 <= i < |rows| ==> NormalizeSource(cat, rows[i]).Ok?)
                       && DistinctBy(SourceId, Sources(cat, rows))
    ensures r.Ok? ==> r.value == Sources(cat, rows)
  {
    hide NormalizeSource;
    var sources: seq<Source>, ids: set<string> := [], {};
    for i := 0 to |rows|
      invariant forall k :: 0 <= k < i ==> NormalizeSource(cat, rows[k]).Ok?
      invariant sources == Sources(cat, rows[..i]) && ids == Ids(sources) && DistinctBy(SourceId, sources)
    {
      assert rows[..i + 1][..i] == rows[..i];
      var source := NormalizeSource(cat, rows[i]);
      if source.Err? {
        return Err(Rejected);
      }
      assert Sources(cat, rows[..i + 1]) == sources + [source.value];
      DistinctSnoc(SourceId, sources, source.value);
      if source.value.sourceId in ids {
        SourcesPrefix(cat, rows, i + 1);
        return Err(Rejected);
      }
      sources, ids := sources + [source.value], ids + {source.value.sourceId};
    }
    assert rows[..|rows|] == rows;
    return Ok(sources);
  }

  lemma DistinctSnoc<T(!new)>(key: T -> string, items: seq<T>, last: T)
    ensures DistinctBy(key, items + [last]) <==> DistinctBy(key, items) && key(last) !in (set x | x in items :: key(x))
  {
    var all := items + [last];
    assert forall i :: 0 <= i < |items| ==> all[i] == items[i];
    if DistinctBy(key, all) {
      forall x | x in items ensures key(x) != key(last) {
        var i :| 0 <= i < |items| && items[i] == x;
        assert key(all[i]) != key(all[|items|]);
      }
    }
  }

  lemma {:induction false} SourcesPrefix(cat: Catalogue, rows: seq<SourceRow>, n: nat)
    requires n <= |rows|
    ensures Sources(cat, rows[..n]) <= Sources(cat, rows)
    ensures !DistinctBy(SourceId, Sources(cat, rows[..n])) ==> !DistinctBy(SourceId, Sources(cat, rows))
    decreases |rows| - n
  {
    hide NormalizeSource;
    if n == |rows| {
      assert rows[..n] == rows;
    } else {
      assert rows[..n + 1][..n] == rows[..n];
      SourcesPrefix(cat, rows, n + 1);
    }
  }

  lemma {:induction false} ReconciliationsPrefix(cat: Catalogue, rows: seq<ReconciliationRow>, n: nat)
    requires n <= |rows|
    ensures Reconciliations(cat, rows[..n]) <= Reconciliations(cat, rows)
    decreases |rows| - n
  {
    hide NormalizeReconciliation;
    if n == |rows| {
      assert rows[..n] == rows;
    } else {
      assert rows[..n + 1][..n] == rows[..n];
      ReconciliationsPrefix(cat, rows, n + 1);
    }
  }

  /** `by_source` after the reconciliation loop. */
  predicate Grouped(bySource: map<string, seq<Reconciliation>>, recs: seq<Reconciliation>) {
    && bySource.Keys == Owners(recs)
    && forall id :: id in bySource ==> bySource[id] == Of(recs, id)
  }

  lemma NoneOf(recs: seq<Reconciliation>, id: string)
    requires id !in Owners(recs)
    ensures Of(recs, id) == []
  {
    if recs != [] {
      NoneOf(recs[..|recs| - 1], id);
    }
  }

  lemma GroupedStep(bySource: map<string, seq<Reconciliation>>, recs: seq<Reconciliation>, last: Reconciliation)
    requires Grouped(bySource, recs)
    ensures var before := if last.sourceId in bySource then bySource[last.sourceId] else [];
            Grouped(bySource[last.sourceId := before + [last]], recs + [last])
  {
    var all := recs + [last];
    assert all[..|recs|] == recs;
    assert Owners(all) == Owners(recs) + {last.sourceId};
    if last.sourceId !in bySource {
      NoneOf(recs, last.sourceId);
    }
    forall id | id in bySource && id != last.sourceId ensures Of(all, id) == bySource[id] {
      assert Of(recs, id) + [] == Of(recs, id);
    }
  }

  /** The reconciliation loop. */
  method LoadReconciliations(cat: Catalogue, ids: set<string>, rows: seq<ReconciliationRow>)
    returns (r: Result<(map<string, seq<Reconciliation>>, set<string>), Rejected>)
    ensures r.Ok? <==> (forall i :: 0 <= i < |rows| ==> NormalizeReconciliation(cat, rows[i]).Ok?)
                       && DistinctBy(AtomicId, Reconciliations(cat, rows))
                       && Owners(Reconciliations(cat, rows)) <= ids
    ensures r.Ok? ==> Grouped(r.value.0, Reconciliations(cat, rows)) && r.value.1 == AtomicIds(Reconciliations(cat, rows))
  {
    hide NormalizeReconciliation, Grouped;
    var bySource: map<string, seq<Reconciliation>>, atomicIds: set<string> := map[], {};
    ghost var recs: seq<Reconciliation> := [];
    assert Grouped(bySource, recs) by { NothingGrouped(); }
    for i := 0 to |rows|
      invariant forall k :: 0 <= k < i ==> NormalizeReconciliation(cat, rows[k]).Ok?
      invariant recs == Reconciliations(cat, rows[..i]) && Grouped(bySource, recs)
      invariant atomicIds == AtomicIds(recs) && DistinctBy(AtomicId, recs) && Owners(recs) <= ids
    {
      assert rows[..i + 1][..i] == rows[..i];
      var normalized := NormalizeReconciliation(cat, rows[i]);
      if normalized.Err? {
        return Err(Rejected);
      }
      var rec := normalized.value;
      assert Reconciliations(cat, rows[..i + 1]) == recs + [rec];
      DistinctSnoc(AtomicId, recs, rec);
      if rec.sourceId !in ids || rec.atomicId in atomicIds {
        ReconciliationsPrefix(cat, rows, i + 1);
        PrefixKeeps(recs, rec, Reconciliations(cat, rows));
        return Err(Rejected);
      }
      GroupedStep(bySource, recs, rec);
      var before := if rec.sourceId in bySource then bySource[rec.sourceId] else [];
      bySource, atomicIds := bySource[rec.sourceId := before + [rec]], atomicIds + {rec.atomicId};
      recs := recs + [rec];
    }
    assert rows[..|rows|] == rows;
    return Ok((bySource, atomicIds));
  }

  lemma NothingGrouped()
    ensures Grouped(map[], [])
  {
  }

  lemma PrefixKeeps(recs: seq<Reconciliation>, rec: Reconciliation, all: seq<Reconciliation>)
    requires recs + [rec] <= all
    ensures DistinctBy(AtomicId, all) ==> DistinctBy(AtomicId, recs + [rec])
    ensures rec.sourceId in Owners(all)
  {
    assert all[|recs|] == rec;
    assert forall i :: 0 <= i <= |recs| ==> (recs + [rec])[i] == all[i];
  }

  method RenderSource(cat: Catalogue, meta: Metadata, source: Source, recs: seq<Reconciliation>)
    returns (profile: seq<ProfileRow>, publicRows: seq<PublicRow>)
    ensures profile == ProfileOf(meta, source, recs)
    ensures publicRows == PublicOf(cat, source, recs)
  {
    if source.publication == "organization-only" {
      return [], [RedactedRow(cat, source.sourceId)];
    }
    var sorted := Sort(AtomicId, recs);
    var relationship := if |sorted| > 1 then "split-from" else "same-as-source";
    profile, publicRows := [], [];
    for i := 0 to |sorted|
      invariant profile == ProfileBlock(meta, source, relationship, sorted)[..i]
      invariant publicRows == PublicBlock(source, relationship, sorted)[..i]
    {
      profile := profile + [ProfileRowOf(meta, source, relationship, sorted[i])];
      publicRows := publicRows + [PublicRowOf(source, relationship, sorted[i])];
    }
  }

  /** From the rows of the two tables to everything that is exported of them. */
  method ExportRows(cat: Catalogue, meta: Metadata, sourceRows: seq<SourceRow>,
                    reconciliationRows: seq<ReconciliationRow>)
    returns (r: Result<Export, Rejected>)
    ensures r.Ok? <==> Valid(cat, sourceRows, reconciliationRows)
    ensures r.Ok? ==>
              r.value == ExportOf(cat, meta, Sources(cat, sourceRows), Reconciliations(cat, reconciliationRows))
  {
    hide Of, Sort, ProfileOf, PublicOf, Ids, Owners, AtomicIds, DistinctBy, Sources, Reconciliations;
    var loaded := LoadSources(cat, sourceRows);
    if loaded.Err? {
      return Err(Rejected);
    }
    var sources := loaded.value;
    ghost var recs := Reconciliations(cat, reconciliationRows);
    var grouped := LoadReconciliations(cat, Ids(sources), reconciliationRows);
    if grouped.Err? {
      return Err(Rejected);
    }
    var (bySource, atomicIds) := grouped.value;
    assert bySource.Keys == Owners(recs);
    if Ids(sources) - bySource.Keys != {} {
      assert Owners(recs) != Ids(sources);
      return Err(Rejected);
    }
    assert Owners(recs) == Ids(sources) by {
      forall id | id in Ids(sources) ensures id in Owners(recs) {
        assert id !in Ids(sources) - bySource.Keys;
      }
    }
    var ordered := Sort(SourceId, sources);
    assert forall k :: 0 <= k < |ordered| ==> ordered[k].sourceId in bySource by { OrderedIds(sources); }
    var profile: seq<ProfileRow>, publicRows: seq<PublicRow>, organizationOnly := [], [], 0;
    for k := 0 to |ordered|
      invariant profile == ProfileRows(meta, ordered[..k], recs)
      invariant publicRows == PublicRows(cat, ordered[..k], recs)
      invariant organizationOnly == WithheldCount(ordered[..k])
    {
      assert ordered[..k + 1][..k] == ordered[..k];
      var block, publicBlock := RenderSource(cat, meta, ordered[k], bySource[ordered[k].sourceId]);
      if ordered[k].publication == "organization-only" {
        organizationOnly := organizationOnly + 1;
      }
      profile, publicRows := profile + block, publicRows + publicBlock;
    }
    assert ordered[..|ordered|] == ordered;
    AtomicCount(recs);
    return Ok(Export(profile, publicRows, Counts(|sources|, |atomicIds|, |profile|, organizationOnly)));
  }

  lemma OrderedIds(sources: seq<Source>)
    ensures forall k :: 0 <= k < |Sort(SourceId, sources)| ==> Sort(SourceId, sources)[k].sourceId in Ids(sources)
  {
    SameMembers(Sort(SourceId, sources), sources);
  }

  /** Distinct identifiers: as many as rows. */
  lemma {:induction false} AtomicCount(recs: seq<Reconciliation>)
    ensures DistinctBy(AtomicId, recs) ==> |AtomicIds(recs)| == |recs|
  {
    if recs != [] {
      var init, last := recs[..|recs| - 1], recs[|recs| - 1];
      assert recs == init + [last];
      AtomicCount(init);
      DistinctSnoc(AtomicId, init, last);
      assert AtomicIds(recs) == AtomicIds(init) + {last.atomicId};
    }
  }
}
