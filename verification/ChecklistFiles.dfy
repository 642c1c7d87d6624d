// The importer from its three files to everything it generates: profile rows, public reconciliation and the
// status document with its digests.
module ChecklistFiles {
  import opened Wrappers
  import opened Json
  import opened PyStrings
  import opened StableSort
  import opened ChecklistTable
  import opened ChecklistImport
  import opened ChecklistProperties

  // ---------------------------------------------------------------- inputs

  type Table = seq<seq<string>>

  /**
   * The manifest file, when there is one, and the bytes behind a path of the manifest: None when the path escapes the
   * directory or the file cannot be read, is empty or is too large. Strings stand for bytes.
   */
  datatype Files = Files(manifest: Option<string>, read: Json -> Option<string>)

  /** JSON and table parsing, dates, and the format of a digest; the digest itself is the catalogue's. */
  datatype Reader = Reader(
    parse: string -> Option<Json>, isoDate: string -> bool, sha256: string -> bool,
    csv: string -> Option<Table>, xlsx: (string, string) -> Option<Table>)

  const RECONCILIATION_HEADERS := {
    "source_id", "atomic_id", "atomic_wording", "disposition", "control_ids", "responsible_role", "verification_method",
    "expected_evidence", "framework_mappings", "notes"}

  // ---------------------------------------------------------------- the manifest

  predicate TextOk(j: Json, maximum: nat) { j.Str? && RequireString(j.s, maximum).Ok? }

  predicate Keys(j: Json, keys: set<string>) { j.Obj? && j.fields.Keys == keys }

  predicate SourceSectionOk(rd: Reader, source: Json) {
    && Keys(source, {"title", "owner", "version", "review_date"})
    && TextOk(Get(source, "title"), 500) && TextOk(Get(source, "owner"), 500) && TextOk(Get(source, "version"), 500)
    && TextOk(Get(source, "review_date"), 20)
    && rd.isoDate(RequireString(Get(source, "review_date").s, 20).value)
  }

  predicate InputSectionOk(rd: Reader, input: Json) {
    && Keys(input, {"path", "format", "sheet", "sha256"})
    && (Get(input, "format") == Str("csv") || Get(input, "format") == Str("xlsx"))
    && TextOk(Get(input, "sheet"), 100)
    && (Get(input, "format") == Str("csv") ==> Get(input, "sheet") == Str("CSV"))
    && Get(input, "sha256").Str? && rd.sha256(Get(input, "sha256").s)
  }

  /** The four column names, stripped, are distinct. */
  predicate ColumnsOk(columns: Json) {
    && Keys(columns, {"source_id", "wording", "category", "publication"})
    && TextOk(Get(columns, "source_id"), 200) && TextOk(Get(columns, "wording"), 200)
    && TextOk(Get(columns, "category"), 200) && TextOk(Get(columns, "publication"), 200)
    && NoRepeats([Strip(Get(columns, "source_id").s), Strip(Get(columns, "wording").s),
                  Strip(Get(columns, "category").s), Strip(Get(columns, "publication").s)])
  }

  predicate ReconciliationSectionOk(rd: Reader, section: Json) {
    && Keys(section, {"path", "format", "sha256"})
    && Get(section, "format") == Str("csv")
    && Get(section, "sha256").Str? && rd.sha256(Get(section, "sha256").s)
  }

  /** `_validate_manifest`. */
  predicate ManifestOk(rd: Reader, m: Json) {
    && Keys(m, {"schema", "source", "input", "columns", "reconciliation"})
    && Get(m, "schema") == Str("psb-application-checklist-source/v1.0")
    && SourceSectionOk(rd, Get(m, "source")) && InputSectionOk(rd, Get(m, "input"))
    && ColumnsOk(Get(m, "columns")) && ReconciliationSectionOk(rd, Get(m, "reconciliation"))
  }

  function TextIn(m: Json, section: string, key: string): string {
    if Get(Get(m, section), key).Str? then Get(Get(m, section), key).s else ""
  }

  function Column(m: Json, key: string): string { TextIn(m, "columns", key) }

  function ColumnSet(m: Json): set<string> {
    {Column(m, "source_id"), Column(m, "wording"), Column(m, "category"), Column(m, "publication")}
  }

  /** The metadata rows repeat. */
  function MetadataIn(m: Json): Metadata {
    Metadata(TextIn(m, "source", "title"), TextIn(m, "source", "owner"), TextIn(m, "source", "version"),
             TextIn(m, "source", "review_date"), TextIn(m, "input", "sha256"), TextIn(m, "input", "sheet"))
  }

  // ---------------------------------------------------------------- the two tables

  function SourceTable(rd: Reader, m: Json, bytes: string): Option<Table> {
    if TextIn(m, "input", "format") == "csv" then rd.csv(bytes) else rd.xlsx(bytes, TextIn(m, "input", "sheet"))
  }

  function Field(record: Record, column: string): string { if column in record then record[column] else "" }

  function SourceRowOf(m: Json, record: Record): SourceRow {
    SourceRow(Field(record, Column(m, "source_id")), Field(record, Column(m, "wording")),
              Field(record, Column(m, "category")), Field(record, Column(m, "publication")))
  }

  function ReconciliationRowOf(record: Record): ReconciliationRow {
    ReconciliationRow(Field(record, "source_id"), Field(record, "atomic_id"), Field(record, "atomic_wording"),
                      Field(record, "disposition"), Field(record, "control_ids"), Field(record, "responsible_role"),
                      Field(record, "verification_method"), Field(record, "expected_evidence"),
                      Field(record, "framework_mappings"), Field(record, "notes"))
  }

  /** The records of an accepted table. */
  function Records(table: Table): seq<Record> {
    if table == [] then []
    else seq(|table| - 1, i requires 0 <= i < |table| - 1 =>
                            if |table[i + 1]| == |table[0]| then Zip(StripAll(table[0]), table[i + 1]) else map[])
  }

  function SourceRows(m: Json, records: seq<Record>): seq<SourceRow> {
    seq(|records|, i requires 0 <= i < |records| => SourceRowOf(m, records[i]))
  }

  function ReconciliationRows(records: seq<Record>): seq<ReconciliationRow> {
    seq(|records|, i requires 0 <= i < |records| => ReconciliationRowOf(records[i]))
  }

  // ---------------------------------------------------------------- what is accepted and generated

  /** A file named by a section of the manifest, with exactly the digest pinned there. */
  function Pinned(cat: Catalogue, files: Files, m: Json, section: string): Option<string> {
    var bytes := files.read(Get(Get(m, section), "path"));
    if bytes.Some? && cat.digest(bytes.value) == TextIn(m, section, "sha256") then bytes else None
  }

  function ManifestIn(rd: Reader, files: Files): Option<Json> {
    if files.manifest.None? then None
    else
      var parsed := rd.parse(files.manifest.value);
      if parsed.Some? && ManifestOk(rd, parsed.value) then parsed else None
  }

  function SourcesIn(rd: Reader, cat: Catalogue, files: Files, m: Json): Option<seq<SourceRow>> {
    var bytes := Pinned(cat, files, m, "input");
    if bytes.None? then None
    else
      var table := SourceTable(rd, m, bytes.value);
      if table.None? || !ChecklistTable.Accepted(table.value, ColumnSet(m)) then None
      else Some(SourceRows(m, Records(table.value)))
  }

  function ReconciliationsIn(rd: Reader, cat: Catalogue, files: Files, m: Json): Option<seq<ReconciliationRow>> {
    var bytes := Pinned(cat, files, m, "reconciliation");
    if bytes.None? then None
    else
      var table := rd.csv(bytes.value);
      if table.None? || !ChecklistTable.Accepted(table.value, RECONCILIATION_HEADERS) then None
      else Some(ReconciliationRows(Records(table.value)))
  }

  /** Everything an import with a manifest depends on, read and checked. */
  ghost predicate Reads(rd: Reader, cat: Catalogue, files: Files, m: Json, sources: seq<SourceRow>,
                        recs: seq<ReconciliationRow>)
  {
    && ManifestIn(rd, files) == Some(m)
    && SourcesIn(rd, cat, files, m) == Some(sources)
    && ReconciliationsIn(rd, cat, files, m) == Some(recs)
    && Valid(cat, sources, recs)
  }

  datatype Status = Status(
    manifestSha256: string, sourceSha256: string, reconciliationSha256: string,
    title: string, owner: string, version: string, reviewDate: string, counts: Counts)

  datatype Generated =
    | InputRequired
    | Generated(status: Status, profile: seq<ProfileRow>, reconciliation: seq<PublicRow>)

  function StatusOf(cat: Catalogue, raw: string, m: Json, counts: Counts): Status {
    Status(cat.digest(raw), TextIn(m, "input", "sha256"), TextIn(m, "reconciliation", "sha256"),
           TextIn(m, "source", "title"), TextIn(m, "source", "owner"), TextIn(m, "source", "version"),
           TextIn(m, "source", "review_date"), counts)
  }

  /** What an accepted import generates. */
  function GeneratedFrom(cat: Catalogue, raw: string, m: Json, sources: seq<SourceRow>, recs: seq<ReconciliationRow>)
    : Generated
  {
    var e := ExportOf(cat, MetadataIn(m), Sources(cat, sources), Reconciliations(cat, recs));
    Generated(StatusOf(cat, raw, m, e.counts), e.profile, e.reconciliation)
  }

  // ---------------------------------------------------------------- the import as written

  method ReadSources(rd: Reader, cat: Catalogue, files: Files, m: Json) returns (r: Option<seq<SourceRow>>)
    ensures r == SourcesIn(rd, cat, files, m)
  {
    hide Zip, ChecklistTable.Accepted, SourceRowOf, SourceTable, Pinned, ColumnSet;
    var bytes := Pinned(cat, files, m, "input");
    if bytes.None? {
      return None;
    }
    var table := SourceTable(rd, m, bytes.value);
    if table.None? {
      return None;
    }
    var records := ReadRecords(table.value, ColumnSet(m));
    if records.None? {
      return None;
    }
    var rows: seq<SourceRow> := [];
    for i := 0 to |records.value|
      invariant rows == SourceRows(m, records.value)[..i]
    {
      rows := rows + [SourceRowOf(m, records.value[i])];
    }
    assert SourceRows(m, records.value)[..|records.value|] == SourceRows(m, records.value);
    return Some(rows);
  }

  method ReadRecords(table: Table, expected: set<string>) returns (r: Option<seq<Record>>)
    ensures r == if ChecklistTable.Accepted(table, expected) then Some(Records(table)) else None
  {
    hide Zip;
    if table == [] {
      return None;
    }
    var records := TableToRecords(table, expected);
    if records.Err? {
      return None;
    }
    assert records.value == Records(table);
    return Some(records.value);
  }

  method ReadReconciliations(rd: Reader, cat: Catalogue, files: Files, m: Json) returns (r: Option<seq<ReconciliationRow>>)
    ensures r == ReconciliationsIn(rd, cat, files, m)
  {
    hide Zip, ChecklistTable.Accepted, ReconciliationRowOf, Pinned;
    var bytes := Pinned(cat, files, m, "reconciliation");
    if bytes.None? {
      return None;
    }
    var table := rd.csv(bytes.value);
    if table.None? {
      return None;
    }
    var records := ReadRecords(table.value, RECONCILIATION_HEADERS);
    if records.None? {
      return None;
    }
    var rows: seq<ReconciliationRow> := [];
    for i := 0 to |records.value|
      invariant rows == ReconciliationRows(records.value)[..i]
    {
      rows := rows + [ReconciliationRowOf(records.value[i])];
    }
    assert ReconciliationRows(records.value)[..|records.value|] == ReconciliationRows(records.value);
    return Some(rows);
  }

  /** `load_application_profile`. */
  method LoadApplicationProfile(rd: Reader, cat: Catalogue, files: Files) returns (r: Result<Generated, Rejected>)
    ensures files.manifest.None? <==> r == Ok(InputRequired)
    ensures files.manifest.Some? ==>
              (r.Ok? <==> exists m, sources, recs :: Reads(rd, cat, files, m, sources, recs))
    ensures forall m, sources, recs :: Reads(rd, cat, files, m, sources, recs) ==>
              r == Ok(GeneratedFrom(cat, files.manifest.value, m, sources, recs))
  {
    hide ManifestIn, SourcesIn, ReconciliationsIn, Valid, ExportOf, Sources, Reconciliations, MetadataIn, StatusOf;
    NoManifest(rd, files);
    if files.manifest.None? {
      return Ok(InputRequired);
    }
    var manifest := ManifestIn(rd, files);
    if manifest.None? {
      return Err(Rejected);
    }
    var m := manifest.value;
    var sources := ReadSources(rd, cat, files, m);
    if sources.None? {
      return Err(Rejected);
    }
    var recs := ReadReconciliations(rd, cat, files, m);
    if recs.None? {
      return Err(Rejected);
    }
    var exported := ExportRows(cat, MetadataIn(m), sources.value, recs.value);
    if exported.Err? {
      return Err(Rejected);
    }
    assert Reads(rd, cat, files, m, sources.value, recs.value);
    return Ok(Generated(StatusOf(cat, files.manifest.value, m, exported.value.counts), exported.value.profile,
                        exported.value.reconciliation));
  }

  lemma NoManifest(rd: Reader, files: Files)
    ensures files.manifest.None? ==> ManifestIn(rd, files) == None
  {
  }

  // ---------------------------------------------------------------- what the files reveal

  /** The same rows with another source digest. */
  function Restamped(rows: seq<ProfileRow>, sha256: string): seq<ProfileRow> {
    seq(|rows|, i requires 0 <= i < |rows| => rows[i].(sha256 := sha256))
  }

  lemma {:induction false} RestampRows(meta: Metadata, sha256: string, ordered: seq<Source>, recs: seq<Reconciliation>)
    ensures ProfileRows(meta.(sha256 := sha256), ordered, recs) == Restamped(ProfileRows(meta, ordered, recs), sha256)
    decreases |ordered|
  {
    hide Sort, Of, ProfileOf, Restamped;
    if ordered == [] {
      RestampNothing(sha256);
    } else {
      var n := |ordered| - 1;
      var mine := Of(recs, ordered[n].sourceId);
      RestampRows(meta, sha256, ordered[..n], recs);
      RestampBlock(meta, sha256, ordered[n], mine);
      RestampJoins(ProfileRows(meta, ordered[..n], recs), ProfileOf(meta, ordered[n], mine), sha256);
    }
  }

  lemma RestampNothing(sha256: string)
    ensures Restamped([], sha256) == []
  {
  }

  lemma RestampJoins(rows: seq<ProfileRow>, more: seq<ProfileRow>, sha256: string)
    ensures Restamped(rows + more, sha256) == Restamped(rows, sha256) + Restamped(more, sha256)
  {
  }

  lemma RestampBlock(meta: Metadata, sha256: string, s: Source, recs: seq<Reconciliation>)
    ensures ProfileOf(meta.(sha256 := sha256), s, recs) == Restamped(ProfileOf(meta, s, recs), sha256)
  {
    hide Sort;
  }

  lemma {:induction false} StampedRows(meta: Metadata, ordered: seq<Source>, recs: seq<Reconciliation>)
    ensures forall i :: 0 <= i < |ProfileRows(meta, ordered, recs)| ==> ProfileRows(meta, ordered, recs)[i].sha256 == meta.sha256
    decreases |ordered|
  {
    hide Sort, Of;
    if ordered != [] {
      var n := |ordered| - 1;
      StampedRows(meta, ordered[..n], recs);
    }
  }

  /** The manifests agree in the metadata that rows repeat, digests aside. */
  predicate SameMetadata(m: Json, n: Json) {
    MetadataIn(m).(sha256 := "") == MetadataIn(n).(sha256 := "")
  }

  function Profile(cat: Catalogue, meta: Metadata, sources: seq<Source>, recs: seq<Reconciliation>): seq<ProfileRow> {
    ExportOf(cat, meta, sources, recs).profile
  }

  lemma RestampedProfile(cat: Catalogue, meta: Metadata, sha256: string, sources: seq<Source>, recs: seq<Reconciliation>)
    ensures Profile(cat, meta.(sha256 := sha256), sources, recs) == Restamped(Profile(cat, meta, sources, recs), sha256)
    ensures ExportOf(cat, meta.(sha256 := sha256), sources, recs).reconciliation
         == ExportOf(cat, meta, sources, recs).reconciliation
    ensures ExportOf(cat, meta.(sha256 := sha256), sources, recs).counts == ExportOf(cat, meta, sources, recs).counts
    ensures forall i :: 0 <= i < |Profile(cat, meta, sources, recs)| ==> Profile(cat, meta, sources, recs)[i].sha256 == meta.sha256
  {
    hide Sort, ProfileRows, PublicRows;
    RestampRows(meta, sha256, Sort(SourceId, sources), recs);
    StampedRows(meta, Sort(SourceId, sources), recs);
  }

  lemma RestampedEqual(rows: seq<ProfileRow>, before: string, after: string)
    requires forall i :: 0 <= i < |rows| ==> rows[i].sha256 == before
    ensures Restamped(rows, after) == rows <==> rows == [] || before == after
  {
    if rows != [] && Restamped(rows, after) == rows {
      assert Restamped(rows, after)[0].sha256 == after;
    }
  }

  /** The reconciliations an import withholds. */
  function WithheldIn(cat: Catalogue, sources: seq<SourceRow>, recs: seq<ReconciliationRow>): nat {
    WithheldRows(Sort(SourceId, Sources(cat, sources)), Reconciliations(cat, recs))
  }

  /** Two accepted imports whose inputs differ, if at all, only in what the organization withholds. */
  ghost predicate PubliclyAlike(cat: Catalogue, m: Json, n: Json, sources: seq<SourceRow>, others: seq<SourceRow>,
                                recs: seq<ReconciliationRow>, otherRecs: seq<ReconciliationRow>)
  {
    && Valid(cat, sources, recs) && Valid(cat, others, otherRecs) && SameMetadata(m, n)
    && AgreePublicly(Sources(cat, sources), Reconciliations(cat, recs),
                     Sources(cat, others), Reconciliations(cat, otherRecs))
  }

  /**
   * Non-interference of the generated documents. The public reconciliations are the same; the profile rows are the same
   * up to Source SHA-256, and the same altogether exactly when there are none or the source digests agree; the status
   * documents are the same exactly when the three digests and the numbers of withheld reconciliations agree.
   */
  lemma GeneratedNonInterference(cat: Catalogue, raw: string, otherRaw: string, m: Json, n: Json,
                                 sources: seq<SourceRow>, others: seq<SourceRow>,
                                 recs: seq<ReconciliationRow>, otherRecs: seq<ReconciliationRow>)
    requires PubliclyAlike(cat, m, n, sources, others, recs, otherRecs)
    ensures var a := GeneratedFrom(cat, raw, m, sources, recs);
            var b := GeneratedFrom(cat, otherRaw, n, others, otherRecs);
            && a.reconciliation == b.reconciliation
            && b.profile == Restamped(a.profile, b.status.sourceSha256)
            && (a.profile == b.profile <==> a.profile == [] || a.status.sourceSha256 == b.status.sourceSha256)
            && (a.status == b.status
                <==> a.status.manifestSha256 == b.status.manifestSha256
                     && a.status.sourceSha256 == b.status.sourceSha256
                     && a.status.reconciliationSha256 == b.status.reconciliationSha256
                     && WithheldIn(cat, sources, recs) == WithheldIn(cat, others, otherRecs))
  {
    hide Sources, Reconciliations, Consistent, AgreePublicly, AllNormalize, ProfileRows, PublicRows, WithheldCount,
         WithheldRows, Sort, TextIn, Restamped;
    var s, t := Sources(cat, sources), Sources(cat, others);
    var r, q := Reconciliations(cat, recs), Reconciliations(cat, otherRecs);
    var meta, sha := MetadataIn(m), MetadataIn(n).sha256;
    assert MetadataIn(n) == meta.(sha256 := sha);
    NonInterference(cat, MetadataIn(n), s, r, t, q);
    RestampedProfile(cat, meta, sha, s, r);
    RestampedEqual(Profile(cat, meta, s, r), meta.sha256, sha);
    CountsAgree(cat, MetadataIn(n), s, r, t, q);
  }

  lemma CountsAgree(cat: Catalogue, meta: Metadata, s: seq<Source>, r: seq<Reconciliation>, t: seq<Source>,
                    q: seq<Reconciliation>)
    requires Consistent(s, r) && Consistent(t, q) && AgreePublicly(s, r, t, q)
    ensures ExportOf(cat, meta, s, r).counts == ExportOf(cat, meta, t, q).counts
            <==> WithheldRows(Sort(SourceId, s), r) == WithheldRows(Sort(SourceId, t), q)
  {
    hide Consistent, AgreePublicly, ProfileRows, PublicRows, WithheldCount, WithheldRows, Sort;
    NonInterference(cat, meta, s, r, t, q);
  }

  /** Both digests of two source files are equal only if the files are. */
  predicate NoCollision(cat: Catalogue, a: string, b: string) { cat.digest(a) == cat.digest(b) ==> a == b }

  /**
   * The digests do reveal a change of withheld wording: two accepted imports with different source files, all else alike,
   * differ in the status document and in every profile row, unless the files' digests collide.
   */
  lemma DigestsRevealTheFile(rd: Reader, cat: Catalogue, files: Files, other: Files, m: Json, n: Json,
                             sources: seq<SourceRow>, others: seq<SourceRow>,
                             recs: seq<ReconciliationRow>, otherRecs: seq<ReconciliationRow>)
    requires Reads(rd, cat, files, m, sources, recs) && Reads(rd, cat, other, n, others, otherRecs)
    requires PubliclyAlike(cat, m, n, sources, others, recs, otherRecs)
    requires Pinned(cat, files, m, "input") != Pinned(cat, other, n, "input")
    requires Pinned(cat, files, m, "input").Some? && Pinned(cat, other, n, "input").Some? ==>
               NoCollision(cat, Pinned(cat, files, m, "input").value, Pinned(cat, other, n, "input").value)
    ensures files.manifest.Some? && other.manifest.Some?
    ensures var a := GeneratedFrom(cat, files.manifest.value, m, sources, recs);
            var b := GeneratedFrom(cat, other.manifest.value, n, others, otherRecs);
            && a.status != b.status
            && forall i :: 0 <= i < |a.profile| ==> |b.profile| == |a.profile| && a.profile[i] != b.profile[i]
  {
    hide ManifestIn, ReconciliationsIn, Valid, Sources, Reconciliations, ExportOf, PubliclyAlike, SourceTable,
         ChecklistTable.Accepted, TextIn;
    NoManifest(rd, files);
    NoManifest(rd, other);
    var a := GeneratedFrom(cat, files.manifest.value, m, sources, recs);
    var b := GeneratedFrom(cat, other.manifest.value, n, others, otherRecs);
    GeneratedNonInterference(cat, files.manifest.value, other.manifest.value, m, n, sources, others, recs, otherRecs);
    StampedProfile(cat, files.manifest.value, m, sources, recs);
  }

  lemma StampedProfile(cat: Catalogue, raw: string, m: Json, sources: seq<SourceRow>, recs: seq<ReconciliationRow>)
    ensures var g := GeneratedFrom(cat, raw, m, sources, recs);
            forall i :: 0 <= i < |g.profile| ==> g.profile[i].sha256 == g.status.sourceSha256
  {
    hide Sources, Reconciliations, Sort, ProfileRows, PublicRows, TextIn, WithheldCount;
    StampedRows(MetadataIn(m), Sort(SourceId, Sources(cat, sources)), Reconciliations(cat, recs));
  }

  /**
   * Permuting the reconciliation rows: acceptance, both row lists and all counts stay; the status documents are the same
   * exactly when the digests of manifest and reconciliation file are.
   */
  lemma PermutedReconciliation(cat: Catalogue, raw: string, otherRaw: string, m: Json, n: Json, sources: seq<SourceRow>,
                               recs: seq<ReconciliationRow>, permuted: seq<ReconciliationRow>)
    requires Valid(cat, sources, recs) && multiset(recs) == multiset(permuted) && MetadataIn(m) == MetadataIn(n)
    ensures Valid(cat, sources, permuted)
    ensures var a, b := GeneratedFrom(cat, raw, m, sources, recs), GeneratedFrom(cat, otherRaw, n, sources, permuted);
            && a.profile == b.profile && a.reconciliation == b.reconciliation && a.status.counts == b.status.counts
            && (a.status == b.status
                <==> a.status.manifestSha256 == b.status.manifestSha256
                     && a.status.reconciliationSha256 == b.status.reconciliationSha256)
  {
    hide Sources, Reconciliations, Valid, ExportOf, TextIn;
    RowOrderIrrelevant(cat, MetadataIn(m), sources, recs, permuted);
  }
}
