// RAG corpus admission, indexing, retrieval and deletion evidence: the chained checkers of one
// evaluation, and what a clean evaluation says about every returned chunk.
module RagCorpus {
  import opened Wrappers
  import opened Json
  import opened Keyed
  import opened Times

  // ---------------------------------------------------------------- inputs

  type Bytes = seq<bv8>

  /** The file system, digests and time parsing that an evaluation consults. */
  datatype World = World(
    sha256: Bytes -> string,
    encode: string -> Bytes,
    read: string -> Option<Bytes>,       // None: the file cannot be read
    exists_: string -> bool,
    resolve: Json -> Option<string>,     // None: the path is missing or escapes the registry
    time: Json -> Option<int>,           // None: not an RFC 3339 timestamp with a timezone
    fullSha: string -> bool,
    sha256Text: string -> bool,
    lower: string -> string)

  datatype SourceRecord = SourceRecord(
    sourceId: Json, documentId: Json, sourceUrl: Json, sourceRevision: Json, classification: Json,
    owner: Json, contentSha256: Json, status: Json, contentPath: Json, revokedAt: Json,
    authorizationExpiresAt: Json, tenantId: Json, licenseExpression: Json, useAuthorization: Json,
    retiredChunkIds: Json)

  datatype Registry = Registry(
    schema: Json, available: Json, complete: Json, collectedAt: Json, records: seq<SourceRecord>, raw: Bytes)

  datatype Candidate = Candidate(
    sourceId: Json, documentId: Json, contentSha256: Json, scannerAvailable: Json, scannerComplete: Json,
    findingIds: Json, decision: Json, reasons: Json)

  datatype Ingestion = Ingestion(
    schema: Json, available: Json, complete: Json, registrySha256: Json, inspector: Json, evaluatedAt: Json,
    candidates: seq<Candidate>, liveConnectors: Json, raw: Bytes)

  datatype ChunkEntry = ChunkEntry(
    chunkId: Json, sourceId: Json, documentId: Json, sourceRevision: Json, chunkIndex: Json, chunkSha256: Json,
    embeddingBinding: Json, tenantId: Json, classification: Json)

  datatype Snapshot = Snapshot(
    schema: Json, embeddingModel: Json, registrySha256: Json, ingestionSha256: Json, tenantId: Json,
    entries: seq<ChunkEntry>, liveDatabase: Json, raw: Bytes)

  datatype Hit = Hit(
    chunkId: Json, documentId: Json, sourceId: Json, sourceRevision: Json, chunkSha256: Json, tenantId: Json,
    classification: Json, snapshotSha256: Json, embeddingSha256: Json)

  datatype Run = Run(
    queryId: Json, principalId: Json, querySha256: Json, tenantId: Json, maximumClassification: Json,
    decision: Json, results: Option<seq<Hit>>)

  datatype Retrieval = Retrieval(
    schema: Json, available: Json, complete: Json, snapshotSha256: Json, runs: seq<Run>, liveEmbedding: Json)

  datatype Principal = Principal(principalId: Json, tenantId: Json, maximumClassification: Json)

  datatype Scenario = Scenario(queryId: Json, principalId: Json, querySha256: Json, expectedChunkIds: Json)

  datatype Deletion = Deletion(
    schema: Json, available: Json, complete: Json, snapshotSha256: Json, sourceId: Json, documentId: Json,
    deletedAt: Json, removedChunkIds: Json, indexLookup: Json, probeDecision: Json, probeResults: Json,
    tombstone: Json, liveReplication: Json)

  function TextAt(document: Json, section: string, key: string): string {
    if Get(Get(document, section), key).Str? then Get(Get(document, section), key).s else ""
  }

  function CountAt(document: Json, section: string, key: string): nat {
    if Get(Get(document, section), key).Num? && Get(Get(document, section), key).n >= 0
    then Get(Get(document, section), key).n else 0
  }

  function ItemsOf(list: Json): seq<Json> { if list.Arr? then list.items else [] }

  function PrincipalsIn(list: seq<Json>): seq<Principal> {
    seq(|list|, i requires 0 <= i < |list| =>
      Principal(Get(list[i], "principal_id"), Get(list[i], "tenant_id"), Get(list[i], "maximum_classification")))
  }

  function ScenariosIn(list: seq<Json>): seq<Scenario> {
    seq(|list|, i requires 0 <= i < |list| =>
      Scenario(Get(list[i], "query_id"), Get(list[i], "principal_id"), Get(list[i], "query_sha256"),
               Get(list[i], "expected_chunk_ids")))
  }

  predicate ListOfObjects(j: Json) {
    j.Arr? && forall i :: 0 <= i < |j.items| ==> j.items[i].Obj?
  }

  /** The reviewed policy document, and what the checkers read out of it. */
  datatype Policy = Policy(document: Json) {
    const registrySha256: string := TextAt(document, "source_registry", "sha256")
    const maximumAge: int := CountAt(document, "source_registry", "maximum_age_hours") * 3600 * SECOND
    const acceptedTenants: seq<Json> := ItemsOf(Get(Get(document, "source_registry"), "accepted_tenants"))
    const maximumDocumentBytes: nat := CountAt(document, "chunking", "maximum_document_bytes")
    const marker: string := TextAt(document, "poisoning", "synthetic_marker")
    const inspector: Json := Get(document, "inspector")
    const embeddingModel: Json := Get(document, "embedding_model")
    const embeddingSha256: string := TextAt(document, "embedding_model", "artifact_sha256")
    const principals: seq<Principal> := PrincipalsIn(ItemsOf(Get(document, "principals")))
    const scenarios: seq<Scenario> := ScenariosIn(ItemsOf(Get(document, "retrieval_scenarios")))
    const deletionSource: Json := Get(Get(document, "deletion"), "source_id")
    const deletionDocument: Json := Get(Get(document, "deletion"), "document_id")
    const maximumPropagation: int := CountAt(document, "deletion", "maximum_propagation_seconds") * SECOND
    const requiredIndexState: Json := Get(Get(document, "deletion"), "required_index_state")
    const requiredRetrievalDecision: Json := Get(Get(document, "deletion"), "required_retrieval_decision")

    /** Principals and scenarios are lists of objects. */
    predicate Listed() {
      ListOfObjects(Get(document, "principals")) && ListOfObjects(Get(document, "retrieval_scenarios"))
    }
  }

  /** The complete expected source set. */
  const SOURCES := {"SRC-001", "SRC-002", "SRC-003", "SRC-004"}

  datatype CheckId = Rag001 | Rag002 | Rag003 | Rag004 | Rag005 | Rag006 | Rag007 | Rag008 | Rag009 | Rag010

  /** Evidence that cannot be evaluated; the program exits with 2. */
  datatype Unavailable = Unavailable

  const YES := Bool(true)
  const NOT_CHECKED := Str("NOT_CHECKED")

  // ---------------------------------------------------------------- registry

  predicate WellFormed(w: World, r: SourceRecord) {
    && NonEmptyText(r.sourceId) && NonEmptyText(r.documentId)
    && r.sourceUrl.Str? && "https://" <= r.sourceUrl.s
    && r.sourceRevision.Str? && w.fullSha(r.sourceRevision.s)
    && r.classification in {Str("public"), Str("internal"), Str("restricted")}
    && NonEmptyText(r.owner)
    && r.contentSha256.Str? && w.sha256Text(r.contentSha256.s)
  }

  predicate Live(r: SourceRecord) {
    r.status == Str("ACTIVE") || r.status == Str("UNAPPROVED")
  }

  /** The bytes of a live source; None for a revoked one or when something cannot be read. */
  function Content(w: World, r: SourceRecord): Option<Bytes> {
    if Live(r) && w.resolve(r.contentPath).Some? then w.read(w.resolve(r.contentPath).value) else None
  }

  predicate Loads(w: World, r: SourceRecord) {
    && w.resolve(r.contentPath).Some?
    && (Live(r) ==> Content(w, r).Some?)
    && (Live(r) || (r.status == Str("REVOKED") && !w.exists_(w.resolve(r.contentPath).value) && w.time(r.revokedAt).Some?))
  }

  predicate Intact(w: World, policy: Policy, r: SourceRecord) {
    Live(r) && Content(w, r).Some? ==>
      |Content(w, r).value| <= policy.maximumDocumentBytes && Str(w.sha256(Content(w, r).value)) == r.contentSha256
  }

  predicate RegistryHeader(w: World, policy: Policy, registry: Registry, asOf: int) {
    && registry.schema == Str("psb-rag-source-registry/v1.0")
    && registry.available == YES && registry.complete == YES
    && w.sha256(registry.raw) == policy.registrySha256
    && w.time(registry.collectedAt).Some?
    && w.time(registry.collectedAt).value <= asOf <= w.time(registry.collectedAt).value + policy.maximumAge
  }

  predicate DistinctIdentities(records: seq<SourceRecord>, n: nat)
    requires n <= |records|
  {
    forall i, j :: 0 <= i < j < n ==>
      records[i].sourceId != records[j].sourceId && records[i].documentId != records[j].documentId
  }

  function SourceIds(records: seq<SourceRecord>, n: nat): set<Json>
    requires n <= |records|
  {
    set i | 0 <= i < n :: records[i].sourceId
  }

  function DocumentIds(records: seq<SourceRecord>, n: nat): set<Json>
    requires n <= |records|
  {
    set i | 0 <= i < n :: records[i].documentId
  }

  lemma DistinctStep(records: seq<SourceRecord>, n: nat)
    requires n < |records|
    ensures DistinctIdentities(records, n + 1)
       <==> (DistinctIdentities(records, n)
             && records[n].sourceId !in SourceIds(records, n) && records[n].documentId !in DocumentIds(records, n))
  {
  }

  lemma DistinctPrefix(records: seq<SourceRecord>, n: nat)
    requires n <= |records| && DistinctIdentities(records, |records|)
    ensures DistinctIdentities(records, n)
  {
  }

  predicate RegistryUsable(w: World, policy: Policy, registry: Registry, asOf: int) {
    && RegistryHeader(w, policy, registry, asOf)
    && (forall i :: 0 <= i < |registry.records| ==> WellFormed(w, registry.records[i]) && Loads(w, registry.records[i]))
    && DistinctIdentities(registry.records, |registry.records|)
    && SourceIds(registry.records, |registry.records|) == (set s | s in SOURCES :: Str(s))
  }

  predicate RegistryClean(w: World, policy: Policy, registry: Registry) {
    forall i :: 0 <= i < |registry.records| ==> Intact(w, policy, registry.records[i])
  }

  function RecordSource(r: SourceRecord): Json { r.sourceId }

  lemma NoIds(records: seq<SourceRecord>)
    ensures SourceIds(records, 0) == {} && DocumentIds(records, 0) == {} && DistinctIdentities(records, 0)
  {
  }

  lemma NoRecords(records: seq<SourceRecord>)
    ensures ByKey(RecordSource, records[..0]) == map[]
  {
  }

  lemma IdsStep(records: seq<SourceRecord>, n: nat)
    requires n < |records|
    ensures SourceIds(records, n + 1) == SourceIds(records, n) + {records[n].sourceId}
    ensures DocumentIds(records, n + 1) == DocumentIds(records, n) + {records[n].documentId}
  {
  }

  lemma AllIds(records: seq<SourceRecord>)
    ensures forall i :: 0 <= i < |records| ==> records[i].sourceId in SourceIds(records, |records|)
  {
  }

  lemma RefusedIdentity(w: World, records: seq<SourceRecord>, n: nat)
    requires n < |records|
    requires || !NonEmptyText(records[n].sourceId) || records[n].sourceId in SourceIds(records, n)
             || !NonEmptyText(records[n].documentId) || records[n].documentId in DocumentIds(records, n)
    ensures !WellFormed(w, records[n]) || !DistinctIdentities(records, |records|)
  {
    if DistinctIdentities(records, |records|) {
      DistinctPrefix(records, n + 1);
      DistinctStep(records, n);
    }
  }

  ghost predicate RecordsUsable(w: World, records: seq<SourceRecord>) {
    && (forall i :: 0 <= i < |records| ==> WellFormed(w, records[i]) && Loads(w, records[i]))
    && DistinctIdentities(records, |records|)
  }

  /** The record loop. */
  method LoadRecords(w: World, policy: Policy, records: seq<SourceRecord>)
    returns (r: Result<(map<Json, SourceRecord>, seq<CheckId>), Unavailable>)
    ensures r.Ok? <==> RecordsUsable(w, records)
    ensures r.Ok? ==> r.value.0 == ByKey(RecordSource, records) && r.value.0.Keys == SourceIds(records, |records|)
    ensures r.Ok? ==> (r.value.1 == [] <==> forall i :: 0 <= i < |records| ==> Intact(w, policy, records[i]))
  {
    hide WellFormed, Loads, Intact, SourceIds, DocumentIds, DistinctIdentities, ByKey, NonEmptyText;
    NoIds(records);
    assert ByKey(RecordSource, records[..0]) == map[] by { NoRecords(records); }
    var bySource: map<Json, SourceRecord>, byDocument: set<Json>, findings: seq<CheckId> := map[], {}, [];
    for i := 0 to |records|
      invariant forall k :: 0 <= k < i ==> WellFormed(w, records[k]) && Loads(w, records[k])
      invariant DistinctIdentities(records, i)
      invariant bySource == ByKey(RecordSource, records[..i]) && bySource.Keys == SourceIds(records, i)
      invariant byDocument == DocumentIds(records, i)
      invariant findings == [] <==> forall k :: 0 <= k < i ==> Intact(w, policy, records[k])
    {
      var record := records[i];
      if !NonEmptyText(record.sourceId) || record.sourceId in bySource
         || !NonEmptyText(record.documentId) || record.documentId in byDocument {
        RefusedIdentity(w, records, i);
        return Err(Unavailable);
      }
      if !WellFormed(w, record) || !Loads(w, record) {
        return Err(Unavailable);
      }
      if !Intact(w, policy, record) {
        findings := findings + [Rag002];
      }
      DistinctStep(records, i);
      IdsStep(records, i);
      IndexStep(records, i);
      bySource, byDocument := bySource[record.sourceId := record], byDocument + {record.documentId};
    }
    assert records[..|records|] == records;
    return Ok((bySource, findings));
  }

  lemma IndexStep(records: seq<SourceRecord>, i: nat)
    requires i < |records| && NonEmptyText(records[i].sourceId)
    ensures ByKey(RecordSource, records[..i + 1]) == ByKey(RecordSource, records[..i])[records[i].sourceId := records[i]]
  {
    ByKeySlice(RecordSource, records, i);
  }

  method CheckRegistry(w: World, policy: Policy, registry: Registry, asOf: int)
    returns (r: Result<(map<Json, SourceRecord>, seq<CheckId>), Unavailable>)
    ensures r.Ok? <==> RegistryUsable(w, policy, registry, asOf)
    ensures r.Ok? ==> r.value.0 == ByKey(RecordSource, registry.records)
    ensures r.Ok? ==> (r.value.1 == [] <==> RegistryClean(w, policy, registry))
  {
    hide RegistryHeader, WellFormed, Loads, Intact, SourceIds, DistinctIdentities, ByKey;
    if !RegistryHeader(w, policy, registry, asOf) {
      return Err(Unavailable);
    }
    r := LoadRecords(w, policy, registry.records);
    if r.Ok? && r.value.0.Keys != (set s | s in SOURCES :: Str(s)) {
      return Err(Unavailable);
    }
  }

  // ---------------------------------------------------------------- ingestion

  predicate Contains(content: Bytes, part: Bytes) {
    exists i :: 0 <= i <= |content| && part <= content[i..]
  }

  predicate Poisoned(w: World, policy: Policy, content: Option<Bytes>) {
    content.Some? && Contains(content.value, w.encode(policy.marker))
  }

  /** Tenant, license and use are approved. */
  predicate Licensed(policy: Policy, r: SourceRecord) {
    && (exists i :: 0 <= i < |policy.acceptedTenants| && Same(policy.acceptedTenants[i], r.tenantId))
    && r.licenseExpression != Null && r.licenseExpression != Str("UNKNOWN")
    && r.useAuthorization != Null && r.useAuthorization != Str("NONE") && r.useAuthorization != Str("REVOKED")
  }

  predicate Unexpired(w: World, r: SourceRecord, asOf: int) {
    w.time(r.authorizationExpiresAt).Some? && w.time(r.authorizationExpiresAt).value > asOf
  }

  datatype Expected = Expected(decision: string, injected: bool, unauthorized: bool, findings: Json)

  function Reasons(e: Expected): Json {
    Arr((if e.decision == "DELETED" then [Str("SOURCE_REVOKED")] else [])
        + (if e.injected then [Str("PROMPT_INJECTION")] else [])
        + (if e.unauthorized then [Str("SOURCE_NOT_AUTHORIZED")] else []))
  }

  function ExpectedIngestion(w: World, policy: Policy, r: SourceRecord, asOf: int): Result<Expected, Unavailable> {
    if r.status == Str("REVOKED") then Ok(Expected("DELETED", false, false, Arr([])))
    else if r.status == Str("ACTIVE") && w.time(r.authorizationExpiresAt).None? then Err(Unavailable)
    else
      var injected := Poisoned(w, policy, Content(w, r));
      var authorized := r.status == Str("ACTIVE") && Unexpired(w, r, asOf) && Licensed(policy, r);
      Ok(Expected(if injected || !authorized then "REJECTED" else "INDEXED", injected, !authorized,
                  if injected then Arr([Str("RAG-POISON-001")]) else Arr([])))
  }

  predicate IngestionHeader(w: World, policy: Policy, registry: Registry, ingestion: Ingestion, verifierDigest: string) {
    && ingestion.schema == Str("psb-rag-ingestion-evidence/v1.0")
    && ingestion.available == YES && ingestion.complete == YES
    && ingestion.registrySha256 == Str(w.sha256(registry.raw))
    && Same(ingestion.inspector, policy.inspector)
    && Get(ingestion.inspector, "sha256") == Str(verifierDigest)
    && w.time(ingestion.evaluatedAt).Some?
  }

  function CandidateSource(c: Candidate): Json { c.sourceId }

  /** Evidence for a record can be judged. */
  predicate Judgeable(w: World, policy: Policy, r: SourceRecord, c: Candidate, asOf: int) {
    && c.scannerAvailable == YES && c.scannerComplete == YES
    && ExpectedIngestion(w, policy, r, asOf).Ok?
  }

  /** No finding against the candidate. A rejection nobody expected is not a finding. */
  predicate CandidateClean(w: World, policy: Policy, r: SourceRecord, c: Candidate, asOf: int)
    requires ExpectedIngestion(w, policy, r, asOf).Ok?
  {
    var e := ExpectedIngestion(w, policy, r, asOf).value;
    && Same(c.documentId, r.documentId) && Same(c.contentSha256, r.contentSha256)
    && Same(c.findingIds, e.findings)
    && (e.decision != "INDEXED" ==> c.decision == Str(e.decision) && Same(c.reasons, Reasons(e)))
  }

  function CandidateFor(ingestion: Ingestion, r: SourceRecord): Candidate
    requires r.sourceId in ByKey(CandidateSource, ingestion.candidates)
  {
    ByKey(CandidateSource, ingestion.candidates)[r.sourceId]
  }

  predicate IngestionUsable(w: World, policy: Policy, registry: Registry, ingestion: Ingestion, asOf: int,
                            verifierDigest: string)
  {
    && IngestionHeader(w, policy, registry, ingestion, verifierDigest)
    && ByKey(CandidateSource, ingestion.candidates).Keys == SourceIds(registry.records, |registry.records|)
    && |ingestion.candidates| == |registry.records|
    && forall i :: 0 <= i < |registry.records| ==>
         && registry.records[i].sourceId in ByKey(CandidateSource, ingestion.candidates)
         && Judgeable(w, policy, registry.records[i], CandidateFor(ingestion, registry.records[i]), asOf)
  }

  predicate IngestionClean(w: World, policy: Policy, registry: Registry, ingestion: Ingestion, asOf: int,
                           verifierDigest: string)
    requires IngestionUsable(w, policy, registry, ingestion, asOf, verifierDigest)
  {
    && (forall i :: 0 <= i < |registry.records| ==>
         CandidateClean(w, policy, registry.records[i], CandidateFor(ingestion, registry.records[i]), asOf))
    && ingestion.liveConnectors == NOT_CHECKED
  }

  predicate ClaimsIndexed(ingestion: Ingestion, r: SourceRecord) {
    && r.sourceId in ByKey(CandidateSource, ingestion.candidates)
    && CandidateFor(ingestion, r).decision == Str("INDEXED")
  }

  /** The sources whose candidate claims to be indexed. */
  function Indexed(registry: Registry, ingestion: Ingestion): set<Json> {
    set i | 0 <= i < |registry.records| && ClaimsIndexed(ingestion, registry.records[i]) :: registry.records[i].sourceId
  }

  method CandidateFindings(w: World, policy: Policy, record: SourceRecord, candidate: Candidate, asOf: int, e: Expected)
    returns (found: seq<CheckId>)
    requires ExpectedIngestion(w, policy, record, asOf) == Ok(e)
    ensures found == [] <==> CandidateClean(w, policy, record, candidate, asOf)
  {
    found := [];
    if !Same(candidate.documentId, record.documentId) || !Same(candidate.contentSha256, record.contentSha256) {
      found := found + [Rag002];
    }
    if !Same(candidate.findingIds, e.findings) {
      found := found + [Rag003];
    }
    if candidate.decision != Str(e.decision) || !Same(candidate.reasons, Reasons(e)) {
      if e.injected {
        found := found + [Rag003];
      }
      if e.unauthorized {
        found := found + [Rag001];
      }
      if e.decision == "DELETED" {
        found := found + [Rag008];
      }
    }
  }

  method CheckIngestion(w: World, policy: Policy, registry: Registry, ingestion: Ingestion, asOf: int,
                        verifierDigest: string)
    returns (r: Result<(set<Json>, seq<CheckId>), Unavailable>)
    ensures r.Ok? <==> IngestionUsable(w, policy, registry, ingestion, asOf, verifierDigest)
    ensures r.Ok? ==> r.value.0 == Indexed(registry, ingestion)
    ensures r.Ok? ==> (r.value.1 == [] <==> IngestionClean(w, policy, registry, ingestion, asOf, verifierDigest))
  {
    hide ByKey, ExpectedIngestion, CandidateClean, IngestionHeader, SourceIds;
    if !IngestionHeader(w, policy, registry, ingestion, verifierDigest) {
      return Err(Unavailable);
    }
    var records, bySource := registry.records, ByKey(CandidateSource, ingestion.candidates);
    if bySource.Keys != SourceIds(records, |records|) || |ingestion.candidates| != |records| {
      return Err(Unavailable);
    }
    AllIds(records);
    var findings: seq<CheckId>, indexed: set<Json> := [], {};
    for i := 0 to |records|
      invariant forall k :: 0 <= k < i ==> Judgeable(w, policy, records[k], CandidateFor(ingestion, records[k]), asOf)
      invariant findings == [] <==> forall k :: 0 <= k < i ==>
                  CandidateClean(w, policy, records[k], CandidateFor(ingestion, records[k]), asOf)
      invariant indexed == set k | 0 <= k < i && ClaimsIndexed(ingestion, records[k]) :: records[k].sourceId
    {
      var record := records[i];
      var candidate := bySource[record.sourceId];
      if candidate.scannerAvailable != YES || candidate.scannerComplete != YES {
        return Err(Unavailable);
      }
      var expected := ExpectedIngestion(w, policy, record, asOf);
      if expected.Err? {
        return Err(Unavailable);
      }
      var found := CandidateFindings(w, policy, record, candidate, asOf, expected.value);
      findings := findings + found;
      if candidate.decision == Str("INDEXED") {
        indexed := indexed + {record.sourceId};
      }
    }
    if ingestion.liveConnectors != NOT_CHECKED {
      findings := findings + [Rag010];
    }
    return Ok((indexed, findings));
  }

  /** A clean ingestion indexes only active, unexpired, licensed, unpoisoned sources. */
  lemma IndexedIsAdmitted(w: World, policy: Policy, r: SourceRecord, c: Candidate, asOf: int)
    requires Judgeable(w, policy, r, c, asOf) && CandidateClean(w, policy, r, c, asOf)
    requires c.decision == Str("INDEXED")
    ensures r.status == Str("ACTIVE") && Unexpired(w, r, asOf) && Licensed(policy, r)
    ensures !Poisoned(w, policy, Content(w, r))
  {
    var e := ExpectedIngestion(w, policy, r, asOf).value;
    assert e.decision != "INDEXED" ==> c.decision == Str(e.decision);
  }

  // ---------------------------------------------------------------- snapshot

  predicate SnapshotHeader(w: World, registry: Registry, ingestion: Ingestion, snapshot: Snapshot) {
    && snapshot.schema == Str("psb-rag-corpus-snapshot/v1.0")
    && snapshot.registrySha256 == Str(w.sha256(registry.raw))
    && snapshot.ingestionSha256 == Str(w.sha256(ingestion.raw))
  }

  function EntryChunk(e: ChunkEntry): Json { e.chunkId }

  /** Chunk identities are text and pairwise different, and sources can be collected in a set. */
  ghost predicate SnapshotUsable(w: World, registry: Registry, ingestion: Ingestion, snapshot: Snapshot) {
    && SnapshotHeader(w, registry, ingestion, snapshot)
    && Identified(EntryChunk, snapshot.entries)
    && forall i :: 0 <= i < |snapshot.entries| ==> Hashable(snapshot.entries[i].sourceId)
  }

  function EmbeddingBinding(w: World, model: string, chunk: string): Json {
    Str(w.sha256(w.encode(model + ":" + chunk)))
  }

  /** The entry is the one chunk of this record, with the record's scope. */
  predicate EntryMatches(w: World, policy: Policy, snapshot: Snapshot, r: SourceRecord, e: ChunkEntry) {
    && Content(w, r).Some? && r.documentId.Str?
    && var digest := w.sha256(Content(w, r).value);
    && e.chunkId == Str("CHK-" + r.documentId.s + "-001")
    && e.documentId == r.documentId
    && Same(e.sourceRevision, r.sourceRevision)
    && Same(e.chunkIndex, Num(0))
    && e.chunkSha256 == Str(digest)
    && e.embeddingBinding == EmbeddingBinding(w, policy.embeddingSha256, digest)
    && Same(e.tenantId, r.tenantId) && Same(e.classification, r.classification) && Same(snapshot.tenantId, r.tenantId)
  }

  predicate EntryClean(w: World, policy: Policy, bySource: map<Json, SourceRecord>, snapshot: Snapshot, e: ChunkEntry) {
    e.sourceId in bySource && EntryMatches(w, policy, snapshot, bySource[e.sourceId], e)
  }

  function ActiveSources(bySource: map<Json, SourceRecord>, indexed: set<Json>): set<Json> {
    set s | s in indexed && s in bySource && bySource[s].status == Str("ACTIVE")
  }

  predicate SnapshotClean(w: World, policy: Policy, bySource: map<Json, SourceRecord>, indexed: set<Json>,
                          snapshot: Snapshot)
  {
    && Same(snapshot.embeddingModel, policy.embeddingModel)
    && EntrySources(snapshot.entries) == ActiveSources(bySource, indexed)
    && |snapshot.entries| == |ActiveSources(bySource, indexed)|
    && (forall i :: 0 <= i < |snapshot.entries| ==> EntryClean(w, policy, bySource, snapshot, snapshot.entries[i]))
    && snapshot.liveDatabase == NOT_CHECKED
  }

  function EntrySources(entries: seq<ChunkEntry>): set<Json> {
    set i | 0 <= i < |entries| :: entries[i].sourceId
  }

  method EntryFindings(w: World, policy: Policy, bySource: map<Json, SourceRecord>, snapshot: Snapshot, entry: ChunkEntry)
    returns (found: seq<CheckId>)
    requires forall s :: s in bySource ==> bySource[s].documentId.Str? && bySource[s].contentSha256.Str?
    ensures found == [] <==> EntryClean(w, policy, bySource, snapshot, entry)
  {
    hide Same;
    if entry.sourceId !in bySource || Content(w, bySource[entry.sourceId]).None? {
      return [Rag002];
    }
    var record := bySource[entry.sourceId];
    var digest := w.sha256(Content(w, record).value);
    found := [];
    if || entry.chunkId != Str("CHK-" + record.documentId.s + "-001")
       || entry.documentId != record.documentId
       || !Same(entry.sourceRevision, record.sourceRevision)
       || !Same(entry.chunkIndex, Num(0))
       || entry.chunkSha256 != Str(digest)
       || entry.embeddingBinding != EmbeddingBinding(w, policy.embeddingSha256, digest)
    {
      found := found + [Rag002];
    }
    if || !Same(entry.tenantId, record.tenantId)
       || !Same(entry.classification, record.classification)
       || !Same(snapshot.tenantId, record.tenantId)
    {
      found := found + [Rag005];
    }
  }

  method CheckSnapshot(w: World, policy: Policy, registry: Registry, ingestion: Ingestion, snapshot: Snapshot,
                       bySource: map<Json, SourceRecord>, indexed: set<Json>)
    returns (r: Result<(map<Json, ChunkEntry>, seq<CheckId>), Unavailable>)
    requires forall s :: s in bySource ==> bySource[s].documentId.Str? && bySource[s].contentSha256.Str?
    ensures r.Ok? <==> SnapshotUsable(w, registry, ingestion, snapshot)
    ensures r.Ok? ==> r.value.0 == ByKey(EntryChunk, snapshot.entries)
    ensures r.Ok? ==> (r.value.1 == [] <==> SnapshotClean(w, policy, bySource, indexed, snapshot))
  {
    hide ByKey, Same, EntryClean, Identified, SnapshotHeader, ActiveSources, EntrySources;
    if !SnapshotHeader(w, registry, ingestion, snapshot) {
      return Err(Unavailable);
    }
    var entries := snapshot.entries;
    var byChunk := ByKey(EntryChunk, entries);
    ByKeyCount(EntryChunk, entries);
    if |byChunk| != |entries| || exists i :: 0 <= i < |entries| && !Hashable(entries[i].sourceId) {
      return Err(Unavailable);
    }
    var findings: seq<CheckId> := [];
    if !Same(snapshot.embeddingModel, policy.embeddingModel) {
      findings := findings + [Rag004];
    }
    var expectedSources := ActiveSources(bySource, indexed);
    if EntrySources(entries) != expectedSources || |entries| != |expectedSources| {
      findings := findings + [Rag002];
    }
    ghost var before := findings;
    for i := 0 to |entries|
      invariant findings == [] <==> before == [] && forall k :: 0 <= k < i ==> EntryClean(w, policy, bySource, snapshot, entries[k])
    {
      var found := EntryFindings(w, policy, bySource, snapshot, entries[i]);
      findings := findings + found;
    }
    if snapshot.liveDatabase != NOT_CHECKED {
      findings := findings + [Rag010];
    }
    return Ok((byChunk, findings));
  }
}
