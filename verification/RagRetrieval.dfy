// Retrieval and deletion evidence, the whole evaluation, and its end-to-end meaning.
module RagRetrieval {
  import opened Wrappers
  import opened Json
  import opened Keyed
  import opened RagCorpus

  // ---------------------------------------------------------------- retrieval

  function RunQuery(r: Run): Json { r.queryId }
  function PrincipalId(p: Principal): Json { p.principalId }

  function Runs(retrieval: Retrieval): map<Json, Run> { ByKey(RunQuery, retrieval.runs) }
  function Principals(policy: Policy): map<Json, Principal> { ByKey(PrincipalId, policy.principals) }

  /** `classification_ranks.get(value, absent)`. */
  function Rank(classification: Json, absent: int): int {
    if classification == Str("public") then 0
    else if classification == Str("internal") then 1
    else if classification == Str("restricted") then 2
    else absent
  }

  /** Truth of a value in a Python condition. */
  predicate Truthy(j: Json) {
    match j
    case Null => false
    case Bool(b) => b
    case Num(n) => n != 0
    case Str(s) => s != ""
    case Arr(items) => items != []
    case Obj(fields) => fields != map[]
  }

  function HitIds(results: seq<Hit>): Json {
    Arr(seq(|results|, i requires 0 <= i < |results| => results[i].chunkId))
  }

  predicate RetrievalHeader(w: World, snapshot: Snapshot, retrieval: Retrieval) {
    && retrieval.schema == Str("psb-rag-retrieval-evidence/v1.0")
    && retrieval.available == YES && retrieval.complete == YES
    && retrieval.snapshotSha256 == Str(w.sha256(snapshot.raw))
  }

  /** Looking the hit up and ranking it raises no exception. */
  predicate HitUsable(chunks: map<Json, ChunkEntry>, principal: Principal, hit: Hit) {
    && Hashable(hit.chunkId)
    && (hit.chunkId in chunks && Same(hit.tenantId, principal.tenantId) ==>
         Hashable(hit.classification) && Hashable(principal.maximumClassification))
  }

  predicate Traced(w: World, policy: Policy, snapshot: Snapshot, chunk: ChunkEntry, hit: Hit) {
    && Same(hit.documentId, chunk.documentId) && Same(hit.sourceId, chunk.sourceId)
    && Same(hit.sourceRevision, chunk.sourceRevision) && Same(hit.chunkSha256, chunk.chunkSha256)
    && Same(hit.tenantId, chunk.tenantId) && Same(hit.classification, chunk.classification)
    && hit.snapshotSha256 == Str(w.sha256(snapshot.raw))
    && hit.embeddingSha256 == Str(policy.embeddingSha256)
  }

  predicate Cleared(principal: Principal, hit: Hit) {
    && Same(hit.tenantId, principal.tenantId)
    && Rank(hit.classification, 999) <= Rank(principal.maximumClassification, -1)
  }

  predicate HitClean(w: World, policy: Policy, snapshot: Snapshot, chunks: map<Json, ChunkEntry>, principal: Principal,
                     hit: Hit)
  {
    && hit.chunkId in chunks
    && Traced(w, policy, snapshot, chunks[hit.chunkId], hit)
    && Cleared(principal, hit)
  }

  predicate RunMatches(scenario: Scenario, principal: Principal, run: Run)
    requires run.results.Some?
  {
    && Same(run.querySha256, scenario.querySha256) && Same(run.principalId, scenario.principalId)
    && Same(run.tenantId, principal.tenantId) && Same(run.maximumClassification, principal.maximumClassification)
    && run.decision == Str(if Truthy(scenario.expectedChunkIds) then "ALLOW" else "DENY")
    && Same(HitIds(run.results.value), scenario.expectedChunkIds)
  }

  predicate ScenarioUsable(policy: Policy, retrieval: Retrieval, chunks: map<Json, ChunkEntry>, s: Scenario) {
    && s.queryId in Runs(retrieval)
    && s.principalId in Principals(policy)
    && var run := Runs(retrieval)[s.queryId];
       && run.results.Some?
       && forall i :: 0 <= i < |run.results.value| ==>
            HitUsable(chunks, Principals(policy)[s.principalId], run.results.value[i])
  }

  predicate ScenarioClean(w: World, policy: Policy, snapshot: Snapshot, retrieval: Retrieval,
                          chunks: map<Json, ChunkEntry>, s: Scenario)
    requires ScenarioUsable(policy, retrieval, chunks, s)
  {
    var run, principal := Runs(retrieval)[s.queryId], Principals(policy)[s.principalId];
    && RunMatches(s, principal, run)
    && forall i :: 0 <= i < |run.results.value| ==> HitClean(w, policy, snapshot, chunks, principal, run.results.value[i])
  }

  function QueryIds(scenarios: seq<Scenario>): set<Json> {
    set i | 0 <= i < |scenarios| :: scenarios[i].queryId
  }

  ghost predicate RetrievalUsable(w: World, policy: Policy, snapshot: Snapshot, retrieval: Retrieval,
                                  chunks: map<Json, ChunkEntry>)
  {
    && RetrievalHeader(w, snapshot, retrieval)
    && policy.Listed()
    && Identified(RunQuery, retrieval.runs)
    && Runs(retrieval).Keys == QueryIds(policy.scenarios)
    && Identified(PrincipalId, policy.principals)
    && forall i :: 0 <= i < |policy.scenarios| ==> ScenarioUsable(policy, retrieval, chunks, policy.scenarios[i])
  }

  ghost predicate RetrievalClean(w: World, policy: Policy, snapshot: Snapshot, retrieval: Retrieval,
                                 chunks: map<Json, ChunkEntry>)
    requires RetrievalUsable(w, policy, snapshot, retrieval, chunks)
  {
    && (forall i :: 0 <= i < |policy.scenarios| ==>
         ScenarioClean(w, policy, snapshot, retrieval, chunks, policy.scenarios[i]))
    && retrieval.liveEmbedding == NOT_CHECKED
  }

  method HitFindings(w: World, policy: Policy, snapshot: Snapshot, chunks: map<Json, ChunkEntry>, principal: Principal,
                     hit: Hit)
    returns (r: Result<seq<CheckId>, Unavailable>)
    ensures r.Ok? <==> HitUsable(chunks, principal, hit)
    ensures r.Ok? ==> (r.value == [] <==> HitClean(w, policy, snapshot, chunks, principal, hit))
  {
    hide Same, Traced, Rank;
    if !Hashable(hit.chunkId) {
      return Err(Unavailable);
    }
    if hit.chunkId !in chunks {
      return Ok([Rag007]);
    }
    var found: seq<CheckId> := [];
    if !Traced(w, policy, snapshot, chunks[hit.chunkId], hit) {
      found := found + [Rag007];
    }
    if !Same(hit.tenantId, principal.tenantId) {
      return Ok(found + [Rag006]);
    }
    if !Hashable(hit.classification) || !Hashable(principal.maximumClassification) {
      return Err(Unavailable);
    }
    if Rank(hit.classification, 999) > Rank(principal.maximumClassification, -1) {
      found := found + [Rag006];
    }
    return Ok(found);
  }

  method ScenarioFindings(w: World, policy: Policy, snapshot: Snapshot, retrieval: Retrieval,
                          chunks: map<Json, ChunkEntry>, scenario: Scenario)
    returns (r: Result<seq<CheckId>, Unavailable>)
    requires scenario.queryId in Runs(retrieval)
    ensures r.Ok? <==> ScenarioUsable(policy, retrieval, chunks, scenario)
    ensures r.Ok? ==> (r.value == [] <==> ScenarioClean(w, policy, snapshot, retrieval, chunks, scenario))
  {
    hide Runs, Principals, RunMatches, HitUsable, HitClean;
    var run := Runs(retrieval)[scenario.queryId];
    if scenario.principalId !in Principals(policy) {
      return Err(Unavailable);
    }
    var principal := Principals(policy)[scenario.principalId];
    if run.results.None? {
      return Err(Unavailable);
    }
    var findings: seq<CheckId> := [];
    if !RunMatches(scenario, principal, run) {
      findings := findings + [Rag006];
    }
    var results := run.results.value;
    ghost var before := findings;
    for i := 0 to |results|
      invariant forall k :: 0 <= k < i ==> HitUsable(chunks, principal, results[k])
      invariant findings == [] <==>
                  before == [] && forall k :: 0 <= k < i ==> HitClean(w, policy, snapshot, chunks, principal, results[k])
    {
      var found := HitFindings(w, policy, snapshot, chunks, principal, results[i]);
      if found.Err? {
        return Err(Unavailable);
      }
      findings := findings + found.value;
    }
    return Ok(findings);
  }

  method CheckRetrieval(w: World, policy: Policy, snapshot: Snapshot, retrieval: Retrieval, chunks: map<Json, ChunkEntry>)
    returns (r: Result<seq<CheckId>, Unavailable>)
    ensures r.Ok? <==> RetrievalUsable(w, policy, snapshot, retrieval, chunks)
    ensures r.Ok? ==> (r.value == [] <==> RetrievalClean(w, policy, snapshot, retrieval, chunks))
  {
    hide ScenarioUsable, ScenarioClean, RetrievalHeader, Identified, ByKey, QueryIds, ListOfObjects, PrincipalsIn,
         ScenariosIn, ItemsOf, Get;
    if !RetrievalHeader(w, snapshot, retrieval) || !policy.Listed() {
      return Err(Unavailable);
    }
    var scenarios := policy.scenarios;
    ByKeyCount(RunQuery, retrieval.runs);
    if |Runs(retrieval)| != |retrieval.runs| || Runs(retrieval).Keys != QueryIds(scenarios) {
      return Err(Unavailable);
    }
    ByKeyCount(PrincipalId, policy.principals);
    if |Principals(policy)| != |policy.principals| {
      return Err(Unavailable);
    }
    AllQueries(scenarios);
    var findings: seq<CheckId> := [];
    for i := 0 to |scenarios|
      invariant forall k :: 0 <= k < i ==> ScenarioUsable(policy, retrieval, chunks, scenarios[k])
      invariant findings == [] <==>
                  forall k :: 0 <= k < i ==> ScenarioClean(w, policy, snapshot, retrieval, chunks, scenarios[k])
    {
      var found := ScenarioFindings(w, policy, snapshot, retrieval, chunks, scenarios[i]);
      if found.Err? {
        return Err(Unavailable);
      }
      findings := findings + found.value;
    }
    if retrieval.liveEmbedding != NOT_CHECKED {
      findings := findings + [Rag010];
    }
    return Ok(findings);
  }

  lemma AllQueries(scenarios: seq<Scenario>)
    ensures forall i :: 0 <= i < |scenarios| ==> scenarios[i].queryId in QueryIds(scenarios)
  {
  }

  // ---------------------------------------------------------------- deletion

  /** What iterating over a JSON value yields, where order matters: list items, or the characters of a text. */
  function Iterated(j: Json): Option<seq<Json>> {
    match j
    case Arr(items) => Some(items)
    case Str(s) => Some(seq(|s|, i requires 0 <= i < |s| => Str([s[i]])))
    case _ => None
  }

  /** `any(chunk_id in chunks for chunk_id in items)`. */
  function AnyIndexed(items: seq<Json>, chunks: map<Json, ChunkEntry>): Result<bool, Unavailable> {
    if items == [] then Ok(false)
    else if !Hashable(items[0]) then Err(Unavailable)
    else if items[0] in chunks then Ok(true)
    else AnyIndexed(items[1..], chunks)
  }

  predicate DeletionHeader(w: World, policy: Policy, snapshot: Snapshot, bySource: map<Json, SourceRecord>,
                           deletion: Deletion)
  {
    && deletion.schema == Str("psb-rag-deletion-evidence/v1.0")
    && deletion.available == YES && deletion.complete == YES
    && deletion.snapshotSha256 == Str(w.sha256(snapshot.raw))
    && policy.deletionSource in bySource && bySource[policy.deletionSource].status == Str("REVOKED")
    && deletion.tombstone.Obj?
    && w.time(bySource[policy.deletionSource].revokedAt).Some? && w.time(deletion.deletedAt).Some?
    && w.resolve(bySource[policy.deletionSource].contentPath).Some?
  }

  /** The part of the condition that Python evaluates before the retired chunks. */
  predicate DeletedInTime(w: World, policy: Policy, r: SourceRecord, deletion: Deletion)
    requires w.time(r.revokedAt).Some? && w.time(deletion.deletedAt).Some?
  {
    var revoked, deleted := w.time(r.revokedAt).value, w.time(deletion.deletedAt).value;
    && Same(deletion.sourceId, policy.deletionSource) && Same(deletion.documentId, policy.deletionDocument)
    && revoked <= deleted <= revoked + policy.maximumPropagation
    && Same(deletion.removedChunkIds, r.retiredChunkIds)
  }

  predicate Tombstoned(w: World, policy: Policy, r: SourceRecord, deletion: Deletion)
    requires w.resolve(r.contentPath).Some?
  {
    && !w.exists_(w.resolve(r.contentPath).value)
    && Same(deletion.indexLookup, policy.requiredIndexState)
    && Same(deletion.probeDecision, policy.requiredRetrievalDecision)
    && deletion.probeResults == Arr([])
    && Same(Get(deletion.tombstone, "source_id"), policy.deletionSource)
    && Same(Get(deletion.tombstone, "document_id"), r.documentId)
    && Same(Get(deletion.tombstone, "content_sha256"), r.contentSha256)
    && Same(Get(deletion.tombstone, "revoked_at"), r.revokedAt)
    && Same(Get(deletion.tombstone, "deleted_at"), deletion.deletedAt)
    && deletion.liveReplication == NOT_CHECKED
  }

  /** The same over any value: an object yields its keys, and what cannot be iterated raises. */
  function RetiredIndexed(retired: Json, chunks: map<Json, ChunkEntry>): Result<bool, Unavailable> {
    if Iterated(retired).Some? then AnyIndexed(Iterated(retired).value, chunks)
    else if retired.Obj? then Ok(exists k :: k in retired.fields && Str(k) in chunks)
    else Err(Unavailable)
  }

  function DeletionFindings(w: World, policy: Policy, snapshot: Snapshot, chunks: map<Json, ChunkEntry>,
                            bySource: map<Json, SourceRecord>, deletion: Deletion): Result<seq<CheckId>, Unavailable>
  {
    if !DeletionHeader(w, policy, snapshot, bySource, deletion) then Err(Unavailable)
    else
      var record := bySource[policy.deletionSource];
      if !DeletedInTime(w, policy, record, deletion) then Ok([Rag008])
      else match RetiredIndexed(record.retiredChunkIds, chunks)
        case Err(_) => Err(Unavailable)
        case Ok(indexed) =>
          if indexed || !Tombstoned(w, policy, record, deletion) then Ok([Rag008]) else Ok([])
  }

  method CheckDeletion(w: World, policy: Policy, snapshot: Snapshot, chunks: map<Json, ChunkEntry>,
                       bySource: map<Json, SourceRecord>, deletion: Deletion)
    returns (r: Result<seq<CheckId>, Unavailable>)
    ensures r == DeletionFindings(w, policy, snapshot, chunks, bySource, deletion)
  {
    hide Same, DeletionHeader, DeletedInTime, Tombstoned;
    if !DeletionHeader(w, policy, snapshot, bySource, deletion) {
      return Err(Unavailable);
    }
    HeaderFacts(w, policy, snapshot, bySource, deletion);
    var record := bySource[policy.deletionSource];
    if !DeletedInTime(w, policy, record, deletion) {
      return Ok([Rag008]);
    }
    var found := RetiredAmong(record.retiredChunkIds, chunks);
    if found.Err? {
      return Err(Unavailable);
    }
    if found.value || !Tombstoned(w, policy, record, deletion) {
      return Ok([Rag008]);
    }
    return Ok([]);
  }

  /** The `any` of the condition, item by item. */
  method RetiredAmong(retired: Json, chunks: map<Json, ChunkEntry>) returns (r: Result<bool, Unavailable>)
    ensures r == RetiredIndexed(retired, chunks)
  {
    if retired.Obj? {
      return Ok(exists k :: k in retired.fields && Str(k) in chunks);
    }
    if Iterated(retired).None? {
      return Err(Unavailable);
    }
    var items := Iterated(retired).value;
    for i := 0 to |items|
      invariant AnyIndexed(items, chunks) == AnyIndexed(items[i..], chunks)
    {
      assert items[i..][1..] == items[i + 1..];
      if !Hashable(items[i]) {
        return Err(Unavailable);
      }
      if items[i] in chunks {
        return Ok(true);
      }
    }
    return Ok(false);
  }

  // What the condition means, without its order of evaluation.

  /** The identifiers a `retired_chunk_ids` value stands for. */
  predicate Retires(retired: Json, id: Json) {
    match retired
    case Arr(items) => id in items
    case Str(s) => id.Str? && |id.s| == 1 && id.s[0] in s
    case Obj(fields) => id.Str? && id.s in fields
    case _ => false
  }

  predicate Iterable(retired: Json) { retired.Arr? || retired.Str? || retired.Obj? }

  lemma {:induction false} AnyIndexedFalse(items: seq<Json>, chunks: map<Json, ChunkEntry>)
    ensures AnyIndexed(items, chunks) == Ok(false) <==> forall i :: 0 <= i < |items| ==> Hashable(items[i]) && items[i] !in chunks
  {
    if items != [] {
      AnyIndexedFalse(items[1..], chunks);
      assert forall i :: 1 <= i < |items| ==> items[i] == items[1..][i - 1];
    }
  }

  lemma NoneRetiredIndexed(retired: Json, chunks: map<Json, ChunkEntry>)
    ensures RetiredIndexed(retired, chunks) == Ok(false)
            <==> Iterable(retired) && forall id :: Retires(retired, id) ==> Hashable(id) && id !in chunks
  {
    if Iterated(retired).Some? {
      var items := Iterated(retired).value;
      AnyIndexedFalse(items, chunks);
      forall id ensures Retires(retired, id) <==> id in items {
        if retired.Str? && Retires(retired, id) {
          var k :| 0 <= k < |retired.s| && retired.s[k] == id.s[0];
          assert id.s == [retired.s[k]] && items[k] == id;
        }
      }
    } else if retired.Obj? {
      forall k | k in retired.fields ensures Retires(retired, Str(k)) {
      }
    }
  }

  /** The deletion evidence raises no finding exactly when every one of these holds. */
  lemma DeletionAcceptedExactly(w: World, policy: Policy, snapshot: Snapshot, chunks: map<Json, ChunkEntry>,
                                bySource: map<Json, SourceRecord>, deletion: Deletion)
    ensures DeletionFindings(w, policy, snapshot, chunks, bySource, deletion) == Ok([])
            <==> DeletionHeader(w, policy, snapshot, bySource, deletion)
                 && DeletedInTime(w, policy, bySource[policy.deletionSource], deletion)
                 && Iterable(bySource[policy.deletionSource].retiredChunkIds)
                 && (forall id :: Retires(bySource[policy.deletionSource].retiredChunkIds, id) ==>
                       Hashable(id) && id !in chunks)
                 && Tombstoned(w, policy, bySource[policy.deletionSource], deletion)
  {
    hide DeletedInTime, Tombstoned, RetiredIndexed, Retires, Iterable;
    if DeletionHeader(w, policy, snapshot, bySource, deletion) {
      NoneRetiredIndexed(bySource[policy.deletionSource].retiredChunkIds, chunks);
    }
  }

  lemma HeaderFacts(w: World, policy: Policy, snapshot: Snapshot, bySource: map<Json, SourceRecord>, deletion: Deletion)
    requires DeletionHeader(w, policy, snapshot, bySource, deletion)
    ensures policy.deletionSource in bySource
    ensures var r := bySource[policy.deletionSource];
            w.time(r.revokedAt).Some? && w.time(deletion.deletedAt).Some? && w.resolve(r.contentPath).Some?
  {
  }

  // ---------------------------------------------------------------- evaluation

  /** Everything one evaluation reads. */
  datatype Case = Case(
    policy: Policy, registry: Registry, ingestion: Ingestion, snapshot: Snapshot, retrieval: Retrieval,
    deletion: Deletion, evidence: seq<Json>, asOf: int, verifierDigest: string)

  const FORBIDDEN_KEYS := {
    "chunk_content", "content", "credential", "embedding_vector", "output", "prompt", "query_text", "raw_query", "secret",
    "token"}

  /** No forbidden key at any depth; `evidence` holds the four evidence documents as they were read. */
  predicate Sanitized(w: World, j: Json) {
    match j
    case Obj(fields) => forall k :: k in fields ==> w.lower(k) !in FORBIDDEN_KEYS && Sanitized(w, fields[k])
    case Arr(items) => forall i :: 0 <= i < |items| ==> Sanitized(w, items[i])
    case _ => true
  }

  predicate PositiveInteger(j: Json) { j.Num? && j.n > 0 }

  predicate PolicySections(d: Json) {
    && Get(d, "source_registry").Obj? && Get(d, "chunking").Obj? && Get(d, "poisoning").Obj?
    && Get(d, "inspector").Obj? && Get(d, "embedding_model").Obj? && Get(d, "deletion").Obj?
    && Get(d, "evidence").Obj? && Get(d, "live_claims").Obj? && Get(d, "classification_ranks").Obj?
  }

  predicate PolicyLimits(d: Json) {
    && PositiveInteger(Get(Get(d, "source_registry"), "maximum_age_hours"))
    && PositiveInteger(Get(Get(d, "chunking"), "maximum_document_bytes"))
    && PositiveInteger(Get(Get(d, "chunking"), "maximum_chunks_per_document"))
    && PositiveInteger(Get(Get(d, "deletion"), "maximum_propagation_seconds"))
  }

  predicate PolicyBindings(w: World, d: Json, verifierDigest: string) {
    && Get(Get(d, "source_registry"), "sha256").Str? && w.sha256Text(Get(Get(d, "source_registry"), "sha256").s)
    && Get(Get(d, "inspector"), "id") == Str("psb-rag-corpus-verifier")
    && Get(Get(d, "inspector"), "version") == Str("1.0.0")
    && Get(Get(d, "inspector"), "sha256") == Str(verifierDigest)
    && Get(Get(d, "poisoning"), "upstream_control") == Str("PSB-AI-003")
    && Get(Get(d, "poisoning"), "deny_before_embedding") == Bool(true)
    && Get(Get(d, "poisoning"), "synthetic_marker").Str?
    && Get(Get(d, "embedding_model"), "upstream_control") == Str("PSB-DEPS-005")
    && Get(Get(d, "embedding_model"), "artifact_sha256").Str?
    && w.sha256Text(Get(Get(d, "embedding_model"), "artifact_sha256").s)
    && Same(Get(d, "classification_ranks"), Obj(map["public" := Num(0), "internal" := Num(1), "restricted" := Num(2)]))
  }

  predicate PolicyUsable(w: World, c: Case) {
    && Get(c.policy.document, "schema") == Str("psb-rag-corpus-policy/v1.0")
    && PolicySections(c.policy.document) && PolicyLimits(c.policy.document)
    && PolicyBindings(w, c.policy.document, c.verifierDigest)
  }

  predicate AllSanitized(w: World, evidence: seq<Json>) {
    forall i :: 0 <= i < |evidence| ==> Sanitized(w, evidence[i])
  }

  const EVIDENCE_FLAGS := {
    "include_document_content", "include_chunk_content", "include_query_text", "include_embedding_vectors",
    "include_credentials"}

  predicate PolicyClean(c: Case) {
    && (forall flag :: flag in EVIDENCE_FLAGS ==> Get(Get(c.policy.document, "evidence"), flag) == Bool(false))
    && Get(c.policy.document, "live_claims").Obj?
    && Get(c.policy.document, "live_claims").fields.Values == {NOT_CHECKED}
  }

  function Chunks(c: Case): map<Json, ChunkEntry> { ByKey(EntryChunk, c.snapshot.entries) }

  /** The records by source identity. */
  function Sources(c: Case): map<Json, SourceRecord> { ByKey(RecordSource, c.registry.records) }

  ghost predicate Usable(w: World, c: Case) {
    && PolicyUsable(w, c)
    && RegistryUsable(w, c.policy, c.registry, c.asOf)
    && AllSanitized(w, c.evidence)
    && IngestionUsable(w, c.policy, c.registry, c.ingestion, c.asOf, c.verifierDigest)
    && SnapshotUsable(w, c.registry, c.ingestion, c.snapshot)
    && RetrievalUsable(w, c.policy, c.snapshot, c.retrieval, Chunks(c))
    && DeletionFindings(w, c.policy, c.snapshot, Chunks(c), Sources(c), c.deletion).Ok?
  }

  ghost predicate Accepted(w: World, c: Case) {
    && Usable(w, c)
    && PolicyClean(c)
    && RegistryClean(w, c.policy, c.registry)
    && IngestionClean(w, c.policy, c.registry, c.ingestion, c.asOf, c.verifierDigest)
    && SnapshotClean(w, c.policy, Sources(c), Indexed(c.registry, c.ingestion), c.snapshot)
    && RetrievalClean(w, c.policy, c.snapshot, c.retrieval, Chunks(c))
    && DeletionFindings(w, c.policy, c.snapshot, Chunks(c), Sources(c), c.deletion) == Ok([])
  }

  lemma RecordsIdentified(w: World, c: Case)
    requires RegistryUsable(w, c.policy, c.registry, c.asOf)
    ensures Identified(RecordSource, c.registry.records)
  {
    forall i | 0 <= i < |c.registry.records| ensures c.registry.records[i].sourceId.Str? {
      assert WellFormed(w, c.registry.records[i]);
    }
  }

  lemma SourceOf(w: World, c: Case, r: SourceRecord)
    requires RegistryUsable(w, c.policy, c.registry, c.asOf) && r in c.registry.records
    ensures r.sourceId in Sources(c) && Sources(c)[r.sourceId] == r
  {
    hide WellFormed, Loads, ByKey;
    RecordsIdentified(w, c);
    ByKeyHolds(RecordSource, c.registry.records);
    var i :| 0 <= i < |c.registry.records| && c.registry.records[i] == r;
    assert RecordSource(c.registry.records[i]) == r.sourceId;
  }

  lemma SourcesWellFormed(w: World, c: Case)
    requires RegistryUsable(w, c.policy, c.registry, c.asOf)
    ensures forall s :: s in Sources(c) ==> Sources(c)[s].documentId.Str? && Sources(c)[s].contentSha256.Str?
  {
    hide Loads, ByKey;
    forall s | s in Sources(c) ensures WellFormed(w, Sources(c)[s]) {
      var i :| 0 <= i < |c.registry.records| && c.registry.records[i] == Sources(c)[s];
    }
  }

  /** Exit status 0 accepts, 1 quarantines, 2 means the evidence could not be evaluated. */
  method Evaluate(w: World, c: Case) returns (status: int)
    ensures status == 0 <==> Accepted(w, c)
    ensures status == 2 <==> !Usable(w, c)
    ensures status in {0, 1, 2}
  {
    hide PolicyUsable, AllSanitized, PolicyClean, RegistryUsable, RegistryClean, IngestionUsable, IngestionClean,
         SnapshotUsable, SnapshotClean, RetrievalUsable, RetrievalClean, DeletionFindings, ByKey, Indexed;
    if !PolicyUsable(w, c) {
      return 2;
    }
    var findings: seq<CheckId> := if PolicyClean(c) then [] else [Rag009];
    var registered := CheckRegistry(w, c.policy, c.registry, c.asOf);
    if registered.Err? {
      return 2;
    }
    var bySource := registered.value.0;
    assert bySource == Sources(c);
    SourcesWellFormed(w, c);
    findings := findings + registered.value.1;
    if !AllSanitized(w, c.evidence) {
      return 2;
    }
    var ingested := CheckIngestion(w, c.policy, c.registry, c.ingestion, c.asOf, c.verifierDigest);
    if ingested.Err? {
      return 2;
    }
    findings := findings + ingested.value.1;
    var indexed := CheckSnapshot(w, c.policy, c.registry, c.ingestion, c.snapshot, bySource, ingested.value.0);
    if indexed.Err? {
      return 2;
    }
    var chunks := indexed.value.0;
    findings := findings + indexed.value.1;
    var retrieved := CheckRetrieval(w, c.policy, c.snapshot, c.retrieval, chunks);
    if retrieved.Err? {
      return 2;
    }
    findings := findings + retrieved.value;
    var deleted := CheckDeletion(w, c.policy, c.snapshot, chunks, bySource, c.deletion);
    if deleted.Err? {
      return 2;
    }
    findings := findings + deleted.value;
    return if findings == [] then 0 else 1;
  }

  // ---------------------------------------------------------------- what acceptance means

  /** The record's source was admitted at evaluation time. */
  predicate Admitted(w: World, c: Case, r: SourceRecord) {
    && r.status == Str("ACTIVE")
    && Unexpired(w, r, c.asOf)
    && Licensed(c.policy, r)
    && !Poisoned(w, c.policy, Content(w, r))
    && Intact(w, c.policy, r)
  }

  /** The hit is this record's chunk, shown to a principal of its tenant and within clearance. */
  predicate Authorized(w: World, r: SourceRecord, p: Principal, hit: Hit) {
    && hit.sourceId == r.sourceId
    && Content(w, r).Some?
    && hit.chunkSha256 == r.contentSha256 == Str(w.sha256(Content(w, r).value))
    && hit.sourceRevision == r.sourceRevision
    && Same(r.tenantId, p.tenantId)
    && Rank(r.classification, 999) <= Rank(p.maximumClassification, -1)
  }

  /** An indexed source of a clean evaluation was admitted. */
  lemma IndexedAdmitted(w: World, c: Case, source: Json) returns (r: SourceRecord)
    requires Accepted(w, c) && source in Indexed(c.registry, c.ingestion)
    ensures r in c.registry.records && r.sourceId == source && Admitted(w, c, r)
    ensures WellFormed(w, r) && Loads(w, r)
  {
    hide WellFormed, Loads, Intact, CandidateClean, Judgeable, Poisoned, Unexpired, Licensed, ByKey;
    var records := c.registry.records;
    var i :| 0 <= i < |records| && ClaimsIndexed(c.ingestion, records[i]) && records[i].sourceId == source;
    r := records[i];
    IndexedIsAdmitted(w, c.policy, r, CandidateFor(c.ingestion, r), c.asOf);
  }

  /** The record behind a snapshot entry of a clean evaluation. */
  lemma EntryAdmitted(w: World, c: Case, e: ChunkEntry) returns (r: SourceRecord)
    requires Accepted(w, c) && e in c.snapshot.entries
    ensures r in c.registry.records && r.sourceId == e.sourceId && Admitted(w, c, r)
    ensures WellFormed(w, r) && Loads(w, r) && EntryMatches(w, c.policy, c.snapshot, r, e)
  {
    hide WellFormed, Loads, Admitted, EntryMatches, Indexed, Sources, RegistryUsable, IngestionUsable, IngestionClean,
         RetrievalUsable, RetrievalClean, DeletionFindings, SnapshotUsable;
    var i :| 0 <= i < |c.snapshot.entries| && c.snapshot.entries[i] == e;
    assert EntryClean(w, c.policy, Sources(c), c.snapshot, e);
    assert e.sourceId in EntrySources(c.snapshot.entries);
    r := IndexedAdmitted(w, c, e.sourceId);
    SourceOf(w, c, r);
  }

  lemma HitAuthorized(w: World, c: Case, r: SourceRecord, e: ChunkEntry, p: Principal, hit: Hit)
    requires Admitted(w, c, r) && WellFormed(w, r) && Loads(w, r)
    requires r.sourceId == e.sourceId && EntryMatches(w, c.policy, c.snapshot, r, e)
    requires Traced(w, c.policy, c.snapshot, e, hit) && Cleared(p, hit)
    ensures Authorized(w, r, p, hit)
  {
    hide Unexpired, Licensed, Poisoned;
    SameText(hit.sourceId, r.sourceId.s);
    SameText(hit.sourceRevision, r.sourceRevision.s);
    SameText(e.sourceRevision, r.sourceRevision.s);
    SameText(hit.chunkSha256, r.contentSha256.s);
    SameText(e.classification, r.classification.s);
    SameText(hit.classification, r.classification.s);
  }

  /** Every run answers a scenario of the policy, cleanly. */
  lemma RunAnswersScenario(w: World, c: Case, run: Run) returns (s: Scenario)
    requires Accepted(w, c) && run in c.retrieval.runs
    ensures ScenarioUsable(c.policy, c.retrieval, Chunks(c), s)
    ensures ScenarioClean(w, c.policy, c.snapshot, c.retrieval, Chunks(c), s)
    ensures Runs(c.retrieval)[s.queryId] == run
  {
    hide ScenarioUsable, ScenarioClean, ByKey, SnapshotClean, IngestionUsable, IngestionClean, DeletionFindings,
         RegistryUsable, RegistryClean, SnapshotUsable, Identified;
    var i :| 0 <= i < |c.retrieval.runs| && c.retrieval.runs[i] == run;
    ByKeyHolds(RunQuery, c.retrieval.runs);
    assert RunQuery(c.retrieval.runs[i]) == run.queryId;
    assert run.queryId in QueryIds(c.policy.scenarios);
    var j :| 0 <= j < |c.policy.scenarios| && c.policy.scenarios[j].queryId == run.queryId;
    s := c.policy.scenarios[j];
  }

  /**
    * Every chunk returned by any run of an accepted evaluation belongs to an admitted source and
    * went to a principal entitled to it.
    */
  lemma ReturnedChunkIsAuthorized(w: World, c: Case, run: Run, hit: Hit) returns (r: SourceRecord, p: Principal)
    requires Accepted(w, c)
    requires run in c.retrieval.runs && run.results.Some? && hit in run.results.value
    ensures r in c.registry.records && Admitted(w, c, r)
    ensures p in c.policy.principals && Same(run.principalId, p.principalId)
    ensures Authorized(w, r, p, hit)
  {
    hide Accepted, Admitted, Authorized, EntryMatches, WellFormed, Loads, Traced, Cleared, Same, ByKey, HitUsable;
    var s := RunAnswersScenario(w, c, run);
    p := Principals(c.policy)[s.principalId];
    assert p.principalId == s.principalId;
    var k :| 0 <= k < |run.results.value| && run.results.value[k] == hit;
    assert HitClean(w, c.policy, c.snapshot, Chunks(c), p, run.results.value[k]);
    var e := Chunks(c)[hit.chunkId];
    r := EntryAdmitted(w, c, e);
    HitAuthorized(w, c, r, e, p, hit);
  }

  /** No accepted evaluation ever returns a chunk of a revoked source. */
  lemma RevokedNeverReturned(w: World, c: Case, run: Run, hit: Hit, revoked: SourceRecord)
    requires Accepted(w, c)
    requires run in c.retrieval.runs && run.results.Some? && hit in run.results.value
    requires revoked in c.registry.records && revoked.status == Str("REVOKED")
    ensures hit.sourceId != revoked.sourceId
  {
    hide IngestionUsable, IngestionClean, SnapshotUsable, SnapshotClean, RetrievalUsable, RetrievalClean,
         DeletionFindings, Sources, Unexpired, Licensed, Poisoned, Intact;
    var r, p := ReturnedChunkIsAuthorized(w, c, run, hit);
    SourceOf(w, c, r);
    SourceOf(w, c, revoked);
    assert r.status != revoked.status;
  }

  // ---------------------------------------------------------------- what accepted deletion means

  /** A chunk a clean run returns is one of the snapshot's. */
  lemma HitIndexed(w: World, c: Case, run: Run, hit: Hit)
    requires Accepted(w, c)
    requires run in c.retrieval.runs && run.results.Some? && hit in run.results.value
    ensures hit.chunkId in Chunks(c)
  {
    hide ByKey, Accepted, Traced, Cleared, HitUsable, Same;
    var s := RunAnswersScenario(w, c, run);
    var k :| 0 <= k < |run.results.value| && run.results.value[k] == hit;
    assert HitClean(w, c.policy, c.snapshot, Chunks(c), Principals(c.policy)[s.principalId], run.results.value[k]);
  }

  lemma EntryIndexed(w: World, c: Case, e: ChunkEntry)
    requires SnapshotUsable(w, c.registry, c.ingestion, c.snapshot) && e in c.snapshot.entries
    ensures e.chunkId in Chunks(c)
  {
    hide SnapshotHeader;
    ByKeyHolds(EntryChunk, c.snapshot.entries);
    var i :| 0 <= i < |c.snapshot.entries| && c.snapshot.entries[i] == e;
    assert EntryChunk(c.snapshot.entries[i]) == e.chunkId;
  }

  lemma AcceptedDeletion(w: World, c: Case)
    requires Accepted(w, c)
    ensures DeletionFindings(w, c.policy, c.snapshot, Chunks(c), Sources(c), c.deletion) == Ok([])
    ensures SnapshotUsable(w, c.registry, c.ingestion, c.snapshot) && RegistryUsable(w, c.policy, c.registry, c.asOf)
  {
    hide DeletionFindings, ByKey, SnapshotUsable, RegistryUsable, IngestionUsable, IngestionClean, RetrievalUsable,
         RetrievalClean, SnapshotClean, PolicyUsable, AllSanitized;
  }

  /**
   * In an accepted evaluation the source the deletion policy names is revoked and gone: deleted after its revocation and
   * within the propagation limit, its content absent, and none of its retired chunks in the snapshot or in any result.
   */
  lemma DeletionIsComplete(w: World, c: Case) returns (r: SourceRecord)
    requires Accepted(w, c)
    ensures r in c.registry.records && r.sourceId == c.policy.deletionSource && r.status == Str("REVOKED")
    ensures w.time(r.revokedAt).Some? && w.time(c.deletion.deletedAt).Some?
    ensures w.time(r.revokedAt).value <= w.time(c.deletion.deletedAt).value
            <= w.time(r.revokedAt).value + c.policy.maximumPropagation
    ensures w.resolve(r.contentPath).Some? && !w.exists_(w.resolve(r.contentPath).value)
    ensures Same(c.deletion.removedChunkIds, r.retiredChunkIds) && Iterable(r.retiredChunkIds)
    ensures forall e, id :: e in c.snapshot.entries && Retires(r.retiredChunkIds, id) ==> e.chunkId != id
    ensures forall run, hit, id ::
              run in c.retrieval.runs && run.results.Some? && hit in run.results.value && Retires(r.retiredChunkIds, id) ==>
                hit.chunkId != id
  {
    hide ByKey, Accepted, DeletionFindings, SnapshotUsable, RegistryUsable, Same, Retires, Iterable, Chunks;
    AcceptedDeletion(w, c);
    DeletionAcceptedExactly(w, c.policy, c.snapshot, Chunks(c), Sources(c), c.deletion);
    r := Sources(c)[c.policy.deletionSource];
    forall e, id | e in c.snapshot.entries && Retires(r.retiredChunkIds, id) ensures e.chunkId != id {
      EntryIndexed(w, c, e);
    }
    forall run, hit, id |
      run in c.retrieval.runs && run.results.Some? && hit in run.results.value && Retires(r.retiredChunkIds, id)
      ensures hit.chunkId != id
    {
      HitIndexed(w, c, run, hit);
    }
  }
}
