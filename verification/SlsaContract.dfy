// The JSON contract between the SLSA Build L2 evidence adapter and the assessor: policies, issuer
// bundles and the assessment input that one program writes and the other reads.
module SlsaContract {
  import opened Wrappers
  import opened Json
  import opened Times

  /** A field that is absent reads as null; `exact` says that the object has exactly its named fields. */
  datatype Scope = Scope(
    exact: bool, producerId: Json, buildPlatformId: Json, consumerId: Json, artifactFamily: Json,
    releaseId: Json, sourceRevision: Json)

  datatype Requirement = Requirement(id: string, types: Json)

  /** The assessment policy, read by both programs. */
  datatype Policy = Policy(
    schema: Json, profileId: Json, framework: Json, version: Json, track: Json, targetLevel: Json, maximumAge: Json,
    issuers: Option<map<string, Json>>, requirements: Option<seq<Requirement>>)

  datatype TrustedBundle = TrustedBundle(
    exact: bool, issuerRole: Json, path: Json, sha256: Json, reviewedBy: Json, reviewedAt: Json)

  datatype AdapterPolicy = AdapterPolicy(
    exact: bool, schema: Json, profileId: Json, source: Json, bundleRoot: Json, scope: Option<Scope>,
    trusted: Option<seq<TrustedBundle>>)

  datatype Item = Item(
    exact: bool, code: Json, evidenceType: Json, uri: Json, sha256: Json, result: Json, immutable: Json)

  datatype Bundle = Bundle(
    exact: bool, schema: Json, profileId: Json, issuerRole: Json, scopeSha256: Json, observedAt: Json,
    evidence: Option<seq<Item>>)

  datatype Entry = Entry(
    exact: bool, code: Json, evidenceType: Json, issuerRole: Json, uri: Json, sha256: Json, scopeSha256: Json,
    observedAt: Json, result: Json, immutable: Json, authenticated: Json, reviewed: Json)

  /** The assessment input. */
  datatype Document = Document(
    exact: bool, schema: Json, source: Json, assessedAt: Json, scope: Option<Scope>, catalog: Option<seq<Entry>>)

  /** Text formats, time parsing and printing, digests, and the bundle files. */
  datatype World = World(
    code: string -> bool, sha256: string -> bool, commit: string -> bool, uri: string -> bool,
    time: Json -> Option<int>, stamp: int -> string, digest: Scope -> string,
    root: string -> bool, bundle: (string, string, string) -> Option<Bundle>)

  function Floor(t: int): int { t / SECOND * SECOND }

  /** A printed time reads back at whole seconds, and a digest is sixty-four lower-case hexadecimal digits. */
  ghost predicate Faithful(w: World) {
    && (forall t: int :: w.time(Str(w.stamp(t))) == Some(Floor(t)))
    && (forall s: Scope :: w.sha256(w.digest(s)) && w.digest(s) != "")
  }

  datatype Refused = Refused

  const YES := Bool(true)

  predicate HeaderOk(p: Policy) {
    && p.schema == Str("psb-framework-assessment-policy/v1") && p.profileId == Str("slsa-build-l2")
    && p.framework == Str("slsa") && p.version == Str("1.2") && p.track == Str("build")
    && Same(p.targetLevel, Num(2))
  }

  predicate IssuersOk(w: World, issuers: map<string, Json>) {
    forall t :: t in issuers ==> w.code(t) && NonEmptyText(issuers[t])
  }

  predicate SourceOk(source: Json) {
    source == Str("live") || source == Str("test-fixture")
  }

  predicate ResultOk(result: Json) {
    result == Str("pass") || result == Str("finding") || result == Str("error")
  }

  predicate SafeText(value: Json, format: string -> bool) {
    NonEmptyText(value) && format(value.s)
  }

  /** Both programs require the same of a scope. */
  predicate ScopeOk(w: World, scope: Option<Scope>) {
    && scope.Some? && scope.value.exact
    && SafeText(scope.value.producerId, w.uri) && SafeText(scope.value.buildPlatformId, w.uri)
    && SafeText(scope.value.consumerId, w.uri)
    && NonEmptyText(scope.value.artifactFamily) && NonEmptyText(scope.value.releaseId)
    && SafeText(scope.value.sourceRevision, w.commit)
  }

  predicate ListsTypes(r: Requirement) {
    r.types.Arr? && r.types.items != []
  }

  // ---------------------------------------------------------------- truncated times

  /**
   * Truncation to seconds never rejects fresh evidence, and accepts stale evidence in exactly two families: observed
   * later within the second of the assessment, or too old by less than a second.
   */
  lemma TruncatedFreshness(assessedAt: int, observedAt: int, maximumAge: int)
    ensures Fresh(assessedAt, observedAt, maximumAge)
            <==> Fresh(Floor(assessedAt), Floor(observedAt), maximumAge)
                 && !(Floor(assessedAt) == Floor(observedAt) && assessedAt < observedAt)
                 && !(Floor(assessedAt) - Floor(observedAt) == maximumAge * SECOND
                      && assessedAt - Floor(assessedAt) > observedAt - Floor(observedAt))
  {
    var a, o := assessedAt / SECOND, observedAt / SECOND;
    var i, j := assessedAt % SECOND, observedAt % SECOND;
    assert assessedAt == a * SECOND + i && observedAt == o * SECOND + j;
    assert assessedAt - observedAt == (a - o) * SECOND + (i - j);
    if a - o < 0 {
      assert (a - o) * SECOND <= -SECOND;
    } else if a - o > maximumAge {
      assert (a - o - maximumAge) * SECOND >= SECOND;
    } else if 0 < a - o < maximumAge {
      assert (a - o) * SECOND >= SECOND && (maximumAge - (a - o)) * SECOND >= SECOND;
    }
  }

  /** Stale by one microsecond, yet accepted after truncation; and observed after the assessment, yet accepted. */
  lemma TruncationAcceptsStale()
    ensures !Fresh(86400 * SECOND + 1, 0, 86400) && Fresh(Floor(86400 * SECOND + 1), Floor(0), 86400)
    ensures !Fresh(0, 1, 86400) && Fresh(Floor(0), Floor(1), 86400)
  {
    TruncatedFreshness(86400 * SECOND + 1, 0, 86400);
    TruncatedFreshness(0, 1, 86400);
  }
}
