// Authenticated approvals and the ledger that lets each be used once.
module SignedApproval {
  import opened Wrappers
  import opened Json
  import opened ApprovalCore

  // ---------------------------------------------------------------- the ledger

  /** A row of `approval_consumption`: the approval is the primary key and the digest is unique. */
  datatype Row = Row(
    approvalId: string, requestDigest: string, actorId: string, agentId: string, actionClass: string, consumedAt: Json)

  predicate DistinctColumns(rows: seq<Row>) {
    forall i, j :: 0 <= i < j < |rows| ==>
      rows[i].approvalId != rows[j].approvalId && rows[i].requestDigest != rows[j].requestDigest
  }

  /** The insertion would break one of the two uniqueness constraints. */
  predicate Conflicts(rows: seq<Row>, row: Row) {
    exists i :: 0 <= i < |rows| && (rows[i].approvalId == row.approvalId || rows[i].requestDigest == row.requestDigest)
  }

  /** What the database does: commits, fails and rolls back, or commits and still reports an error. */
  datatype Storage = Available | RollsBack | FailsAfterCommit

  lemma InsertKeepsDistinct(rows: seq<Row>, row: Row)
    ensures DistinctColumns(rows + [row]) <==> DistinctColumns(rows) && !Conflicts(rows, row)
  {
    var all := rows + [row];
    assert forall i :: 0 <= i < |rows| ==> all[i] == rows[i];
    assert all[|rows|] == row;
    if DistinctColumns(all) {
      forall i | 0 <= i < |rows|
        ensures rows[i].approvalId != row.approvalId && rows[i].requestDigest != row.requestDigest
      {
        assert all[i].approvalId != all[|rows|].approvalId;
      }
    }
  }

  /** The table as it stands between transactions. */
  class Ledger {
    var rows: seq<Row>

    ghost predicate Valid() reads this { DistinctColumns(rows) }

    constructor ()
      ensures Valid() && rows == []
    {
      rows := [];
    }

    /** One transaction: insert the row unless a constraint forbids it. */
    method ConsumeOnce(row: Row, storage: Storage) returns (r: Result<bool, Unevaluable>)
      requires Valid()
      modifies this
      ensures Valid()
      ensures storage.Available? ==> r == Ok(!Conflicts(old(rows), row))
      ensures rows == if storage.RollsBack? || Conflicts(old(rows), row) then old(rows) else old(rows) + [row]
      ensures !storage.Available? ==> r.Err?
    {
      InsertKeepsDistinct(rows, row);
      if storage.RollsBack? {
        return Err(Unevaluable);
      }
      var unused := !Conflicts(rows, row);
      if unused {
        rows := rows + [row];
      }
      if storage.FailsAfterCommit? {
        return Err(Unevaluable);
      }
      return Ok(unused);
    }

    /** `authorize_and_consume`. */
    method AuthorizeAndConsume(w: World, verify: Verifier, policy: Json, request: Json, envelope: Json, now: Json,
                               storage: Storage)
      returns (r: Result<AuthorizationResult, Unevaluable>)
      requires Valid()
      modifies this
      ensures Valid()
      ensures var outcome := Prepare(w, verify, policy, request, envelope, now);
              && (storage.Available? ==> r == Settle(outcome, old(rows)))
              && (!storage.Available? ==> r == if outcome.Ready? then Err(Unevaluable) else Settle(outcome, old(rows)))
              && rows == if storage.RollsBack? then old(rows) else RowsAfter(outcome, old(rows))
    {
      hide EvaluateApproval, DistinctColumns, Conflicts, Passed, EmptyReplay, Trusting, RowOf;
      var verified := verify(envelope, now);
      if verified.Err? || !NonEmptyText(Get(verified.value.approval, "issuer")) {
        return Err(Unevaluable);
      }
      var approval := verified.value.approval;
      var e := Evaluate(w, policy, request, approval, EmptyReplay(), Trusting(Get(approval, "issuer")), now);
      if e.Err? {
        return Err(Unevaluable);
      }
      if !verified.value.ok || !Passed(e.value) {
        return Ok(ResultOf(verified.value, e.value, Denied));
      }
      if !NonEmptyText(Get(request, "actor_id")) || !NonEmptyText(Get(request, "agent_id")) {
        return Err(Unevaluable);
      }
      var consumed := ConsumeOnce(RowOf(request, e.value, now), storage);
      if consumed.Err? {
        return Err(Unevaluable);
      }
      return Ok(ResultOf(verified.value, e.value, if consumed.value then Granted else Replayed));
    }
  }

  // ---------------------------------------------------------------- what one authorization does

  /** The approval inside an envelope, the signing key, and whether the signature holds. */
  datatype Verified = Verified(approval: Json, keyId: string, ok: bool)

  type Verifier = (Json, Json) -> Result<Verified, Unevaluable>

  datatype Status = Granted | Replayed | Denied

  datatype AuthorizationResult = AuthorizationResult(
    status: Status, requestId: string, approvalId: string, requestDigest: string, keyId: string,
    signatureOk: bool, approvalOk: bool, consumed: bool)

  predicate Allowed(r: AuthorizationResult) {
    r.status == Granted && r.signatureOk && r.approvalOk && r.consumed
  }

  function EmptyReplay(): Json { ReplayOf([]) }

  function ApprovalColumn(rows: seq<Row>): seq<Json> {
    seq(|rows|, i requires 0 <= i < |rows| => Str(rows[i].approvalId))
  }

  function DigestColumn(rows: seq<Row>): seq<Json> {
    seq(|rows|, i requires 0 <= i < |rows| => Str(rows[i].requestDigest))
  }

  /** The replay state of the offline verifier, holding the two columns of a ledger. */
  function ReplayOf(rows: seq<Row>): Json {
    Obj(map["schema_version" := Str("psb-ai-approval-replay-state/v1"),
            "used_approval_ids" := Arr(ApprovalColumn(rows)),
            "used_request_digests" := Arr(DigestColumn(rows))])
  }

  /** The validation state that trusts the authenticated issuer. */
  function Trusting(issuer: Json): Json {
    Obj(map["schema_version" := Str("psb-ai-approval-validation-state/v1"),
            "available" := Bool(true),
            "trusted_issuers" := Arr([issuer])])
  }

  function RowOf(request: Json, e: Evaluation, now: Json): Row {
    Row(e.approvalId, e.requestDigest, TextOf(Get(request, "actor_id")), TextOf(Get(request, "agent_id")),
        e.actionClass, now)
  }

  function ResultOf(v: Verified, e: Evaluation, status: Status): AuthorizationResult {
    AuthorizationResult(status, e.requestId, e.approvalId, e.requestDigest, v.keyId, v.ok, Passed(e), status == Granted)
  }

  /** Everything up to the transaction. */
  datatype Outcome =
    | Unavailable
    | Refused(verified: Verified, evaluation: Evaluation)
    | Ready(verified: Verified, evaluation: Evaluation, row: Row)

  ghost function Prepare(w: World, verify: Verifier, policy: Json, request: Json, envelope: Json, now: Json): Outcome {
    match verify(envelope, now)
    case Err(_) => Unavailable
    case Ok(v) =>
      if !NonEmptyText(Get(v.approval, "issuer")) then Unavailable
      else match EvaluateApproval(w, policy, request, v.approval, EmptyReplay(), Trusting(Get(v.approval, "issuer")), now)
        case Err(_) => Unavailable
        case Ok(e) =>
          if !v.ok || !Passed(e) then Refused(v, e)
          else if !NonEmptyText(Get(request, "actor_id")) || !NonEmptyText(Get(request, "agent_id")) then Unavailable
          else Ready(v, e, RowOf(request, e, now))
  }

  /** The result against a ledger, when storage works. */
  function Settle(outcome: Outcome, rows: seq<Row>): Result<AuthorizationResult, Unevaluable> {
    match outcome
    case Unavailable => Err(Unevaluable)
    case Refused(v, e) => Ok(ResultOf(v, e, Denied))
    case Ready(v, e, row) => Ok(ResultOf(v, e, if Conflicts(rows, row) then Replayed else Granted))
  }

  function RowsAfter(outcome: Outcome, rows: seq<Row>): seq<Row> {
    if outcome.Ready? && !Conflicts(rows, outcome.row) then rows + [outcome.row] else rows
  }

  // ---------------------------------------------------------------- refinement of the replay lists

  lemma ReplayFields(rows: seq<Row>)
    ensures Get(ReplayOf(rows), "schema_version") == Str("psb-ai-approval-replay-state/v1")
    ensures Get(ReplayOf(rows), "used_approval_ids") == Arr(ApprovalColumn(rows))
    ensures Get(ReplayOf(rows), "used_request_digests") == Arr(DigestColumn(rows))
    ensures ReplayLists(ReplayOf(rows))
  {
  }

  lemma UnusedInLedger(rows: seq<Row>, row: Row)
    ensures Unused(ReplayOf(rows), row.approvalId, row.requestDigest) <==> !Conflicts(rows, row)
  {
    hide ReplayOf;
    ReplayFields(rows);
    var ids, digests := ApprovalColumn(rows), DigestColumn(rows);
    forall i | 0 <= i < |rows|
      ensures ids[i] in ids && digests[i] in digests
      ensures ids[i] == Str(row.approvalId) <==> rows[i].approvalId == row.approvalId
      ensures digests[i] == Str(row.requestDigest) <==> rows[i].requestDigest == row.requestDigest
    {
    }
  }

  /** Two replay states whose lists are well formed differ only in the replay verdict. */
  lemma OnlyReplayDiffers(w: World, policy: Json, request: Json, approval: Json, validation: Json, now: Json,
                          rows: seq<Row>)
    ensures var empty := EvaluateApproval(w, policy, request, approval, EmptyReplay(), validation, now);
            var full := EvaluateApproval(w, policy, request, approval, ReplayOf(rows), validation, now);
            && (empty.Ok? <==> full.Ok?)
            && (empty.Ok? ==> empty.value.replayOk
                              && full.value == empty.value.(replayOk := Unused(ReplayOf(rows), empty.value.approvalId,
                                                                               empty.value.requestDigest)))
  {
    hide *;
    EvaluationCases(w, policy, request, approval, EmptyReplay(), validation, now);
    EvaluationCases(w, policy, request, approval, ReplayOf(rows), validation, now);
    ReplayIsWellFormed(request, approval, validation, rows);
    if EvaluateApproval(w, policy, request, approval, EmptyReplay(), validation, now).Ok? {
      VerdictsDiffer(w, ApprovalPolicy(policy), request, approval, validation, now, rows, w.digest(Payload(request)),
                     ResolvesTo(ApprovalPolicy(policy), ActionPair(request), DeclaredClass(request)));
    }
  }

  lemma ReplayIsWellFormed(request: Json, approval: Json, validation: Json, rows: seq<Row>)
    ensures Schemas(request, approval, ReplayOf(rows), validation) <==> Schemas(request, approval, EmptyReplay(), validation)
    ensures ReplayLists(ReplayOf(rows)) && ReplayLists(EmptyReplay())
  {
    hide ReplayOf, ReplayLists;
    ReplayFields(rows);
    ReplayFields([]);
  }

  lemma VerdictsDiffer(w: World, policy: Json, request: Json, approval: Json, validation: Json, now: Json,
                       rows: seq<Row>, digest: string, classified: bool)
    requires TimesOk(w, policy, approval, now)
    ensures var empty := ApprovalCore.Verdict(w, policy, request, approval, EmptyReplay(), validation, now, digest, classified);
            var full := ApprovalCore.Verdict(w, policy, request, approval, ReplayOf(rows), validation, now, digest, classified);
            empty.replayOk
            && full == empty.(replayOk := Unused(ReplayOf(rows), empty.approvalId, empty.requestDigest))
  {
    hide Bound, InTime, TimesOk, IssuerTrusted, ReplayOf, RequestId, ApprovalId, DeclaredClass, Unused;
    UnusedInLedger([], Row(ApprovalId(approval), digest, "", "", "", now));
  }

  /** What the offline verifier says when its replay lists are the ledger's two columns. */
  ghost predicate OfflinePasses(w: World, verify: Verifier, policy: Json, request: Json, envelope: Json, now: Json,
                                rows: seq<Row>)
  {
    && verify(envelope, now).Ok? && verify(envelope, now).value.ok
    && var approval := verify(envelope, now).value.approval;
       && NonEmptyText(Get(approval, "issuer"))
       && var e := EvaluateApproval(w, policy, request, approval, ReplayOf(rows), Trusting(Get(approval, "issuer")), now);
          e.Ok? && Passed(e.value)
  }

  /**
   * Refinement: against any ledger, an authorization with empty replay lists is allowed exactly when the signature
   * holds, the evaluation passes with the ledger's columns as replay lists, and the request names actor and agent.
   */
  lemma LedgerRefinesReplayLists(w: World, verify: Verifier, policy: Json, request: Json, envelope: Json, now: Json,
                                 rows: seq<Row>)
    ensures var r := Settle(Prepare(w, verify, policy, request, envelope, now), rows);
            r.Ok? && Allowed(r.value)
            <==> OfflinePasses(w, verify, policy, request, envelope, now, rows)
                 && NonEmptyText(Get(request, "actor_id")) && NonEmptyText(Get(request, "agent_id"))
  {
    hide EvaluateApproval, Conflicts, ReplayOf, EmptyReplay, Trusting, Unused, NonEmptyText, Get, Passed, Prepare, Settle,
         Allowed, RowOf;
    AllowedCases(w, verify, policy, request, envelope, now, rows);
    if verify(envelope, now).Ok? {
      var approval := verify(envelope, now).value.approval;
      var issuer := Get(approval, "issuer");
      OnlyReplayDiffers(w, policy, request, approval, Trusting(issuer), now, rows);
      var e := EvaluateApproval(w, policy, request, approval, EmptyReplay(), Trusting(issuer), now);
      if e.Ok? {
        UnusedInLedger(rows, RowOf(request, e.value, now));
        RowNames(request, e.value, now);
        ReplayedPasses(e.value, Unused(ReplayOf(rows), e.value.approvalId, e.value.requestDigest));
      }
    }
  }

  lemma AllowedCases(w: World, verify: Verifier, policy: Json, request: Json, envelope: Json, now: Json, rows: seq<Row>)
    ensures var r := Settle(Prepare(w, verify, policy, request, envelope, now), rows);
            r.Ok? && Allowed(r.value)
            <==> && verify(envelope, now).Ok? && verify(envelope, now).value.ok
                 && var approval := verify(envelope, now).value.approval;
                    && NonEmptyText(Get(approval, "issuer"))
                    && var e := EvaluateApproval(w, policy, request, approval, EmptyReplay(),
                                                 Trusting(Get(approval, "issuer")), now);
                       && e.Ok? && Passed(e.value)
                       && NonEmptyText(Get(request, "actor_id")) && NonEmptyText(Get(request, "agent_id"))
                       && !Conflicts(rows, RowOf(request, e.value, now))
  {
    hide EvaluateApproval, Conflicts, EmptyReplay, Trusting, NonEmptyText, Get, Passed, RowOf;
  }

  lemma RowNames(request: Json, e: Evaluation, now: Json)
    ensures RowOf(request, e, now).approvalId == e.approvalId && RowOf(request, e, now).requestDigest == e.requestDigest
  {
  }

  lemma ReplayedPasses(e: Evaluation, unused: bool)
    requires e.replayOk
    ensures Passed(e.(replayOk := unused)) <==> Passed(e) && unused
  {
  }

  // ---------------------------------------------------------------- requests without an agent

  /** The object with one field replaced. */
  function With(value: Json, key: string, field: Json): Json {
    if value.Obj? then Obj(value.fields[key := field]) else value
  }

  function Agentless(request: Json): Json { With(request, "agent_id", Str("")) }

  /** The approval as it would have been issued for the request without its agent. */
  function ApprovedAgentless(w: World, request: Json, approval: Json): Json {
    With(With(approval, "agent_id", Str("")), "request_digest", Str(w.digest(Payload(Agentless(request)))))
  }

  lemma WithReads(value: Json, key: string, field: Json, other: string)
    requires value.Obj?
    ensures Get(With(value, key, field), other) == if other == key then field else Get(value, other)
    ensures Has(value, other) ==> Has(With(value, key, field), other)
  {
  }

  lemma RequestReads(request: Json, key: string)
    requires request.Obj?
    ensures Get(Agentless(request), key) == if key == "agent_id" then Str("") else Get(request, key)
    ensures Has(request, key) ==> Has(Agentless(request), key)
  {
    hide With, Get, Has;
    WithReads(request, "agent_id", Str(""), key);
  }

  lemma ApprovalReads(w: World, request: Json, approval: Json, key: string)
    requires approval.Obj?
    ensures Get(ApprovedAgentless(w, request, approval), key)
         == if key == "request_digest" then Str(w.digest(Payload(Agentless(request))))
            else if key == "agent_id" then Str("") else Get(approval, key)
    ensures Has(approval, key) ==> Has(ApprovedAgentless(w, request, approval), key)
  {
    hide With, Get, Has, Payload, Agentless;
    var unnamed := With(approval, "agent_id", Str(""));
    assert unnamed.Obj? by { WithIsObject(approval, "agent_id", Str("")); }
    WithReads(approval, "agent_id", Str(""), key);
    WithReads(unnamed, "request_digest", Str(w.digest(Payload(Agentless(request)))), key);
  }

  lemma WithIsObject(value: Json, key: string, field: Json)
    requires value.Obj?
    ensures With(value, key, field).Obj?
  {
  }

  /** What an evaluation reads besides the agent and the digest. */
  const REQUEST_KEYS := [
    "schema_version", "request_id", "actor_id", "action_class", "tool", "operation", "target", "parameters", "policy_id",
    "policy_revision"]

  const APPROVAL_KEYS := [
    "schema_version", "approval_id", "approver_id", "issuer", "issued_at", "expires_at", "decision", "actor_id",
    "action_class", "tool", "operation", "target", "parameters", "policy_id", "policy_revision"]

  ghost predicate Agree(keys: seq<string>, a: Json, b: Json) {
    forall i :: 0 <= i < |keys| ==> Get(a, keys[i]) == Get(b, keys[i])
  }

  lemma AgentlessReads(w: World, request: Json, approval: Json)
    requires request.Obj? && approval.Obj?
    ensures Agree(REQUEST_KEYS, Agentless(request), request)
    ensures Agree(APPROVAL_KEYS, ApprovedAgentless(w, request, approval), approval)
  {
    hide Get, Agentless, ApprovedAgentless, Has, Payload;
    forall i | 0 <= i < |REQUEST_KEYS| ensures Get(Agentless(request), REQUEST_KEYS[i]) == Get(request, REQUEST_KEYS[i]) {
      RequestReads(request, REQUEST_KEYS[i]);
    }
    forall i | 0 <= i < |APPROVAL_KEYS|
      ensures Get(ApprovedAgentless(w, request, approval), APPROVAL_KEYS[i]) == Get(approval, APPROVAL_KEYS[i])
    {
      ApprovalReads(w, request, approval, APPROVAL_KEYS[i]);
    }
  }

  lemma ReadAt(keys: seq<string>, a: Json, b: Json, i: nat)
    requires Agree(keys, a, b) && i < |keys|
    ensures Get(a, keys[i]) == Get(b, keys[i])
  {
  }

  lemma SchemasKept(request: Json, approval: Json, other: Json, twin: Json, replay: Json, validation: Json)
    requires Agree(REQUEST_KEYS, other, request) && Agree(APPROVAL_KEYS, twin, approval)
    ensures Schemas(other, twin, replay, validation) <==> Schemas(request, approval, replay, validation)
    ensures ApprovalId(twin) == ApprovalId(approval)
  {
    hide Get, Agree, TextOf;
    ReadAt(REQUEST_KEYS, other, request, 0);
    ReadAt(APPROVAL_KEYS, twin, approval, 0);
    ReadAt(APPROVAL_KEYS, twin, approval, 1);
  }

  lemma PolicyKept(policy: Json, request: Json, other: Json)
    requires Agree(REQUEST_KEYS, other, request)
    ensures PolicyIdentity(policy, other) <==> PolicyIdentity(policy, request)
  {
    hide Get, Agree, NonEmptyText;
    ReadAt(REQUEST_KEYS, other, request, 8);
    ReadAt(REQUEST_KEYS, other, request, 9);
  }

  lemma ActionKept(request: Json, other: Json)
    requires Agree(REQUEST_KEYS, other, request)
    ensures ActionPair(other) == ActionPair(request) && DeclaredClass(other) == DeclaredClass(request)
  {
    hide Get, Agree, TextOf;
    ReadAt(REQUEST_KEYS, other, request, 3);
    ReadAt(REQUEST_KEYS, other, request, 4);
    ReadAt(REQUEST_KEYS, other, request, 5);
  }

  lemma TextsKept(request: Json, approval: Json, other: Json, twin: Json)
    requires Agree(REQUEST_KEYS, other, request) && Agree(APPROVAL_KEYS, twin, approval)
    ensures Texts(other, twin) <==> Texts(request, approval)
  {
    hide Get, Agree, NonEmptyText;
    ReadAt(REQUEST_KEYS, other, request, 1);
    ReadAt(REQUEST_KEYS, other, request, 3);
    ReadAt(REQUEST_KEYS, other, request, 4);
    ReadAt(REQUEST_KEYS, other, request, 5);
    ReadAt(APPROVAL_KEYS, twin, approval, 1);
    ReadAt(APPROVAL_KEYS, twin, approval, 2);
    ReadAt(APPROVAL_KEYS, twin, approval, 3);
  }

  lemma TimeKept(w: World, policy: Json, approval: Json, twin: Json, validation: Json, now: Json)
    requires Agree(APPROVAL_KEYS, twin, approval)
    ensures TimesOk(w, policy, twin, now) <==> TimesOk(w, policy, approval, now)
    ensures TimesOk(w, policy, twin, now) ==> (InTime(w, policy, twin, now) <==> InTime(w, policy, approval, now))
    ensures IssuerTrusted(twin, validation) <==> IssuerTrusted(approval, validation)
  {
    hide Get, Agree, TimesOk, InTime;
    ReadAt(APPROVAL_KEYS, twin, approval, 3);
    ReadAt(APPROVAL_KEYS, twin, approval, 4);
    ReadAt(APPROVAL_KEYS, twin, approval, 5);
    ReadAt(APPROVAL_KEYS, twin, approval, 6);
    SameTimes(w, policy, approval, twin, now);
  }

  lemma SameTimes(w: World, policy: Json, approval: Json, twin: Json, now: Json)
    requires Get(twin, "issued_at") == Get(approval, "issued_at")
    requires Get(twin, "expires_at") == Get(approval, "expires_at")
    requires Get(twin, "decision") == Get(approval, "decision")
    ensures TimesOk(w, policy, twin, now) <==> TimesOk(w, policy, approval, now)
    ensures TimesOk(w, policy, twin, now) ==> (InTime(w, policy, twin, now) <==> InTime(w, policy, approval, now))
  {
    hide Get, IntOf;
  }

  lemma AgentlessDigestible(request: Json)
    requires Digestible(request)
    ensures Digestible(Agentless(request))
  {
    hide Get, Has, Agentless;
    assert request.Obj? by { HasIsObject(request, BINDING_FIELDS[0]); }
    forall i | 0 <= i < |BINDING_FIELDS| ensures Has(Agentless(request), BINDING_FIELDS[i]) {
      RequestReads(request, BINDING_FIELDS[i]);
    }
    RequestReads(request, "target");
    RequestReads(request, "parameters");
  }

  lemma HasIsObject(value: Json, key: string)
    requires Has(value, key)
    ensures value.Obj?
  {
  }

  lemma AgentlessBound(w: World, policy: Json, request: Json, approval: Json)
    requires request.Obj? && approval.Obj? && Bound(w, policy, request, approval)
    ensures Bound(w, policy, Agentless(request), ApprovedAgentless(w, request, approval))
  {
    hide Get, Has, Agentless, ApprovedAgentless, Payload, Same;
    var other, twin := Agentless(request), ApprovedAgentless(w, request, approval);
    var fields := Get(policy, "required_binding_fields").items;
    forall i | 0 <= i < |fields| ensures fields[i].Str? && Has(twin, fields[i].s) {
      ApprovalReads(w, request, approval, fields[i].s);
    }
    forall i | 0 <= i < |BINDING_FIELDS| ensures Same(Get(twin, BINDING_FIELDS[i]), Get(other, BINDING_FIELDS[i])) {
      ApprovalReads(w, request, approval, BINDING_FIELDS[i]);
      RequestReads(request, BINDING_FIELDS[i]);
      SameItself(Str(""));
    }
    ApprovalReads(w, request, approval, "request_digest");
    ApprovalReads(w, request, approval, "approver_id");
    RequestReads(request, "actor_id");
  }

  lemma SameItself(j: Json)
    ensures Same(j, j)
  {
  }

  lemma AgentlessEvaluates(w: World, policy: Json, request: Json, approval: Json, replay: Json, validation: Json, now: Json)
    requires EvaluateApproval(w, policy, request, approval, replay, validation, now).Ok?
    requires Passed(EvaluateApproval(w, policy, request, approval, replay, validation, now).value)
    ensures var e := EvaluateApproval(w, policy, Agentless(request), ApprovedAgentless(w, request, approval), replay,
                                      validation, now);
            e.Ok? && (Unused(replay, ApprovalId(approval), w.digest(Payload(Agentless(request)))) ==> Passed(e.value))
  {
    hide *;
    EvaluationCases(w, policy, request, approval, replay, validation, now);
    PassedVerdict(w, ApprovalPolicy(policy), request, approval, replay, validation, now, w.digest(Payload(request)),
                  ResolvesTo(ApprovalPolicy(policy), ActionPair(request), DeclaredClass(request)));
    ObjectsRead(request, approval);
    var other, twin := Agentless(request), ApprovedAgentless(w, request, approval);
    AgentlessReads(w, request, approval);
    SchemasKept(request, approval, other, twin, replay, validation);
    PolicyKept(ApprovalPolicy(policy), request, other);
    ActionKept(request, other);
    TextsKept(request, approval, other, twin);
    TimeKept(w, ApprovalPolicy(policy), approval, twin, validation, now);
    AgentlessDigestible(request);
    AgentlessBound(w, ApprovalPolicy(policy), request, approval);
    EvaluationCases(w, policy, other, twin, replay, validation, now);
    PassedVerdict(w, ApprovalPolicy(policy), other, twin, replay, validation, now, w.digest(Payload(other)),
                  ResolvesTo(ApprovalPolicy(policy), ActionPair(other), DeclaredClass(other)));
  }

  lemma ObjectsRead(request: Json, approval: Json)
    requires Texts(request, approval)
    ensures request.Obj? && approval.Obj?
  {
  }

  lemma PassedVerdict(w: World, policy: Json, request: Json, approval: Json, replay: Json, validation: Json, now: Json,
                      digest: string, classified: bool)
    requires TimesOk(w, policy, approval, now)
    ensures Passed(ApprovalCore.Verdict(w, policy, request, approval, replay, validation, now, digest, classified))
            <==> && classified && Bound(w, policy, request, approval) && InTime(w, policy, approval, now)
                 && Unused(replay, ApprovalId(approval), digest) && IssuerTrusted(approval, validation)
  {
    hide Bound, TimesOk, InTime, Unused, IssuerTrusted, ApprovalId, RequestId, DeclaredClass;
  }

  /**
   * The agent matters: take any request that passes offline, blank its agent, and let the same approval be issued for
   * that request. It still passes offline whenever its digest is unused, and authorizing it is an error, whatever the
   * ledger holds.
   */
  lemma AgentlessStillPasses(w: World, verify: Verifier, policy: Json, request: Json, envelope: Json, renewed: Json,
                             now: Json, rows: seq<Row>)
    requires OfflinePasses(w, verify, policy, request, envelope, now, rows)
    requires verify(renewed, now)
          == Ok(verify(envelope, now).value.(approval := ApprovedAgentless(w, request, verify(envelope, now).value.approval)))
    requires Str(w.digest(Payload(Agentless(request)))) !in DigestColumn(rows)
    ensures OfflinePasses(w, verify, policy, Agentless(request), renewed, now, rows)
    ensures Settle(Prepare(w, verify, policy, Agentless(request), renewed, now), rows).Err?
  {
    hide EvaluateApproval, Passed, ReplayOf, Trusting, Get, Agentless, ApprovedAgentless, Payload, EmptyReplay, Unused;
    var approval := verify(envelope, now).value.approval;
    var validation := Trusting(Get(approval, "issuer"));
    var e := EvaluateApproval(w, policy, request, approval, ReplayOf(rows), validation, now).value;
    AgentlessEvaluates(w, policy, request, approval, ReplayOf(rows), validation, now);
    PassingReads(w, policy, request, approval, ReplayOf(rows), validation, now);
    UnusedDigest(rows, ApprovalId(approval), w.digest(Payload(request)), w.digest(Payload(Agentless(request))));
    RequestReads(request, "agent_id");
    UnnamedFails(w, verify, policy, Agentless(request), renewed, now, rows);
  }

  lemma UnnamedFails(w: World, verify: Verifier, policy: Json, request: Json, envelope: Json, now: Json, rows: seq<Row>)
    requires OfflinePasses(w, verify, policy, request, envelope, now, rows) && Get(request, "agent_id") == Str("")
    ensures Prepare(w, verify, policy, request, envelope, now).Unavailable?
  {
    hide EvaluateApproval, ReplayOf, EmptyReplay, Trusting, Unused, Get;
    var approval := verify(envelope, now).value.approval;
    OnlyReplayDiffers(w, policy, request, approval, Trusting(Get(approval, "issuer")), now, rows);
  }

  lemma PassingReads(w: World, policy: Json, request: Json, approval: Json, replay: Json, validation: Json, now: Json)
    requires EvaluateApproval(w, policy, request, approval, replay, validation, now).Ok?
    requires Passed(EvaluateApproval(w, policy, request, approval, replay, validation, now).value)
    ensures request.Obj? && approval.Obj?
    ensures Get(ApprovedAgentless(w, request, approval), "issuer") == Get(approval, "issuer")
    ensures Unused(replay, ApprovalId(approval), w.digest(Payload(request)))
  {
    hide *;
    EvaluationCases(w, policy, request, approval, replay, validation, now);
    PassedVerdict(w, ApprovalPolicy(policy), request, approval, replay, validation, now, w.digest(Payload(request)),
                  ResolvesTo(ApprovalPolicy(policy), ActionPair(request), DeclaredClass(request)));
    ObjectsRead(request, approval);
    ApprovalReads(w, request, approval, "issuer");
  }

  lemma UnusedDigest(rows: seq<Row>, id: string, digest: string, other: string)
    requires Unused(ReplayOf(rows), id, digest) && Str(other) !in DigestColumn(rows)
    ensures Unused(ReplayOf(rows), id, other)
  {
    hide ReplayOf, ApprovalColumn, DigestColumn;
    ReplayFields(rows);
  }

  // One such request, under a policy with one tool for each required class.

  const SAMPLE_WORLD := World(j => "digest", j => Some(if j == Str("end") then 1_000_000 else 0), s => |s|)

  function SampleMatcher(name: string): Json { Obj(map["tool" := Str(name), "operations" := Arr([Str("run")])]) }

  function SampleClasses(): map<string, Json> { map c | c in REQUIRED_CLASSES :: Arr([SampleMatcher(c)]) }

  function SamplePolicy(): Json {
    Obj(map["schema_version" := Str("psb-ai-high-impact-policy/v1"), "policy_id" := Str("P"), "policy_revision" := Str("1"),
            "action_classes" := Obj(SampleClasses()), "required_binding_fields" := Arr([]),
            "maximum_ttl_seconds" := Num(1), "require_independent_approver" := Bool(true)])
  }

  function NamelessRequest(): Json {
    Obj(map["schema_version" := Str("psb-ai-action-request/v1"), "request_id" := Str("R"), "actor_id" := Str("author"),
            "agent_id" := Str(""), "action_class" := Str("deployment"), "tool" := Str("deployment"),
            "operation" := Str("run"), "target" := Obj(map[]), "parameters" := Obj(map[]), "policy_id" := Str("P"),
            "policy_revision" := Str("1")])
  }

  function NamelessApproval(): Json {
    Obj(NamelessRequest().fields
        + map["schema_version" := Str("psb-ai-action-approval/v1"), "approval_id" := Str("A"),
              "approver_id" := Str("second"), "issuer" := Str("issuer"), "request_digest" := Str("digest"),
              "issued_at" := Str("start"), "expires_at" := Str("end"), "decision" := Str("approved")])
  }

  lemma SampleClassPairs(name: string)
    requires name != ""
    ensures ClassOk(name, Arr([SampleMatcher(name)])) && ClassPairs([SampleMatcher(name)]) == [(name, "run")]
  {
    var m := SampleMatcher(name);
    assert Get(m, "tool") == Str(name) && Get(m, "operations") == Arr([Str("run")]);
    assert MatcherOk(m) && MatcherPairs(m) == [(name, "run")];
    assert [m][..0] == [] && ClassPairs([]) + MatcherPairs(m) == MatcherPairs(m);
  }

  lemma SampleClassesOk()
    ensures ClassesOk(SamplePolicy())
    ensures ResolvesTo(SamplePolicy(), ("deployment", "run"), "deployment")
  {
    hide ClassOk, SampleMatcher, ClassPairs;
    assert Get(SamplePolicy(), "action_classes") == Obj(SampleClasses());
    forall c | c in REQUIRED_CLASSES
      ensures ClassOk(c, Arr([SampleMatcher(c)])) && ClassPairs([SampleMatcher(c)]) == [(c, "run")]
    {
      assert c != "";
      SampleClassPairs(c);
    }
    assert Lists(SampleClasses(), "deployment", ("deployment", "run"));
  }

  lemma SamplePolicyReads()
    ensures SamplePolicy().Obj? && PolicyIdentity(SamplePolicy(), NamelessRequest()) && BindingList(SamplePolicy())
    ensures Get(SamplePolicy(), "required_binding_fields") == Arr([])
    ensures Get(SamplePolicy(), "maximum_ttl_seconds") == Num(1)
    ensures Get(SamplePolicy(), "require_independent_approver") == Bool(true)
  {
    hide SampleClasses;
  }

  lemma NamelessFields()
    ensures var r := NamelessRequest();
            && r.Obj? && Get(r, "schema_version") == Str("psb-ai-action-request/v1") && Get(r, "request_id") == Str("R")
            && Get(r, "actor_id") == Str("author") && Get(r, "agent_id") == Str("")
            && Get(r, "action_class") == Str("deployment") && Get(r, "tool") == Str("deployment")
            && Get(r, "operation") == Str("run") && Get(r, "target") == Obj(map[]) && Get(r, "parameters") == Obj(map[])
  {
  }

  lemma ApprovalFields()
    ensures var a := NamelessApproval();
            && Get(a, "schema_version") == Str("psb-ai-action-approval/v1") && Get(a, "approval_id") == Str("A")
            && Get(a, "approver_id") == Str("second") && Get(a, "issuer") == Str("issuer")
            && Get(a, "request_digest") == Str("digest") && Get(a, "issued_at") == Str("start")
            && Get(a, "expires_at") == Str("end") && Get(a, "decision") == Str("approved")
  {
    hide NamelessRequest;
  }

  /** The approval repeats every bound field of the request. */
  lemma ApprovalRepeats(field: string)
    requires field in BINDING_FIELDS
    ensures Get(NamelessApproval(), field) == Get(NamelessRequest(), field) && Has(NamelessRequest(), field)
  {
  }

  lemma NamelessReads()
    ensures Digestible(NamelessRequest()) && Texts(NamelessRequest(), NamelessApproval())
    ensures Schemas(NamelessRequest(), NamelessApproval(), EmptyReplay(), Trusting(Str("issuer")))
    ensures ActionPair(NamelessRequest()) == ("deployment", "run") && DeclaredClass(NamelessRequest()) == "deployment"
  {
    hide NamelessRequest, NamelessApproval, Get, Has, EmptyReplay, Trusting;
    NamelessFields();
    ApprovalFields();
    ReplayFields([]);
    EmptyIsReplay();
    TrustingReads(Str("issuer"));
    forall i | 0 <= i < |BINDING_FIELDS| ensures Has(NamelessRequest(), BINDING_FIELDS[i]) {
      ApprovalRepeats(BINDING_FIELDS[i]);
    }
  }

  lemma EmptyIsReplay()
    ensures EmptyReplay() == ReplayOf([])
  {
  }

  lemma TrustingReads(issuer: Json)
    ensures Get(Trusting(issuer), "schema_version") == Str("psb-ai-approval-validation-state/v1")
    ensures Get(Trusting(issuer), "available") == Bool(true) && Get(Trusting(issuer), "trusted_issuers") == Arr([issuer])
  {
  }

  lemma NamelessBound()
    ensures Bound(SAMPLE_WORLD, SamplePolicy(), NamelessRequest(), NamelessApproval())
  {
    hide SamplePolicy, NamelessRequest, NamelessApproval, Get, Has, Payload, Same;
    SamplePolicyReads();
    NamelessFields();
    ApprovalFields();
    forall i | 0 <= i < |BINDING_FIELDS|
      ensures Same(Get(NamelessApproval(), BINDING_FIELDS[i]), Get(NamelessRequest(), BINDING_FIELDS[i]))
    {
      ApprovalRepeats(BINDING_FIELDS[i]);
      SameItself(Get(NamelessRequest(), BINDING_FIELDS[i]));
    }
    SameText(Str("second"), "author");
    assert "second"[0] == 's' && "author"[0] == 'a';
  }

  lemma NamelessInTime()
    ensures TimesOk(SAMPLE_WORLD, SamplePolicy(), NamelessApproval(), Str("start"))
    ensures InTime(SAMPLE_WORLD, SamplePolicy(), NamelessApproval(), Str("start"))
  {
    hide SamplePolicy, NamelessApproval, Get;
    SamplePolicyReads();
    ApprovalFields();
    assert "start"[0] == 's' && "end"[0] == 'e';
  }

  /** A request that names no agent passes offline, and authorizing it is an error. */
  lemma NamelessPasses(verify: Verifier)
    requires verify(Null, Str("start")) == Ok(Verified(NamelessApproval(), "key", true))
    ensures Get(NamelessRequest(), "agent_id") == Str("")
    ensures var policy := Obj(map["high_impact_approval" := SamplePolicy()]);
            && OfflinePasses(SAMPLE_WORLD, verify, policy, NamelessRequest(), Null, Str("start"), [])
            && Settle(Prepare(SAMPLE_WORLD, verify, policy, NamelessRequest(), Null, Str("start")), []).Err?
  {
    hide SamplePolicy, NamelessRequest, NamelessApproval, Payload, Bound, InTime, TimesOk, Schemas, PolicyIdentity, Texts,
         Digestible, ClassesOk, BindingList, ResolvesTo, ReplayOf, Trusting, Passed, EvaluateApproval, Prepare, Get, Unused;
    var policy := Obj(map["high_impact_approval" := SamplePolicy()]);
    var validation := Trusting(Str("issuer"));
    assert ApprovalPolicy(policy) == SamplePolicy() by { PolicyRead(SamplePolicy()); }
    SampleClassesOk();
    SamplePolicyReads();
    NamelessFields();
    ApprovalFields();
    NamelessReads();
    NamelessBound();
    NamelessInTime();
    ReplayFields([]);
    TrustingReads(Str("issuer"));
    UnusedInLedger([], Row("A", "digest", "", "", "", Null));
    EvaluationCases(SAMPLE_WORLD, policy, NamelessRequest(), NamelessApproval(), ReplayOf([]), validation, Str("start"));
    PassedVerdict(SAMPLE_WORLD, SamplePolicy(), NamelessRequest(), NamelessApproval(), ReplayOf([]), validation,
                  Str("start"), "digest", true);
    UnnamedFails(SAMPLE_WORLD, verify, policy, NamelessRequest(), Null, Str("start"), []);
  }

  lemma PolicyRead(policy: Json)
    ensures ApprovalPolicy(Obj(map["high_impact_approval" := policy])) == policy
  {
  }

  /** After a grant, no authorization for the same request or the same approval succeeds again. */
  lemma SecondUseIsReplayed(outcome: Outcome, again: Outcome, rows: seq<Row>, later: seq<Row>)
    requires outcome.Ready? && again.Ready? && !Conflicts(rows, outcome.row) && RowsAfter(outcome, rows) <= later
    requires outcome.row.approvalId == again.row.approvalId || outcome.row.requestDigest == again.row.requestDigest
    ensures Settle(again, later).Ok? && Settle(again, later).value.status == Replayed
    ensures RowsAfter(again, later) == later
  {
    var after := RowsAfter(outcome, rows);
    assert later[|rows|] == after[|rows|] == outcome.row;
  }
}
