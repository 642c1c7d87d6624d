// The pre-tool gate: what it decides about a tool call, and how it seeks approval for a high-impact one.
module PretoolGate {
  import opened Wrappers
  import opened Json
  import opened ApprovalCore
  import opened SignedApproval
  import opened HighImpactRequest
  import opened RuntimeAudit

  datatype Verdict = Allow | Deny | RequireApproval

  datatype Reason =
    | UnreviewedExtension | UnreviewedTool | BoundedWriteMismatch | ReviewedCapability | ApprovalMissing
    | ProhibitedCapability | ApprovalConsumed | ApprovalInvalid

  datatype Decision = Decision(verdict: Verdict, reason: Reason, requestRef: Option<string>, approvalId: Option<string>)

  function VerdictName(v: Verdict): string {
    match v case Allow => "allow" case Deny => "deny" case RequireApproval => "require-bound-approval"
  }

  function ReasonCode(r: Reason): string {
    match r
    case UnreviewedExtension => "unreviewed_extension"
    case UnreviewedTool => "unreviewed_tool"
    case BoundedWriteMismatch => "bounded_write_mismatch"
    case ReviewedCapability => "reviewed_capability"
    case ApprovalMissing => "high_impact_approval_missing"
    case ProhibitedCapability => "prohibited_capability"
    case ApprovalConsumed => "signed_approval_consumed"
    case ApprovalInvalid => "signed_approval_invalid"
  }

  /** The invocation cannot be evaluated safely. */
  datatype GateError = GateError

  /** The functions the gate calls out to, and the managed audit policy. */
  datatype Env = Env(
    w: World, g: Logger, mcpName: string -> Option<(string, string)>, audit: AuditPolicy)

  /**
   * What one gate process reads: `envelope` is the approval filed under the request's digest, if any, and `verify` the
   * signature check under the trust manifest as this process finds it.
   */
  datatype Input = Input(
    provider: string, event: Json, policy: Json, engine: Json, actor: string, envelope: Option<Json>, verify: Verifier,
    now: Json)

  function Plain(v: Verdict, r: Reason): Decision { Decision(v, r, None, None) }

  // ---------------------------------------------------------------- capability evaluation

  predicate CapabilityPolicyOk(policy: Json) {
    var p := Get(policy, "extension_capabilities");
    && p.Obj? && Get(p, "schema_version") == Str("psb-ai-extension-capabilities/v1")
    && Get(p, "default_decision") == Str("deny") && Get(p, "extensions").Obj?
  }

  predicate EngineOk(engine: Json) {
    Get(engine, "schema_version") == Str("psb-ai-capability-engine-state/v1") && Get(engine, "available") == Bool(true)
  }

  /** The extension and tool an event names. */
  function EventTool(env: Env, event: Json): Option<(string, string)> {
    if && Get(event, "hook_event_name") == Str("PreToolUse") && Get(event, "tool_name").Str?
       && Get(event, "tool_input").Obj? && NonEmptyText(Get(event, "tool_use_id"))
    then env.mcpName(Get(event, "tool_name").s)
    else None
  }

  predicate BoundedWriteMatches(env: Env, constraints: Json, arguments: Json) {
    && Same(Get(arguments, "resource"), Get(constraints, "allowed_resource"))
    && Get(arguments, "body").Str?
    && AtLeast(Get(constraints, "maximum_body_bytes"), 0)
    && AtLeast(Get(constraints, "maximum_body_bytes"), env.w.utf8(Get(arguments, "body").s))
    && Get(constraints, "require_idempotency_key") == Bool(true)
    && NonEmptyText(Get(arguments, "idempotency_key")) && |Get(arguments, "idempotency_key").s| <= 128
  }

  const BOUNDED := Str("bounded-reversible-write")
  const READ_ONLY := Str("read-only")

  predicate ActionClassKnown(policy: Json, tool: Json) {
    && Get(tool, "action_class").Str?
    && Get(Get(policy, "high_impact_approval"), "action_classes").Obj?
    && Get(tool, "action_class").s in Get(Get(policy, "high_impact_approval"), "action_classes").fields
  }

  /** The decision on a reviewed tool. */
  function ToolDecision(env: Env, policy: Json, tool: Json, arguments: Json): Result<Decision, GateError> {
    var effect, decision := Get(tool, "effect"), Get(tool, "decision");
    if effect == BOUNDED && !Get(tool, "constraints").Obj? then Err(GateError)
    else if effect == BOUNDED && !BoundedWriteMatches(env, Get(tool, "constraints"), arguments) then
      Ok(Plain(Deny, BoundedWriteMismatch))
    else if decision == Str("allow") && !Hashable(effect) then Err(GateError)
    else if decision == Str("allow") && (effect == READ_ONLY || effect == BOUNDED) then
      Ok(Plain(Allow, ReviewedCapability))
    else if decision == Str("require-bound-approval") && effect == Str("high-impact") && Get(tool, "action_class").Str? then
      if ActionClassKnown(policy, tool) then Ok(Plain(RequireApproval, ApprovalMissing)) else Err(GateError)
    else Ok(Plain(Deny, ProhibitedCapability))
  }

  /** `evaluate`. */
  function Decide(env: Env, policy: Json, engine: Json, event: Json): Result<Decision, GateError> {
    if !CapabilityPolicyOk(policy) || !EngineOk(engine) || EventTool(env, event).None? then Err(GateError)
    else
      var (extensionId, toolName) := EventTool(env, event).value;
      var extension := Get(Get(Get(policy, "extension_capabilities"), "extensions"), extensionId);
      if !extension.Obj? || Get(extension, "kind") != Str("mcp") then Ok(Plain(Deny, UnreviewedExtension))
      else
        var tool := Get(Get(extension, "tools"), toolName);
        if !tool.Obj? then Ok(Plain(Deny, UnreviewedTool))
        else ToolDecision(env, policy, tool, Get(event, "tool_input"))
  }

  predicate HighImpact(env: Env, input: Input) {
    var d := Decide(env, input.policy, input.engine, input.event);
    d.Ok? && d.value.verdict.RequireApproval?
  }

  /** The reviewed tool that an event names, in a managed MCP extension. */
  ghost predicate Reviewed(env: Env, policy: Json, event: Json, tool: Json) {
    && EventTool(env, event).Some?
    && var (extensionId, toolName) := EventTool(env, event).value;
       var extension := Get(Get(Get(policy, "extension_capabilities"), "extensions"), extensionId);
       && extension.Obj? && Get(extension, "kind") == Str("mcp")
       && tool == Get(Get(extension, "tools"), toolName) && tool.Obj?
  }

  /** Marked allow, and either a read or a bounded write whose constraints the arguments meet. */
  predicate Allows(env: Env, event: Json, tool: Json) {
    && Get(tool, "decision") == Str("allow")
    && (Get(tool, "effect") == READ_ONLY
        || (Get(tool, "effect") == BOUNDED && Get(tool, "constraints").Obj?
            && BoundedWriteMatches(env, Get(tool, "constraints"), Get(event, "tool_input"))))
  }

  predicate NeedsApproval(policy: Json, tool: Json) {
    && Get(tool, "decision") == Str("require-bound-approval") && Get(tool, "effect") == Str("high-impact")
    && ActionClassKnown(policy, tool)
  }

  /** Without approval the gate allows exactly reviewed reads and bounded writes within their constraints. */
  lemma AllowedExactly(env: Env, policy: Json, engine: Json, event: Json)
    ensures Decide(env, policy, engine, event).Ok? && Decide(env, policy, engine, event).value.verdict.Allow?
            <==> CapabilityPolicyOk(policy) && EngineOk(engine)
                 && (exists tool :: Reviewed(env, policy, event, tool) && Allows(env, event, tool))
    ensures Decide(env, policy, engine, event).Ok? && Decide(env, policy, engine, event).value.verdict.Allow? ==>
              Decide(env, policy, engine, event).value.reason == ReviewedCapability
  {
    hide Get, CapabilityPolicyOk, EngineOk, EventTool, BoundedWriteMatches, ActionClassKnown;
    EffectsDiffer();
    DecidesOnTool(env, policy, engine, event);
  }

  /** A bound approval is required exactly for a reviewed high-impact tool whose action class the policy knows. */
  lemma ApprovalRequiredExactly(env: Env, policy: Json, engine: Json, event: Json)
    ensures Decide(env, policy, engine, event).Ok? && Decide(env, policy, engine, event).value.verdict.RequireApproval?
            <==> CapabilityPolicyOk(policy) && EngineOk(engine)
                 && (exists tool :: Reviewed(env, policy, event, tool) && NeedsApproval(policy, tool))
  {
    hide Get, CapabilityPolicyOk, EngineOk, EventTool, BoundedWriteMatches;
    EffectsDiffer();
    DecidesOnTool(env, policy, engine, event);
  }

  lemma EffectsDiffer()
    ensures "allow" != "require-bound-approval" && "high-impact" != "bounded-reversible-write"
  {
    assert "allow"[0] == 'a' && "require-bound-approval"[0] == 'r';
    assert "high-impact"[0] == 'h' && "bounded-reversible-write"[0] == 'b';
  }

  lemma DecidesOnTool(env: Env, policy: Json, engine: Json, event: Json)
    ensures forall tool :: CapabilityPolicyOk(policy) && EngineOk(engine) && Reviewed(env, policy, event, tool) ==>
              Decide(env, policy, engine, event) == ToolDecision(env, policy, tool, Get(event, "tool_input"))
    ensures Decide(env, policy, engine, event).Ok? && !Decide(env, policy, engine, event).value.verdict.Deny? ==>
              CapabilityPolicyOk(policy) && EngineOk(engine) && exists tool :: Reviewed(env, policy, event, tool)
  {
    hide Get, CapabilityPolicyOk, EngineOk, EventTool, ToolDecision;
    var d := Decide(env, policy, engine, event);
    if d.Ok? && !d.value.verdict.Deny? {
      var (extensionId, toolName) := EventTool(env, event).value;
      var extension := Get(Get(Get(policy, "extension_capabilities"), "extensions"), extensionId);
      assert Reviewed(env, policy, event, Get(Get(extension, "tools"), toolName));
    }
  }

  // ---------------------------------------------------------------- approval

  datatype Step = Fails | Decided(decision: Decision) | Consume(row: Row)

  function RefusedDecision(digest: string, approval: string): Decision {
    Decision(Deny, ApprovalInvalid, Some(digest), Some(approval))
  }

  function GrantedDecision(row: Row): Decision {
    Decision(Allow, ApprovalConsumed, Some(row.requestDigest), Some(row.approvalId))
  }

  /** `authorize_high_impact` up to the ledger transaction. */
  ghost function Approve(env: Env, input: Input): Step {
    if input.actor == "" then Fails
    else match Normalized(env.w, input.policy, input.provider, input.event, input.actor)
      case Err(_) => Fails
      case Ok(request) =>
        match input.envelope
        case None => Decided(Decision(Deny, ApprovalMissing, Some(env.w.digest(Payload(request))), None))
        case Some(envelope) =>
          match Prepare(env.w, input.verify, input.policy, request, envelope, input.now)
          case Unavailable => Fails
          case Refused(v, e) => Decided(RefusedDecision(e.requestDigest, e.approvalId))
          case Ready(v, e, row) => Consume(row)
  }

  /** What the run learns from the transaction. */
  function AfterConsume(rows: seq<Row>, row: Row): Decision {
    if Conflicts(rows, row) then RefusedDecision(row.requestDigest, row.approvalId) else GrantedDecision(row)
  }

  /** The request a run is about; its digest keys the approval and the ledger row. */
  function RequestOfRun(env: Env, input: Input): Json {
    Payload(RequestOf(input.policy, input.provider, input.event, input.actor, "pending"))
  }

  /** A row is only ever offered for the exact digest of the run's own request, with a passing evaluation behind it. */
  lemma ConsumeIsBound(env: Env, input: Input)
    requires Approve(env, input).Consume?
    ensures Approve(env, input).row.requestDigest == env.w.digest(RequestOfRun(env, input))
    ensures Approve(env, input).row.actorId == input.actor && Approve(env, input).row.actionClass == "source-publication"
    ensures Approve(env, input).row.consumedAt == input.now
    ensures input.envelope.Some? && input.verify(input.envelope.value, input.now).Ok?
    ensures Str(Approve(env, input).row.approvalId)
         == Get(input.verify(input.envelope.value, input.now).value.approval, "approval_id")
    ensures var request := Normalized(env.w, input.policy, input.provider, input.event, input.actor).value;
            && Normalized(env.w, input.policy, input.provider, input.event, input.actor).Ok?
            && OfflinePasses(env.w, input.verify, input.policy, request, input.envelope.value, input.now, [])
  {
    hide *;
    var normalized := Normalized(env.w, input.policy, input.provider, input.event, input.actor);
    ApproveCases(env, input);
    NormalizedIsConsumable(env.w, input.policy, input.provider, input.event, input.actor);
    ReadyMeans(env.w, input.verify, input.policy, normalized.value, input.envelope.value, input.now);
    DigestCases(env.w, normalized.value);
    NormalizedFields(env.w, input.policy, input.provider, input.event, input.actor);
    assert RequestOfRun(env, input) == Payload(RequestOf(input.policy, input.provider, input.event, input.actor, "pending"))
      by { RunRequest(env, input); }
  }

  lemma NormalizedFields(w: World, policy: Json, provider: string, event: Json, actor: string)
    requires Normalized(w, policy, provider, event, actor).Ok?
    ensures Get(Normalized(w, policy, provider, event, actor).value, "actor_id") == Str(actor)
    ensures Get(Normalized(w, policy, provider, event, actor).value, "action_class") == Str("source-publication")
  {
    hide *;
    NormalizedCases(w, policy, provider, event, actor);
    IdentityFields(policy, provider, event, actor,
                   RequestIdFor(w.digest(Payload(RequestOf(policy, provider, event, actor, "pending")))));
  }

  lemma RunRequest(env: Env, input: Input)
    ensures RequestOfRun(env, input) == Payload(RequestOf(input.policy, input.provider, input.event, input.actor, "pending"))
  {
  }

  lemma ApproveCases(env: Env, input: Input)
    requires Approve(env, input).Consume?
    ensures input.actor != "" && input.envelope.Some?
    ensures var normalized := Normalized(env.w, input.policy, input.provider, input.event, input.actor);
            && normalized.Ok?
            && var outcome := Prepare(env.w, input.verify, input.policy, normalized.value, input.envelope.value, input.now);
               outcome.Ready? && outcome.row == Approve(env, input).row
  {
    hide Normalized, Prepare;
  }

  lemma ReadyMeans(w: World, verify: Verifier, policy: Json, request: Json, envelope: Json, now: Json)
    requires Prepare(w, verify, policy, request, envelope, now).Ready?
    ensures Prepare(w, verify, policy, request, envelope, now).row.requestDigest == w.digest(Payload(request))
    ensures Prepare(w, verify, policy, request, envelope, now).row.consumedAt == now
    ensures Str(Prepare(w, verify, policy, request, envelope, now).row.actorId) == Get(request, "actor_id")
    ensures Str(Prepare(w, verify, policy, request, envelope, now).row.actionClass) == Get(request, "action_class")
    ensures verify(envelope, now).Ok?
    ensures Str(Prepare(w, verify, policy, request, envelope, now).row.approvalId)
         == Get(verify(envelope, now).value.approval, "approval_id")
    ensures OfflinePasses(w, verify, policy, request, envelope, now, [])
  {
    hide EvaluateApproval, ReplayOf, Trusting, Passed, Get;
    var approval := verify(envelope, now).value.approval;
    EvaluatedDigest(w, policy, request, approval, EmptyReplay(), Trusting(Get(approval, "issuer")), now);
  }

  lemma EvaluatedDigest(w: World, policy: Json, request: Json, approval: Json, replay: Json, validation: Json, now: Json)
    requires EvaluateApproval(w, policy, request, approval, replay, validation, now).Ok?
    ensures var e := EvaluateApproval(w, policy, request, approval, replay, validation, now).value;
            && e.requestDigest == w.digest(Payload(request))
            && Str(e.approvalId) == Get(approval, "approval_id") && Str(e.actionClass) == Get(request, "action_class")
  {
    hide Get, Bound, InTime, Unused, IssuerTrusted, ResolvesTo, Payload, RequestId, Schemas, PolicyIdentity, ValidatorReady,
         Digestible, ClassesOk, BindingList, TimesOk, ReplayLists, ApprovalPolicy;
  }
}
