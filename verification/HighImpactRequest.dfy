// The bound action request that the hook builds from a pull-request tool call.
module HighImpactRequest {
  import opened Wrappers
  import opened Json
  import opened ApprovalCore
  import opened SignedApproval

  const REQUIRED_ARGUMENTS := ["resource", "base", "head", "title", "idempotency_key"]

  predicate KnownArgument(name: string) { name in REQUIRED_ARGUMENTS || name == "body" }

  /** An absent body is empty; a null one is malformed. */
  function Body(arguments: Json): Json {
    if Has(arguments, "body") then Get(arguments, "body") else Str("")
  }

  predicate ArgumentsOk(arguments: Json) {
    && arguments.Obj?
    && (forall name :: name in arguments.fields ==> KnownArgument(name))
    && (forall i :: 0 <= i < |REQUIRED_ARGUMENTS| ==> NonEmptyText(Get(arguments, REQUIRED_ARGUMENTS[i])))
    && Body(arguments).Str?
  }

  function ToolPolicy(policy: Json): Json {
    Get(Get(Get(Get(Get(policy, "extension_capabilities"), "extensions"), "source_manager"), "tools"),
        "create_pull_request")
  }

  predicate AtLeast(j: Json, least: int) { IntOf(j).Some? && IntOf(j).value >= least }

  predicate ToolPolicyOk(policy: Json) {
    var tool := ToolPolicy(policy);
    var constraints := Get(tool, "constraints");
    && tool.Obj?
    && Get(tool, "effect") == Str("high-impact") && Get(tool, "decision") == Str("require-bound-approval")
    && Get(tool, "action_class") == Str("source-publication")
    && constraints.Obj? && Get(constraints, "require_idempotency_key") == Bool(true)
    && AtLeast(Get(constraints, "maximum_title_bytes"), 0) && AtLeast(Get(constraints, "maximum_body_bytes"), 0)
    && AtLeast(Get(constraints, "maximum_idempotency_key_characters"), 1)
  }

  predicate WithinLimits(w: World, policy: Json, arguments: Json) {
    var constraints := Get(ToolPolicy(policy), "constraints");
    && AtLeast(Get(constraints, "maximum_title_bytes"), w.utf8(TextOf(Get(arguments, "title"))))
    && AtLeast(Get(constraints, "maximum_body_bytes"), w.utf8(TextOf(Body(arguments))))
    && AtLeast(Get(constraints, "maximum_idempotency_key_characters"), |TextOf(Get(arguments, "idempotency_key"))|)
  }

  predicate EventOk(event: Json) {
    && Get(event, "tool_name") == Str("mcp__source_manager__create_pull_request")
    && NonEmptyText(Get(event, "session_id"))
    && ArgumentsOk(Get(event, "tool_input"))
  }

  function Upper(s: string): string {
    seq(|s|, i requires 0 <= i < |s| => if 'a' <= s[i] <= 'z' then (s[i] as int - 32) as char else s[i])
  }

  function RequestIdFor(digest: string): string {
    "REQ-" + Upper(if |digest| <= 20 then digest else digest[..20])
  }

  function Target(arguments: Json): Json {
    Obj(map["repository" := Get(arguments, "resource"), "base" := Get(arguments, "base"),
            "head" := Get(arguments, "head")])
  }

  function Parameters(arguments: Json, body: Json): Json {
    Obj(map["title" := Get(arguments, "title"), "body" := body,
            "idempotency_key" := Get(arguments, "idempotency_key")])
  }

  /** A request whose identifier is still to be filled in. */
  function Fields(policy: Json, provider: string, session: string, actor: string, target: Json, parameters: Json)
    : map<string, Json>
  {
    map["schema_version" := Str("psb-ai-action-request/v1"),
        "request_id" := Str("pending"),
        "actor_id" := Str(actor),
        "agent_id" := Str("managed-" + provider + ":" + session),
        "action_class" := Str("source-publication"),
        "tool" := Str("mcp:source_manager"),
        "operation" := Str("create-pull-request"),
        "target" := target,
        "parameters" := parameters,
        "policy_id" := Get(ApprovalPolicy(policy), "policy_id"),
        "policy_revision" := Get(ApprovalPolicy(policy), "policy_revision")]
  }

  /** The request with a given identifier. */
  function RequestOf(policy: Json, provider: string, event: Json, actor: string, id: string): Json {
    var arguments := Get(event, "tool_input");
    Obj(Fields(policy, provider, TextOf(Get(event, "session_id")), actor, Target(arguments),
               Parameters(arguments, Body(arguments)))["request_id" := Str(id)])
  }

  predicate Normalizable(w: World, policy: Json, event: Json) {
    EventOk(event) && ToolPolicyOk(policy) && WithinLimits(w, policy, Get(event, "tool_input"))
    && ApprovalPolicy(policy).Obj?
  }

  function Normalized(w: World, policy: Json, provider: string, event: Json, actor: string): Result<Json, Unevaluable> {
    if !Normalizable(w, policy, event) then Err(Unevaluable)
    else
      var digest := w.digest(Payload(RequestOf(policy, provider, event, actor, "pending")));
      Ok(RequestOf(policy, provider, event, actor, RequestIdFor(digest)))
  }

  // ---------------------------------------------------------------- fields of a built request

  lemma IdentityFields(policy: Json, provider: string, event: Json, actor: string, id: string)
    ensures var r := RequestOf(policy, provider, event, actor, id);
            && Get(r, "actor_id") == Str(actor)
            && Get(r, "agent_id") == Str("managed-" + provider + ":" + TextOf(Get(event, "session_id")))
            && Get(r, "action_class") == Str("source-publication")
            && Get(r, "tool") == Str("mcp:source_manager") && Get(r, "operation") == Str("create-pull-request")
  {
    hide Target, Parameters, ApprovalPolicy;
  }

  lemma BoundFields(policy: Json, provider: string, event: Json, actor: string, id: string)
    ensures var r := RequestOf(policy, provider, event, actor, id);
            && Get(r, "target") == Target(Get(event, "tool_input"))
            && Get(r, "parameters") == Parameters(Get(event, "tool_input"), Body(Get(event, "tool_input")))
            && Get(r, "policy_id") == Get(ApprovalPolicy(policy), "policy_id")
            && Get(r, "policy_revision") == Get(ApprovalPolicy(policy), "policy_revision")
            && forall i :: 0 <= i < |BINDING_FIELDS| ==> Has(r, BINDING_FIELDS[i])
  {
    hide Target, Parameters, ApprovalPolicy;
  }

  /** The identifier is outside the digest, so filling it in does not change what is bound. */
  lemma IdentifierNotBound(policy: Json, provider: string, event: Json, actor: string, id: string, other: string)
    ensures Payload(RequestOf(policy, provider, event, actor, id)) == Payload(RequestOf(policy, provider, event, actor, other))
  {
    hide Target, Parameters, ApprovalPolicy, RequestOf, Get;
    var r, s := RequestOf(policy, provider, event, actor, id), RequestOf(policy, provider, event, actor, other);
    IdentityFields(policy, provider, event, actor, id);
    IdentityFields(policy, provider, event, actor, other);
    BoundFields(policy, provider, event, actor, id);
    BoundFields(policy, provider, event, actor, other);
    forall f | f in BINDING_FIELDS ensures Get(r, f) == Get(s, f) {
      var i :| 0 <= i < |BINDING_FIELDS| && BINDING_FIELDS[i] == f;
    }
  }

  /** A normalized request always has a digest, an actor and an agent: authorizing it never fails for want of them. */
  lemma NormalizedIsConsumable(w: World, policy: Json, provider: string, event: Json, actor: string)
    requires Normalized(w, policy, provider, event, actor).Ok? && actor != ""
    ensures var r := Normalized(w, policy, provider, event, actor).value;
            && NonEmptyText(Get(r, "actor_id")) && NonEmptyText(Get(r, "agent_id"))
            && RequestDigest(w, r).Ok?
            && RequestDigest(w, r).value == w.digest(Payload(RequestOf(policy, provider, event, actor, "pending")))
  {
    hide Normalizable, RequestOf, ApprovalPolicy, Get, Payload;
    var digest := w.digest(Payload(RequestOf(policy, provider, event, actor, "pending")));
    IdentityFields(policy, provider, event, actor, RequestIdFor(digest));
    BoundFields(policy, provider, event, actor, RequestIdFor(digest));
    IdentifierNotBound(policy, provider, event, actor, "pending", RequestIdFor(digest));
  }

  /** For normalized requests the refinement of the replay lists needs no side condition. */
  lemma NormalizedRefines(w: World, verify: Verifier, policy: Json, provider: string, event: Json, actor: string,
                          envelope: Json, now: Json, rows: seq<Row>)
    requires Normalized(w, policy, provider, event, actor).Ok? && actor != ""
    ensures var request := Normalized(w, policy, provider, event, actor).value;
            var r := Settle(Prepare(w, verify, policy, request, envelope, now), rows);
            r.Ok? && Allowed(r.value) <==> OfflinePasses(w, verify, policy, request, envelope, now, rows)
  {
    hide *;
    NormalizedIsConsumable(w, policy, provider, event, actor);
    LedgerRefinesReplayLists(w, verify, policy, Normalized(w, policy, provider, event, actor).value, envelope, now, rows);
  }

  /**
   * Without a collision, equal digests mean the same actor, agent, policy revision, repository, branches, text and
   * idempotency key, even when the two requests were built under different runtime policies.
   */
  lemma SameDigestSameAction(w: World, policy: Json, provider: string, event: Json, actor: string,
                             otherPolicy: Json, otherProvider: string, otherEvent: Json, otherActor: string)
    requires NoCollision(w, Payload(RequestOf(policy, provider, event, actor, "pending")),
                         Payload(RequestOf(otherPolicy, otherProvider, otherEvent, otherActor, "pending")))
    requires w.digest(Payload(RequestOf(policy, provider, event, actor, "pending")))
          == w.digest(Payload(RequestOf(otherPolicy, otherProvider, otherEvent, otherActor, "pending")))
    ensures actor == otherActor
    ensures provider + ":" + TextOf(Get(event, "session_id")) == otherProvider + ":" + TextOf(Get(otherEvent, "session_id"))
    ensures Target(Get(event, "tool_input")) == Target(Get(otherEvent, "tool_input"))
    ensures Parameters(Get(event, "tool_input"), Body(Get(event, "tool_input")))
         == Parameters(Get(otherEvent, "tool_input"), Body(Get(otherEvent, "tool_input")))
    ensures Get(ApprovalPolicy(policy), "policy_id") == Get(ApprovalPolicy(otherPolicy), "policy_id")
    ensures Get(ApprovalPolicy(policy), "policy_revision") == Get(ApprovalPolicy(otherPolicy), "policy_revision")
  {
    hide RequestOf, Get, Target, Parameters, TextOf, Body, ApprovalPolicy, Payload;
    var r := RequestOf(policy, provider, event, actor, "pending");
    var s := RequestOf(otherPolicy, otherProvider, otherEvent, otherActor, "pending");
    IdentityFields(policy, provider, event, actor, "pending");
    IdentityFields(otherPolicy, otherProvider, otherEvent, otherActor, "pending");
    BoundFields(policy, provider, event, actor, "pending");
    BoundFields(otherPolicy, otherProvider, otherEvent, otherActor, "pending");
    PayloadField(r, s, 0);
    PayloadField(r, s, 1);
    PayloadField(r, s, 5);
    PayloadField(r, s, 6);
    PayloadField(r, s, 7);
    PayloadField(r, s, 8);
    var session, otherSession := TextOf(Get(event, "session_id")), TextOf(Get(otherEvent, "session_id"));
    SamePrefix("managed-", provider + ":" + session, otherProvider + ":" + otherSession);
    assert "managed-" + provider + ":" + session == "managed-" + (provider + ":" + session);
    assert "managed-" + otherProvider + ":" + otherSession == "managed-" + (otherProvider + ":" + otherSession);
  }

  lemma SamePrefix(prefix: string, a: string, b: string)
    ensures prefix + a == prefix + b ==> a == b
  {
    if prefix + a == prefix + b {
      assert a == (prefix + a)[|prefix|..] == (prefix + b)[|prefix|..] == b;
    }
  }

  lemma PayloadField(r: Json, s: Json, i: nat)
    requires Payload(r) == Payload(s) && i < |BINDING_FIELDS|
    ensures Get(r, BINDING_FIELDS[i]) == Get(s, BINDING_FIELDS[i])
  {
    hide Get;
    assert BINDING_FIELDS[i] in Payload(r).fields;
    assert Payload(r).fields[BINDING_FIELDS[i]] == Payload(s).fields[BINDING_FIELDS[i]];
  }

  // ---------------------------------------------------------------- the builder as written

  /** The loop over the required arguments. */
  method NormalizeArguments(arguments: Json) returns (r: Result<map<string, Json>, Unevaluable>)
    requires arguments.Obj?
    ensures r.Ok? <==> forall i :: 0 <= i < |REQUIRED_ARGUMENTS| ==> NonEmptyText(Get(arguments, REQUIRED_ARGUMENTS[i]))
    ensures r.Ok? ==> r.value == map f | f in REQUIRED_ARGUMENTS :: Get(arguments, f)
  {
    r := CollectTexts(arguments, REQUIRED_ARGUMENTS);
  }

  method CollectTexts(arguments: Json, names: seq<string>) returns (r: Result<map<string, Json>, Unevaluable>)
    ensures r.Ok? <==> forall i :: 0 <= i < |names| ==> NonEmptyText(Get(arguments, names[i]))
    ensures r.Ok? ==> r.value == map f | f in names :: Get(arguments, f)
  {
    hide Get;
    var normalized: map<string, Json> := map[];
    for i := 0 to |names|
      invariant forall k :: 0 <= k < i ==> NonEmptyText(Get(arguments, names[k]))
      invariant normalized == map f | f in names[..i] :: Get(arguments, f)
    {
      if !NonEmptyText(Get(arguments, names[i])) {
        return Err(Unevaluable);
      }
      normalized := normalized[names[i] := Get(arguments, names[i])];
    }
    assert names[..|names|] == names;
    return Ok(normalized);
  }

  lemma CollectedArguments(arguments: Json, normalized: map<string, Json>, body: Json)
    requires normalized == map f | f in REQUIRED_ARGUMENTS :: Get(arguments, f)
    ensures Target(Obj(normalized)) == Target(arguments)
    ensures Parameters(Obj(normalized), body) == Parameters(arguments, body)
  {
    forall i | 0 <= i < |REQUIRED_ARGUMENTS|
      ensures Get(Obj(normalized), REQUIRED_ARGUMENTS[i]) == Get(arguments, REQUIRED_ARGUMENTS[i])
    {
    }
    assert REQUIRED_ARGUMENTS[0] == "resource" && REQUIRED_ARGUMENTS[1] == "base" && REQUIRED_ARGUMENTS[2] == "head";
    assert REQUIRED_ARGUMENTS[3] == "title" && REQUIRED_ARGUMENTS[4] == "idempotency_key";
  }

  lemma PendingRequest(policy: Json, provider: string, event: Json, actor: string, target: Json, parameters: Json,
                       id: string)
    requires target == Target(Get(event, "tool_input"))
    requires parameters == Parameters(Get(event, "tool_input"), Body(Get(event, "tool_input")))
    ensures var fields := Fields(policy, provider, TextOf(Get(event, "session_id")), actor, target, parameters);
            && Payload(Obj(fields)) == Payload(RequestOf(policy, provider, event, actor, "pending"))
            && Obj(fields["request_id" := Str(id)]) == RequestOf(policy, provider, event, actor, id)
            && Digestible(Obj(fields))
  {
    hide Target, Parameters, Body, Get, Fields, Payload, TextOf;
    var fields := Fields(policy, provider, TextOf(Get(event, "session_id")), actor, target, parameters);
    PendingIsPending(policy, provider, TextOf(Get(event, "session_id")), actor, target, parameters);
    assert fields["request_id" := Str("pending")] == fields;
    BoundFields(policy, provider, event, actor, "pending");
    ObjectArguments(Get(event, "tool_input"), Body(Get(event, "tool_input")));
  }

  lemma PendingIsPending(policy: Json, provider: string, session: string, actor: string, target: Json, parameters: Json)
    ensures var fields := Fields(policy, provider, session, actor, target, parameters);
            "request_id" in fields && fields["request_id"] == Str("pending")
  {
  }

  lemma ObjectArguments(arguments: Json, body: Json)
    ensures Target(arguments).Obj? && Parameters(arguments, body).Obj?
  {
  }

  /** `normalized_high_impact_request` as written. */
  method NormalizeRequest(w: World, policy: Json, provider: string, event: Json, actor: string)
    returns (r: Result<Json, Unevaluable>)
    ensures r == Normalized(w, policy, provider, event, actor)
  {
    hide *;
    NormalizedCases(w, policy, provider, event, actor);
    var arguments := Get(event, "tool_input");
    if Get(event, "tool_name") != Str("mcp__source_manager__create_pull_request")
       || !NonEmptyText(Get(event, "session_id")) || !arguments.Obj?
       || exists name :: name in arguments.fields && !KnownArgument(name)
    {
      return Err(Unevaluable);
    }
    var normalized := NormalizeArguments(arguments);
    if normalized.Err? || !Body(arguments).Str? {
      return Err(Unevaluable);
    }
    if !ToolPolicyOk(policy) || !WithinLimits(w, policy, arguments) || !ApprovalPolicy(policy).Obj? {
      return Err(Unevaluable);
    }
    CollectedArguments(arguments, normalized.value, Body(arguments));
    var target, parameters := Target(Obj(normalized.value)), Parameters(Obj(normalized.value), Body(arguments));
    var fields := Fields(policy, provider, TextOf(Get(event, "session_id")), actor, target, parameters);
    PendingRequest(policy, provider, event, actor, target, parameters, "");
    var digest := CanonicalRequestDigest(w, Obj(fields));
    DigestCases(w, Obj(fields));
    PendingRequest(policy, provider, event, actor, target, parameters, RequestIdFor(digest.value));
    return Ok(Obj(fields["request_id" := Str(RequestIdFor(digest.value))]));
  }

  lemma NormalizedCases(w: World, policy: Json, provider: string, event: Json, actor: string)
    ensures var arguments := Get(event, "tool_input");
            (Normalized(w, policy, provider, event, actor).Ok?
             <==> Get(event, "tool_name") == Str("mcp__source_manager__create_pull_request")
                  && NonEmptyText(Get(event, "session_id")) && arguments.Obj?
                  && (forall name :: name in arguments.fields ==> KnownArgument(name))
                  && (forall i :: 0 <= i < |REQUIRED_ARGUMENTS| ==> NonEmptyText(Get(arguments, REQUIRED_ARGUMENTS[i])))
                  && Body(arguments).Str? && ToolPolicyOk(policy) && WithinLimits(w, policy, arguments)
                  && ApprovalPolicy(policy).Obj?)
    ensures Normalized(w, policy, provider, event, actor).Ok? ==>
              Normalized(w, policy, provider, event, actor).value
              == RequestOf(policy, provider, event, actor,
                           RequestIdFor(w.digest(Payload(RequestOf(policy, provider, event, actor, "pending")))))
    ensures Normalized(w, policy, provider, event, actor).Err? ==>
              Normalized(w, policy, provider, event, actor) == Err(Unevaluable)
  {
    hide Get, KnownArgument, NonEmptyText, Body, ToolPolicyOk, WithinLimits, ApprovalPolicy, RequestOf, Payload;
  }
}
