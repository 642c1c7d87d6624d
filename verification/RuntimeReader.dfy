// The audit log as the assessment reads it: JSON objects from any source, against the policy and the state document.
module RuntimeReader {
  import opened Wrappers
  import opened Json
  import opened ApprovalCore
  import opened Times
  import opened RuntimeAudit

  // ---------------------------------------------------------------- policy and state

  function TextSet(j: Json): set<string>
    requires TextList(j)
  {
    set i | 0 <= i < |j.items| :: j.items[i].s
  }

  predicate StateReady(state: Json) {
    && Get(state, "schema_version") == Str("psb-ai-runtime-audit-state/v1")
    && Get(state, "available") == Bool(true)
  }

  predicate PolicyReady(policy: Json) {
    && TextList(Get(policy, "allowed_event_fields")) && TextList(Get(policy, "required_decisions"))
    && TextList(Get(policy, "allowed_reason_codes")) && TextList(Get(policy, "allowed_state_fields"))
    && IntOf(Get(policy, "maximum_event_age_seconds")).Some? && IntOf(Get(policy, "maximum_event_age_seconds")).value >= 1
  }

  predicate EventTimed(g: Logger, event: Json) { g.time(Get(event, "timestamp")).Some? }

  predicate SafeText(j: Json) { j.Str? && HexReference(j.s) }

  /** The tests of one event, timestamp aside. */
  predicate EventOk(policy: Json, event: Json)
    requires PolicyReady(policy)
  {
    && event.Obj? && event.fields.Keys == TextSet(Get(policy, "allowed_event_fields"))
    && Same(Get(event, "schema_version"), Get(policy, "event_schema_version"))
    && Get(event, "control_id") == Str("PSB-AI-004")
    && Same(Get(event, "policy_revision"), Get(policy, "policy_revision"))
    && (Get(event, "provider") == Str("claude-code") || Get(event, "provider") == Str("codex"))
    && (SafeText(Get(event, "session_ref")) || Get(event, "session_ref") == Str("unavailable"))
    && (SafeText(Get(event, "event_ref")) || Get(event, "event_ref") == Str("unavailable"))
    && Get(event, "tool_ref").Str? && ToolReference(Get(event, "tool_ref").s)
    && Get(event, "decision") in Get(policy, "required_decisions").items
    && Get(event, "reason_code") in Get(policy, "allowed_reason_codes").items
    && (Get(event, "request_ref").Null? || SafeText(Get(event, "request_ref")))
    && (Get(event, "approval_ref").Null? || SafeText(Get(event, "approval_ref")))
  }

  /** How the log is owned, protected, retained and exported. */
  predicate StorageOk(policy: Json, state: Json)
    requires PolicyReady(policy)
  {
    && Get(state, "managed_owner") == Bool(true) && Get(policy, "require_managed_owner") == Bool(true)
    && state.Obj? && state.fields.Keys == TextSet(Get(policy, "allowed_state_fields"))
    && Get(state, "owner") == Str("root")
    && Same(Get(state, "directory_mode"), Get(policy, "directory_mode"))
    && Same(Get(state, "file_mode"), Get(policy, "file_mode"))
    && IntOf(Get(state, "retention_days")).Some? && IntOf(Get(policy, "maximum_retention_days")).Some?
    && 0 < IntOf(Get(state, "retention_days")).value <= IntOf(Get(policy, "maximum_retention_days")).value
    && Get(state, "export_enabled") == Bool(true) && Get(policy, "require_export") == Bool(true)
    && Get(state, "export_destination_class") == Str("organization-security-log")
  }

  // ---------------------------------------------------------------- the log

  /** The decisions that are texts, whatever else is in the log. */
  function DecisionsIn(events: seq<Json>): set<string> {
    set i | 0 <= i < |events| && Get(events[i], "decision").Str? :: Get(events[i], "decision").s
  }

  predicate FreshEvent(g: Logger, policy: Json, event: Json, now: Json)
    requires PolicyReady(policy) && g.time(now).Some? && EventTimed(g, event)
  {
    Fresh(g.time(now).value, g.time(Get(event, "timestamp")).value, IntOf(Get(policy, "maximum_event_age_seconds")).value)
  }

  predicate Passes(g: Logger, policy: Json, event: Json, now: Json)
    requires PolicyReady(policy) && g.time(now).Some?
  {
    EventTimed(g, event) && EventOk(policy, event) && FreshEvent(g, policy, event, now)
  }

  /** The first `n` events pass. */
  predicate FirstPass(g: Logger, policy: Json, events: seq<Json>, now: Json, n: nat)
    requires PolicyReady(policy) && g.time(now).Some? && n <= |events|
  {
    forall k :: 0 <= k < n ==> Passes(g, policy, events[k], now)
  }

  /**
   * Every timestamp can be parsed, and every provider that is looked up can be: those up to and including that of the
   * first event that does not pass.
   */
  predicate Readable(g: Logger, policy: Json, state: Json, events: seq<Json>, now: Json) {
    && StateReady(state) && PolicyReady(policy) && g.time(now).Some?
    && (forall i :: 0 <= i < |events| ==> EventTimed(g, events[i]))
    && forall i :: 0 <= i < |events| && FirstPass(g, policy, events, now, i) ==> Hashable(Get(events[i], "provider"))
  }

  predicate LogOk(g: Logger, policy: Json, events: seq<Json>, now: Json)
    requires PolicyReady(policy) && g.time(now).Some?
  {
    FirstPass(g, policy, events, now, |events|)
  }

  lemma DecisionsStep(events: seq<Json>, n: nat)
    requires n < |events|
    ensures DecisionsIn(events[..n + 1])
         == DecisionsIn(events[..n])
            + if Get(events[n], "decision").Str? then {Get(events[n], "decision").s} else {}
  {
    hide Get;
    var before, after := events[..n], events[..n + 1];
    assert forall i :: 0 <= i < n ==> before[i] == after[i];
    assert after[n] == events[n];
    forall d | d in DecisionsIn(before) ensures d in DecisionsIn(after) {
      var i :| 0 <= i < |before| && Get(before[i], "decision").Str? && Get(before[i], "decision").s == d;
      assert Get(after[i], "decision").s == d;
    }
    if Get(after[n], "decision").Str? {
      assert Get(after[n], "decision").s in DecisionsIn(after);
    }
  }

  /** `audit_matches`. */
  method AuditMatches(g: Logger, policy: Json, state: Json, events: seq<Json>, now: Json)
    returns (r: Result<bool, Unevaluable>)
    ensures r.Ok? <==> Readable(g, policy, state, events, now)
    ensures r.Ok? ==>
              (r.value <==> LogOk(g, policy, events, now)
                            && DecisionsIn(events) == TextSet(Get(policy, "required_decisions"))
                            && StorageOk(policy, state))
  {
    hide EventOk, FreshEvent, EventTimed, StorageOk, StateReady, PolicyReady, Get, TextList, DecisionsIn, Hashable, Passes,
         FirstPass, TextSet;
    if !StateReady(state) || !PolicyReady(policy) || g.time(now).None? {
      return Err(Unevaluable);
    }
    var decisions: set<string>, eventsOk := {}, true;
    assert events[..0] == [];
    NoDecisions();
    NonePass(g, policy, events, now);
    for i := 0 to |events|
      invariant forall k :: 0 <= k < i ==> EventTimed(g, events[k])
      invariant forall k :: 0 <= k < i && FirstPass(g, policy, events, now, k) ==> Hashable(Get(events[k], "provider"))
      invariant decisions == DecisionsIn(events[..i])
      invariant eventsOk <==> FirstPass(g, policy, events, now, i)
    {
      DecisionsStep(events, i);
      OneMorePasses(g, policy, events, now, i);
      var decision := Get(events[i], "decision");
      if decision.Str? {
        decisions := decisions + {decision.s};
      }
      if eventsOk && !Hashable(Get(events[i], "provider")) {
        return Err(Unevaluable);
      }
      eventsOk := eventsOk && EventOk(policy, events[i]);
      if !EventTimed(g, events[i]) {
        return Err(Unevaluable);
      }
      eventsOk := eventsOk && FreshEvent(g, policy, events[i], now);
    }
    assert events[..|events|] == events;
    RequiredIsList(policy);
    return Ok(eventsOk && decisions == TextSet(Get(policy, "required_decisions")) && StorageOk(policy, state));
  }

  lemma NonePass(g: Logger, policy: Json, events: seq<Json>, now: Json)
    requires PolicyReady(policy) && g.time(now).Some?
    ensures FirstPass(g, policy, events, now, 0)
  {
  }

  lemma OneMorePasses(g: Logger, policy: Json, events: seq<Json>, now: Json, i: nat)
    requires PolicyReady(policy) && g.time(now).Some? && i < |events|
    ensures FirstPass(g, policy, events, now, i + 1)
            <==> && FirstPass(g, policy, events, now, i)
                 && EventTimed(g, events[i]) && EventOk(policy, events[i]) && FreshEvent(g, policy, events[i], now)
  {
    hide EventTimed, EventOk, FreshEvent, PolicyReady;
  }

  lemma NoDecisions()
    ensures DecisionsIn([]) == {}
  {
  }

  lemma RequiredIsList(policy: Json)
    requires PolicyReady(policy)
    ensures TextList(Get(policy, "required_decisions"))
  {
  }

  // ---------------------------------------------------------------- events the gate writes

  function Optional(value: Option<string>): Json {
    match value case None => Null case Some(s) => Str(s)
  }

  /** The object whose one-line text the gate appends. */
  function AsJson(e: Event): Json {
    Obj(map["schema_version" := e.schema, "timestamp" := e.timestamp, "control_id" := Str(e.controlId),
            "policy_revision" := e.revision, "provider" := Str(e.provider), "session_ref" := Str(e.sessionRef),
            "event_ref" := Str(e.eventRef), "tool_ref" := Str(e.toolRef), "decision" := Str(e.decision),
            "reason_code" := Str(e.reasonCode), "request_ref" := Optional(e.requestRef),
            "approval_ref" := Optional(e.approvalRef)])
  }

  function TextSeq(j: Json): seq<string>
    requires TextList(j)
  {
    seq(|j.items|, i requires 0 <= i < |j.items| => j.items[i].s)
  }

  /** The policy as the gate uses it. */
  function PolicyIn(policy: Json, maximumFileBytes: Json): AuditPolicy
    requires PolicyReady(policy)
  {
    AuditPolicy(Get(policy, "event_schema_version"), Get(policy, "policy_revision"),
                TextSet(Get(policy, "allowed_event_fields")), TextSeq(Get(policy, "required_decisions")),
                TextSeq(Get(policy, "allowed_reason_codes")), Get(policy, "maximum_event_age_seconds"), maximumFileBytes)
  }

  lemma HeaderReads(e: Event)
    ensures Get(AsJson(e), "schema_version") == e.schema && Get(AsJson(e), "timestamp") == e.timestamp
    ensures Get(AsJson(e), "control_id") == Str(e.controlId) && Get(AsJson(e), "policy_revision") == e.revision
    ensures Get(AsJson(e), "provider") == Str(e.provider) && Get(AsJson(e), "decision") == Str(e.decision)
    ensures AsJson(e).Obj? && AsJson(e).fields.Keys == EVENT_FIELDS
  {
  }

  lemma ReferenceReads(e: Event)
    ensures Get(AsJson(e), "session_ref") == Str(e.sessionRef) && Get(AsJson(e), "event_ref") == Str(e.eventRef)
    ensures Get(AsJson(e), "tool_ref") == Str(e.toolRef) && Get(AsJson(e), "reason_code") == Str(e.reasonCode)
    ensures Get(AsJson(e), "request_ref") == Optional(e.requestRef)
    ensures Get(AsJson(e), "approval_ref") == Optional(e.approvalRef)
  {
  }

  lemma ListedText(j: Json, s: string)
    requires TextList(j)
    ensures Str(s) in j.items <==> s in TextSeq(j)
  {
    if Str(s) in j.items {
      var i :| 0 <= i < |j.items| && j.items[i] == Str(s);
      assert TextSeq(j)[i] == s;
    }
    if s in TextSeq(j) {
      var i :| 0 <= i < |TextSeq(j)| && TextSeq(j)[i] == s;
      assert j.items[i] == Str(s);
    }
  }

  /** Reading back a written event tests exactly the shape of the event. */
  lemma ShapeSurvives(policy: Json, maximumFileBytes: Json, e: Event)
    requires PolicyReady(policy)
    ensures EventOk(policy, AsJson(e)) <==> ShapeOk(PolicyIn(policy, maximumFileBytes), e)
  {
    hide AsJson, Get, HexReference, ToolReference, TextList, TextSet, TextSeq, Canonical;
    HeaderReads(e);
    ReferenceReads(e);
    RequiredIsList(policy);
    assert TextList(Get(policy, "allowed_reason_codes"));
    ListedText(Get(policy, "required_decisions"), e.decision);
    ListedText(Get(policy, "allowed_reason_codes"), e.reasonCode);
  }

  // ---------------------------------------------------------------- logs the gate writes

  function Written(events: seq<Event>): seq<Json> {
    seq(|events|, i requires 0 <= i < |events| => AsJson(events[i]))
  }

  /** Every required decision has been recorded at least once. */
  predicate AllSeen(policy: Json, events: seq<Event>)
    requires PolicyReady(policy)
  {
    forall d :: d in TextSet(Get(policy, "required_decisions")) ==> d in Decisions(events)
  }

  lemma WrittenDecisions(events: seq<Event>)
    ensures DecisionsIn(Written(events)) == Decisions(events)
  {
    hide AsJson, Get;
    var all := Written(events);
    forall i | 0 <= i < |events| ensures Get(all[i], "decision") == Str(events[i].decision) {
      HeaderReads(events[i]);
    }
    forall d | d in Decisions(events) ensures d in DecisionsIn(all) {
      var i :| 0 <= i < |events| && events[i].decision == d;
      assert Get(all[i], "decision").s == d;
    }
  }

  lemma RequiredTexts(policy: Json)
    requires PolicyReady(policy)
    ensures forall d :: d in TextSeq(Get(policy, "required_decisions")) <==> d in TextSet(Get(policy, "required_decisions"))
  {
    hide Get;
    var list := Get(policy, "required_decisions");
    forall d | d in TextSet(list) ensures d in TextSeq(list) {
      var i :| 0 <= i < |list.items| && list.items[i].s == d;
      assert TextSeq(list)[i] == d;
    }
  }

  lemma WrittenReads(g: Logger, policy: Json, maximumFileBytes: Json, e: Event, now: Json)
    requires PolicyReady(policy) && g.time(now).Some? && g.time(e.timestamp).Some?
    ensures EventTimed(g, AsJson(e)) && Hashable(Get(AsJson(e), "provider"))
    ensures FreshEvent(g, policy, AsJson(e), now)
            <==> Fresh(g.time(now).value, g.time(e.timestamp).value, IntOf(PolicyIn(policy, maximumFileBytes).maximumEventAge).value)
  {
    hide AsJson, Get, PolicyReady, Fresh;
    HeaderReads(e);
    AgeIn(policy, maximumFileBytes);
  }

  lemma AgeIn(policy: Json, maximumFileBytes: Json)
    requires PolicyReady(policy)
    ensures PolicyIn(policy, maximumFileBytes).maximumEventAge == Get(policy, "maximum_event_age_seconds")
    ensures PolicyIn(policy, maximumFileBytes).requiredDecisions == TextSeq(Get(policy, "required_decisions"))
    ensures IntOf(Get(policy, "maximum_event_age_seconds")).Some?
  {
  }

  /**
   * A log of events that the gate built and that are still fresh is always readable and passes every per-event test;
   * the assessment accepts it exactly when each required decision occurs in it and its storage is sound.
   */
  lemma GateLogAccepted(g: Logger, policy: Json, maximumFileBytes: Json, state: Json, events: seq<Event>, now: Json)
    requires Faithful(g) && PolicyReady(policy) && StateReady(state) && g.time(now).Some?
    requires var audit := PolicyIn(policy, maximumFileBytes);
             && AuditReady(g, audit, now)
             && (forall i :: 0 <= i < |events| ==> Built(g, audit, events[i]))
             && forall i :: 0 <= i < |events| && g.time(events[i].timestamp).Some? ==>
                  Fresh(g.time(now).value, g.time(events[i].timestamp).value, IntOf(audit.maximumEventAge).value)
    ensures Readable(g, policy, state, Written(events), now) && LogOk(g, policy, Written(events), now)
    ensures DecisionsIn(Written(events)) == TextSet(Get(policy, "required_decisions")) <==> AllSeen(policy, events)
  {
    hide AsJson, Get, PolicyReady, StateReady, EventOk, EventTimed, FreshEvent, ShapeOk, Faithful, Built, PolicyIn, Fresh,
         DecisionsIn, TextSet, TextSeq, Decisions;
    var audit := PolicyIn(policy, maximumFileBytes);
    BuiltLogPasses(g, audit, events, now);
    AgeIn(policy, maximumFileBytes);
    RequiredIsList(policy);
    RequiredTexts(policy);
    WrittenDecisions(events);
    forall i | 0 <= i < |events|
      ensures Passes(g, policy, Written(events)[i], now) && Hashable(Get(Written(events)[i], "provider"))
    {
      ShapeSurvives(policy, maximumFileBytes, events[i]);
      WrittenReads(g, policy, maximumFileBytes, events[i], now);
    }
  }
}
