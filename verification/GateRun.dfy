// One gate process from start to exit, over the real ledger and log objects.
module GateRun {
  import opened Wrappers
  import opened Json
  import opened ApprovalCore
  import opened SignedApproval
  import opened HighImpactRequest
  import opened RuntimeAudit
  import opened PretoolGate
  import opened GateProtocol
  import opened GateProgress
  import opened GatePaths
  import opened GateSafety

  lemma ApproveUnfolds(env: Env, input: Input)
    ensures Approve(env, input)
         == (var normalized := Normalized(env.w, input.policy, input.provider, input.event, input.actor);
             if input.actor == "" || normalized.Err? then Fails
             else if input.envelope.None? then
               Decided(Decision(Deny, ApprovalMissing, Some(env.w.digest(Payload(normalized.value))), None))
             else StepOf(Prepare(env.w, input.verify, input.policy, normalized.value, input.envelope.value, input.now)))
  {
    hide Normalized, Prepare, Payload;
  }

  function StepOf(outcome: Outcome): Step {
    match outcome
    case Unavailable => Fails
    case Refused(v, e) => Decided(RefusedDecision(e.requestDigest, e.approvalId))
    case Ready(v, e, row) => Consume(row)
  }

  /** What an authorization against a ledger means for the gate. */
  function Outward(r: Result<AuthorizationResult, Unevaluable>): Result<Decision, GateError> {
    if r.Err? then Err(GateError)
    else if Allowed(r.value) then
      Ok(Decision(Allow, ApprovalConsumed, Some(r.value.requestDigest), Some(r.value.approvalId)))
    else Ok(RefusedDecision(r.value.requestDigest, r.value.approvalId))
  }

  ghost predicate WellReady(outcome: Outcome) {
    outcome.Ready? ==>
      outcome.verified.ok && Passed(outcome.evaluation)
      && outcome.row.requestDigest == outcome.evaluation.requestDigest
      && outcome.row.approvalId == outcome.evaluation.approvalId
  }

  lemma PreparedWell(w: World, verify: Verifier, policy: Json, request: Json, envelope: Json, now: Json)
    ensures WellReady(Prepare(w, verify, policy, request, envelope, now))
  {
    hide EvaluateApproval, EmptyReplay, Trusting, Get, Passed, NonEmptyText;
  }

  lemma OutwardAgrees(outcome: Outcome, rows: seq<Row>)
    requires WellReady(outcome)
    ensures Outward(Settle(outcome, rows))
         == match StepOf(outcome)
            case Fails => Err(GateError)
            case Decided(d) => Ok(d)
            case Consume(row) => Ok(AfterConsume(rows, row))
  {
    hide Conflicts, Passed;
  }

  /** `authorize_high_impact` with a working ledger. */
  method AuthorizeHighImpact(env: Env, input: Input, ledger: Ledger, storage: Storage)
    returns (r: Result<Decision, GateError>)
    requires ledger.Valid()
    modifies ledger
    ensures ledger.Valid()
    ensures match Approve(env, input)
            case Fails => r.Err? && ledger.rows == old(ledger.rows)
            case Decided(d) => r == Ok(d) && ledger.rows == old(ledger.rows)
            case Consume(row) =>
              && (storage.Available? ==> r == Ok(AfterConsume(old(ledger.rows), row)))
              && (!storage.Available? ==> r.Err?)
              && ledger.rows == if storage.RollsBack? || Conflicts(old(ledger.rows), row) then old(ledger.rows)
                                else old(ledger.rows) + [row]
  {
    hide *;
    ApproveUnfolds(env, input);
    if input.actor == "" {
      return Err(GateError);
    }
    var request := NormalizeRequest(env.w, input.policy, input.provider, input.event, input.actor);
    if request.Err? {
      return Err(GateError);
    }
    if input.envelope.None? {
      NormalizedIsConsumable(env.w, input.policy, input.provider, input.event, input.actor);
      var digest := CanonicalRequestDigest(env.w, request.value);
      DigestCases(env.w, request.value);
      return Ok(Decision(Deny, ApprovalMissing, Some(digest.value), None));
    }
    ghost var outcome := Prepare(env.w, input.verify, input.policy, request.value, input.envelope.value, input.now);
    ghost var before := ledger.rows;
    PreparedWell(env.w, input.verify, input.policy, request.value, input.envelope.value, input.now);
    var result := ledger.AuthorizeAndConsume(env.w, input.verify, input.policy, request.value, input.envelope.value,
                                             input.now, storage);
    OutwardAgrees(outcome, before);
    StepsOf(outcome);
    RowsUnfold(outcome, before);
    if result.Err? {
      OutwardFails(result);
      SettledReady(outcome, before);
      return Err(GateError);
    }
    SettledReady(outcome, before);
    if Allowed(result.value) {
      OutwardCases(result);
      return Ok(Decision(Allow, ApprovalConsumed, Some(result.value.requestDigest), Some(result.value.approvalId)));
    }
    OutwardCases(result);
    return Ok(RefusedDecision(result.value.requestDigest, result.value.approvalId));
  }

  lemma StepsOf(outcome: Outcome)
    ensures StepOf(outcome).Fails? <==> outcome.Unavailable?
    ensures StepOf(outcome).Decided? <==> outcome.Refused?
    ensures StepOf(outcome).Consume? <==> outcome.Ready?
    ensures outcome.Ready? ==> StepOf(outcome).row == outcome.row
  {
  }

  lemma RowsUnfold(outcome: Outcome, rows: seq<Row>)
    ensures RowsAfter(outcome, rows) == if outcome.Ready? && !Conflicts(rows, outcome.row) then rows + [outcome.row] else rows
  {
  }

  lemma SettledReady(outcome: Outcome, rows: seq<Row>)
    ensures Settle(outcome, rows).Err? <==> outcome.Unavailable?
  {
    hide Conflicts;
  }

  lemma OutwardFails(r: Result<AuthorizationResult, Unevaluable>)
    requires r.Err?
    ensures Outward(r).Err?
  {
  }

  lemma OutwardCases(r: Result<AuthorizationResult, Unevaluable>)
    requires r.Ok?
    ensures Outward(r)
         == if Allowed(r.value)
            then Ok(Decision(Allow, ApprovalConsumed, Some(r.value.requestDigest), Some(r.value.approvalId)))
            else Ok(RefusedDecision(r.value.requestDigest, r.value.approvalId))
  {
  }

  /** How the environment treats one `record_event`: each write's answer, and whether the sync succeeds. */
  datatype LogAnswers = LogAnswers(write: nat -> Write, synced: bool)

  /** `record_event`: the event's whole line on success, part of it or nothing otherwise. */
  method RecordEvent(env: Env, built: Result<Event, Unevaluable>, log: AuditFile, answers: LogAnswers)
    returns (r: Result<(), Unevaluable>, ghost taken: nat)
    modifies log
    ensures old(log.content) <= log.content
    ensures r.Ok? ==> built.Ok? && log.content == old(log.content) + Line(env.g, built.value)
    ensures Plausible(env, old(log.content), built, taken, r.Ok?)
    ensures log.content == old(log.content) + if built.Ok? then Line(env.g, built.value)[..taken] else ""
  {
    hide Line, Fits;
    if built.Err? {
      assert log.content + "" == log.content;
      return Err(Unevaluable), 0;
    }
    r, taken := log.Append(Line(env.g, built.value), env.audit.maximumFileBytes, answers.write, answers.synced);
    assert Line(env.g, built.value)[..|Line(env.g, built.value)|] == Line(env.g, built.value);
  }

  /** The decision of the `try` block of `main`, before it is recorded. */
  method DecideCall(env: Env, input: Input, ledger: Ledger, storage: Storage) returns (r: Result<Decision, GateError>)
    requires ledger.Valid()
    modifies ledger
    ensures ledger.Valid()
    ensures r == Concluded(env, input, old(ledger.rows), storage)
    ensures ledger.rows == if Commits(env, input, old(ledger.rows), storage)
                           then old(ledger.rows) + [Approve(env, input).row] else old(ledger.rows)
    ensures r.Ok? ==> !r.value.verdict.RequireApproval?
    ensures r.Ok? && HighImpact(env, input) && r.value.verdict.Allow? ==>
              Approve(env, input).Consume? && r.value == GrantedDecision(Approve(env, input).row)
              && ledger.rows == old(ledger.rows) + [Approve(env, input).row]
  {
    hide Decide, Approve, Conflicts;
    var decision := Decide(env, input.policy, input.engine, input.event);
    if decision.Err? || !decision.value.verdict.RequireApproval? {
      assert decision.Err? ==> decision.error == GateError;
      return decision;
    }
    r := AuthorizeHighImpact(env, input, ledger, storage);
    assert r.Err? ==> r.error == GateError;
    DecidedDenies(env, input);
  }

  /** The exception handler of `main`: try to record an error event, and exit. */
  method HandleError(env: Env, input: Input, log: AuditFile, answers: LogAnswers, ghost pid: nat, ghost s: State,
                     ghost before: Schedule, ghost u: State)
    returns (code: nat, ghost schedule: Schedule)
    requires Leads(env, s, before, pid, At(u, pid, input, Failing)) && u.lock.None? && u.file == log.content
    modifies log
    ensures old(log.content) <= log.content
    ensures code == if HandlerEscapes(env, input) then 1 else 2
    ensures By(schedule, pid)
    ensures var t := Exec(env, s, schedule);
            && t.ledger == u.ledger && t.file == log.content && t.lock.None?
            && pid in t.runs && t.runs[pid].input == input && ExitCode(t.runs[pid].phase) == Some(code)
  {
    hide ErrorEvent, Line, Fits, By, Exec, Leads, HandlerEscapes, Logged, Plausible;
    EscapeMeansUnbuilt(env, input);
    var built := ErrorEvent(env, input);
    ghost var taken;
    var recorded;
    recorded, taken := RecordEvent(env, built, log, answers);
    schedule := HandlerPath(env, s, before, pid, u, input, taken, recorded.Ok?);
    LoggedFile(env, u, pid, built, taken, recorded.Ok?);
    ghost var t := Logged(env, u, pid, built, taken, recorded.Ok?);
    LeadsTo(env, s, schedule, pid, At(t, pid, input, if built.Err? then AfterHandler(env, input) else Blocked));
    return if HandlerEscapes(env, input) then 1 else 2, schedule;
  }

  /**
   * `main`: decide, record, print; on any exception record an error event if possible and print nothing. The printed
   * decision and the exit code are returned; `loads` says whether the audit policy could be loaded. From any state of
   * the protocol with the same ledger and log and a free lock, the call is one schedule of one new process: it ends in
   * the phase of the exit code, with this ledger, this log and, if a decision was printed, that print last.
   */
  method RunHook(env: Env, input: Input, ledger: Ledger, log: AuditFile, loads: bool, storage: Storage,
                 answers: LogAnswers, errorAnswers: LogAnswers, ghost pid: nat, ghost s: State)
    returns (printed: Option<Decision>, code: nat, ghost schedule: Schedule)
    requires ledger.Valid()
    requires pid !in s.runs && s.lock.None? && s.ledger == ledger.rows && s.file == log.content
    modifies ledger, log
    ensures ledger.Valid() && old(log.content) <= log.content
    ensures printed.Some? <==> code == 0
    ensures By(schedule, pid)
    ensures var t := Exec(env, s, schedule);
            && t.ledger == ledger.rows && t.file == log.content && t.lock.None?
            && pid in t.runs && t.runs[pid].input == input && ExitCode(t.runs[pid].phase) == Some(code)
            && (printed.Some? ==> t.history != [] && t.history[|t.history| - 1] == Printed(pid, printed.value))
    ensures ledger.rows == old(ledger.rows)
            || (HighImpact(env, input) && Approve(env, input).Consume?
                && ledger.rows == old(ledger.rows) + [Approve(env, input).row])
    ensures printed.Some? ==>
              !printed.value.verdict.RequireApproval?
              && DecisionEvent(env, input, printed.value).Ok?
              && log.content == old(log.content) + Line(env.g, DecisionEvent(env, input, printed.value).value)
    ensures printed.Some? && HighImpact(env, input) && printed.value.verdict.Allow? ==>
              Approve(env, input).Consume? && printed.value == GrantedDecision(Approve(env, input).row)
              && ledger.rows == old(ledger.rows) + [Approve(env, input).row]
  {
    hide Decide, Approve, HighImpact, DecisionEvent, ErrorEvent, Line, Fits, By, Exec, Leads, Concluded, HandlerEscapes,
         Logged, Plausible;
    if !loads {
      schedule := UnloadedPath(env, s, pid, input);
      LeadsTo(env, s, schedule, pid, At(s, pid, input, Blocked));
      return None, 2, schedule;
    }
    var decision := DecideCall(env, input, ledger, storage);
    schedule := DecidePath(env, s, pid, input, storage);
    ghost var u := LedgerAfter(env, s, pid, input, storage);
    if decision.Ok? {
      var built := DecisionEvent(env, input, decision.value);
      var recorded, taken := RecordEvent(env, built, log, answers);
      schedule := AuditPath(env, s, schedule, pid, u, input, decision.value, taken, recorded.Ok?);
      LoggedFile(env, u, pid, built, taken, recorded.Ok?);
      u := Logged(env, u, pid, built, taken, recorded.Ok?);
      if recorded.Ok? {
        schedule := PrintPath(env, s, schedule, pid, u, input, decision.value);
        u := u.(history := u.history + [Printed(pid, decision.value)]);
        LeadsTo(env, s, schedule, pid, At(u, pid, input, Finished));
        return Some(decision.value), 0, schedule;
      }
    }
    code, schedule := HandleError(env, input, log, errorAnswers, pid, s, schedule, u);
    return None, code, schedule;
  }

  lemma LeadsTo(env: Env, s: State, schedule: Schedule, pid: nat, t: State)
    requires Leads(env, s, schedule, pid, t)
    ensures By(schedule, pid) && Exec(env, s, schedule) == t
  {
  }
}
