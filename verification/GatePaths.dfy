// Schedules of a single process: what its steps add up to when nothing else runs between them.
module GatePaths {
  import opened Wrappers
  import opened ApprovalCore
  import opened SignedApproval
  import opened RuntimeAudit
  import opened PretoolGate
  import opened GateProtocol
  import opened GateProgress

  predicate By(schedule: Schedule, pid: nat) {
    forall i :: 0 <= i < |schedule| ==> schedule[i].0 == pid
  }

  /** From one state to another by steps of one process. */
  ghost predicate Leads(env: Env, s: State, schedule: Schedule, pid: nat, t: State) {
    By(schedule, pid) && Exec(env, s, schedule) == t
  }

  lemma Stay(env: Env, s: State, pid: nat)
    ensures Leads(env, s, [], pid, s)
  {
  }

  lemma Then(env: Env, s: State, schedule: Schedule, pid: nat, t: State, a: Action) returns (longer: Schedule)
    requires Leads(env, s, schedule, pid, t)
    ensures Leads(env, s, longer, pid, Apply(env, t, pid, a))
  {
    hide Apply, Exec;
    longer := schedule + [(pid, a)];
    ExecSnoc(env, s, schedule, pid, a);
  }

  // ---------------------------------------------------------------- up to the decision

  /** The decision of the `try` block against a ledger, or its exception. */
  ghost function Concluded(env: Env, input: Input, rows: seq<Row>, storage: Storage): Result<Decision, GateError> {
    match Decide(env, input.policy, input.engine, input.event)
    case Err(_) => Err(GateError)
    case Ok(d) =>
      if !d.verdict.RequireApproval? then Ok(d)
      else match Approve(env, input)
        case Fails => Err(GateError)
        case Decided(refusal) => Ok(refusal)
        case Consume(row) => if storage.Available? then Ok(AfterConsume(rows, row)) else Err(GateError)
  }

  /** A row was committed, whether or not the process learns of it. */
  ghost predicate Commits(env: Env, input: Input, rows: seq<Row>, storage: Storage) {
    && HighImpact(env, input) && Approve(env, input).Consume?
    && !storage.RollsBack? && !Conflicts(rows, Approve(env, input).row)
  }

  ghost function LedgerAfter(env: Env, s: State, pid: nat, input: Input, storage: Storage): State {
    if Commits(env, input, s.ledger, storage) then Charged(s, pid, Approve(env, input).row) else s
  }

  function DecidedPhase(r: Result<Decision, GateError>): Phase {
    match r case Ok(d) => Auditing(d) case Err(_) => Failing
  }

  lemma EvaluatePath(env: Env, s: State, pid: nat, input: Input) returns (schedule: Schedule)
    requires pid !in s.runs
    ensures Leads(env, s, schedule, pid, At(s, pid, input, AfterEvaluate(env, input)))
  {
    hide Exec, By, Leads, AfterEvaluate;
    Stay(env, s, pid);
    schedule := Then(env, s, [], pid, s, Spawn(input));
    schedule := Then(env, s, schedule, pid, At(s, pid, input, Start), Advance);
    Overwrites(s, pid, input, Start, Loaded);
    schedule := Then(env, s, schedule, pid, At(s, pid, input, Loaded), Advance);
    Overwrites(s, pid, input, Loaded, AfterEvaluate(env, input));
  }

  /** The ledger transaction: it commits, fails and rolls back, or commits and fails. */
  lemma ConsumePath(env: Env, s: State, before: Schedule, pid: nat, u: State, input: Input, row: Row, storage: Storage)
    returns (schedule: Schedule)
    requires Leads(env, s, before, pid, At(u, pid, input, Consuming(row))) && u.lock.None?
    ensures var commits := !storage.RollsBack? && !Conflicts(u.ledger, row);
            Leads(env, s, schedule, pid,
                  At(if commits then Charged(u, pid, row) else u, pid, input,
                     if storage.Available? then Auditing(AfterConsume(u.ledger, row)) else Failing))
  {
    hide Exec, By, Leads, Conflicts, AfterConsume;
    var consuming := At(u, pid, input, Consuming(row));
    var next := if storage.Available? then Auditing(AfterConsume(u.ledger, row)) else Failing;
    Overwrites(u, pid, input, Consuming(row), next);
    Overwrites(Charged(u, pid, row), pid, input, Consuming(row), next);
    var commits := !storage.RollsBack? && !Conflicts(u.ledger, row);
    var a := if storage.Available? then Advance else if commits then CommitThenFault else Fault(true);
    schedule := Then(env, s, before, pid, consuming, a);
  }

  lemma DecidePath(env: Env, s: State, pid: nat, input: Input, storage: Storage) returns (schedule: Schedule)
    requires pid !in s.runs && s.lock.None?
    ensures Leads(env, s, schedule, pid,
                  At(LedgerAfter(env, s, pid, input, storage), pid, input,
                     DecidedPhase(Concluded(env, input, s.ledger, storage))))
  {
    hide Exec, By, Leads, Conflicts, AfterConsume, Decide, Approve, Charged;
    schedule := EvaluatePath(env, s, pid, input);
    if HighImpact(env, input) {
      schedule := Then(env, s, schedule, pid, At(s, pid, input, Approving), Advance);
      Overwrites(s, pid, input, Approving, AfterApprove(env, input));
      if Approve(env, input).Consume? {
        schedule := ConsumePath(env, s, schedule, pid, s, input, Approve(env, input).row, storage);
      }
    }
  }

  // ---------------------------------------------------------------- recording

  /** The log after one locked append that wrote `taken` characters and was recorded or given up. */
  function Appended(s: State, pid: nat, e: Event, taken: nat, line: string, done: bool): State
    requires taken <= |line|
  {
    s.(chunks := s.chunks + [Chunk(e, taken)], file := s.file + line[..taken],
       history := if done then s.history + [Audited(pid, e)] else s.history)
  }

  lemma OpenPath(env: Env, s: State, before: Schedule, pid: nat, u: State, input: Input, phase: Phase, e: Event,
                 holding: Phase, taken: nat)
    returns (schedule: Schedule)
    requires Leads(env, s, before, pid, At(u, pid, input, phase)) && u.lock.None?
    requires Apply(env, At(u, pid, input, phase), pid, Advance) == At(Opened(u, pid, e, 0, Line(env.g, e)), pid, input, holding)
    requires HoldsLock(holding) && taken <= |Line(env.g, e)|
    ensures Leads(env, s, schedule, pid, At(Opened(u, pid, e, taken, Line(env.g, e)), pid, input, holding))
  {
    hide Exec, By, Leads, Line, Apply, At, Opened;
    var line := Line(env.g, e);
    schedule := Then(env, s, before, pid, At(u, pid, input, phase), Advance);
    schedule := Then(env, s, schedule, pid, At(Opened(u, pid, e, 0, line), pid, input, holding), Write(taken));
    ToWritten(env, u, pid, input, e, holding, taken);
  }

  /** Close the log after a whole line, or give the append up. */
  lemma ClosePath(env: Env, s: State, before: Schedule, pid: nat, u: State, input: Input, e: Event, holding: Phase,
                  taken: nat, done: bool)
    returns (schedule: Schedule)
    requires u.lock.None? && taken <= |Line(env.g, e)| && (done ==> taken == |Line(env.g, e)|)
    requires holding == ErrorWriting(e) || (holding.Writing? && holding.event == e)
    requires Leads(env, s, before, pid, At(Opened(u, pid, e, taken, Line(env.g, e)), pid, input, holding))
    ensures var next := if holding.ErrorWriting? then Blocked else if done then Recorded(holding.decision) else Failing;
            Leads(env, s, schedule, pid, At(Appended(u, pid, e, taken, Line(env.g, e), done), pid, input, next))
  {
    hide Exec, By, Leads, Line;
    var next := if holding.ErrorWriting? then Blocked else if done then Recorded(holding.decision) else Failing;
    schedule := Then(env, s, before, pid, At(Opened(u, pid, e, taken, Line(env.g, e)), pid, input, holding),
                     if done then Advance else Fault(true));
    Overwrites(Appended(u, pid, e, taken, Line(env.g, e), done), pid, input, holding, next);
  }

  /** What one `record_event` leaves in the log: nothing unless the event is built and has room. */
  function Logged(env: Env, s: State, pid: nat, built: Result<Event, Unevaluable>, taken: nat, done: bool): State {
    match built
    case Err(_) => s
    case Ok(e) =>
      var line := Line(env.g, e);
      if Fits(s.file, line, env.audit.maximumFileBytes) && taken <= |line| then Appended(s, pid, e, taken, line, done) else s
  }

  /** The answers `record_event` can get. */
  ghost predicate Plausible(env: Env, content: string, built: Result<Event, Unevaluable>, taken: nat, done: bool) {
    match built
    case Err(_) => !done && taken == 0
    case Ok(e) =>
      && taken <= |Line(env.g, e)| && (done ==> taken == |Line(env.g, e)|)
      && (!Fits(content, Line(env.g, e), env.audit.maximumFileBytes) ==> !done && taken == 0)
  }

  lemma LoggedFile(env: Env, s: State, pid: nat, built: Result<Event, Unevaluable>, taken: nat, done: bool)
    requires Plausible(env, s.file, built, taken, done)
    ensures built.Ok? ==> taken <= |Line(env.g, built.value)|
    ensures Logged(env, s, pid, built, taken, done).file
         == s.file + if built.Ok? then Line(env.g, built.value)[..taken] else ""
    ensures Logged(env, s, pid, built, taken, done).ledger == s.ledger
    ensures Logged(env, s, pid, built, taken, done).lock == s.lock
  {
    hide Line, Fits;
    assert s.file + "" == s.file;
    assert built.Ok? && taken == 0 ==> Line(env.g, built.value)[..taken] == "";
  }

  lemma AuditPath(env: Env, s: State, before: Schedule, pid: nat, u: State, input: Input, d: Decision, taken: nat,
                  done: bool)
    returns (schedule: Schedule)
    requires Leads(env, s, before, pid, At(u, pid, input, Auditing(d))) && u.lock.None?
    requires Plausible(env, u.file, DecisionEvent(env, input, d), taken, done)
    ensures Leads(env, s, schedule, pid,
                  At(Logged(env, u, pid, DecisionEvent(env, input, d), taken, done), pid, input,
                     if done then Recorded(d) else Failing))
  {
    hide Exec, By, Leads, Line, DecisionEvent, Fits, Appended, Opened, At, OpenLog;
    var event := DecisionEvent(env, input, d);
    if event.Ok? && Fits(u.file, Line(env.g, event.value), env.audit.maximumFileBytes) {
      var e := event.value;
      OpensLog(env, u, pid, input, Auditing(d), e, Writing(d, e), Failing);
      AuditingOpens(env, u, pid, input, d, e);
      schedule := OpenPath(env, s, before, pid, u, input, Auditing(d), e, Writing(d, e), taken);
      schedule := ClosePath(env, s, schedule, pid, u, input, e, Writing(d, e), taken, done);
    } else {
      schedule := Then(env, s, before, pid, At(u, pid, input, Auditing(d)), Advance);
      if event.Ok? {
        AuditingOpens(env, u, pid, input, d, event.value);
        RefusesLog(env, u, pid, input, Auditing(d), event.value, Writing(d, event.value), Failing);
      } else {
        Unrecorded(env, u, pid, input, d);
      }
    }
  }

  lemma OpensLog(env: Env, u: State, pid: nat, input: Input, phase: Phase, e: Event, next: Phase, otherwise: Phase)
    requires u.lock.None? && Fits(u.file, Line(env.g, e), env.audit.maximumFileBytes)
    ensures OpenLog(env, At(u, pid, input, phase), pid, e, next, otherwise)
         == At(Opened(u, pid, e, 0, Line(env.g, e)), pid, input, next)
  {
    hide Fits, Line;
    var line := Line(env.g, e);
    assert line[..0] == "" && u.file + "" == u.file;
    Overwrites(Opened(u, pid, e, 0, line), pid, input, phase, next);
  }

  lemma RefusesLog(env: Env, u: State, pid: nat, input: Input, phase: Phase, e: Event, next: Phase, otherwise: Phase)
    requires u.lock.None? && !Fits(u.file, Line(env.g, e), env.audit.maximumFileBytes)
    ensures OpenLog(env, At(u, pid, input, phase), pid, e, next, otherwise) == At(u, pid, input, otherwise)
  {
    hide Fits, Line;
    Overwrites(u, pid, input, phase, otherwise);
  }

  lemma Unrecorded(env: Env, u: State, pid: nat, input: Input, d: Decision)
    requires DecisionEvent(env, input, d).Err?
    ensures Apply(env, At(u, pid, input, Auditing(d)), pid, Advance) == At(u, pid, input, Failing)
  {
    hide DecisionEvent, OpenLog;
    Overwrites(u, pid, input, Auditing(d), Failing);
  }

  lemma AuditingOpens(env: Env, u: State, pid: nat, input: Input, d: Decision, e: Event)
    requires DecisionEvent(env, input, d) == Ok(e)
    ensures Apply(env, At(u, pid, input, Auditing(d)), pid, Advance)
         == OpenLog(env, At(u, pid, input, Auditing(d)), pid, e, Writing(d, e), Failing)
  {
    hide DecisionEvent, OpenLog;
  }

  lemma FailingOpens(env: Env, u: State, pid: nat, input: Input, e: Event)
    requires ErrorEvent(env, input) == Ok(e)
    ensures Apply(env, At(u, pid, input, Failing), pid, Advance)
         == OpenLog(env, At(u, pid, input, Failing), pid, e, ErrorWriting(e), Blocked)
  {
    hide ErrorEvent, OpenLog;
  }

  lemma HandlerPath(env: Env, s: State, before: Schedule, pid: nat, u: State, input: Input, taken: nat, done: bool)
    returns (schedule: Schedule)
    requires Leads(env, s, before, pid, At(u, pid, input, Failing)) && u.lock.None?
    requires Plausible(env, u.file, ErrorEvent(env, input), taken, done)
    ensures Leads(env, s, schedule, pid,
                  At(Logged(env, u, pid, ErrorEvent(env, input), taken, done), pid, input,
                     if ErrorEvent(env, input).Err? then AfterHandler(env, input) else Blocked))
  {
    hide Exec, By, Leads, Line, ErrorEvent, Fits, Appended, Opened, AfterHandler, OpenLog;
    var event := ErrorEvent(env, input);
    if event.Ok? && Fits(u.file, Line(env.g, event.value), env.audit.maximumFileBytes) {
      var e := event.value;
      OpensLog(env, u, pid, input, Failing, e, ErrorWriting(e), Blocked);
      FailingOpens(env, u, pid, input, e);
      schedule := OpenPath(env, s, before, pid, u, input, Failing, e, ErrorWriting(e), taken);
      schedule := ClosePath(env, s, schedule, pid, u, input, e, ErrorWriting(e), taken, done);
    } else {
      schedule := Then(env, s, before, pid, At(u, pid, input, Failing), Advance);
      if event.Ok? {
        FailingOpens(env, u, pid, input, event.value);
        RefusesLog(env, u, pid, input, Failing, event.value, ErrorWriting(event.value), Blocked);
      } else {
        Overwrites(u, pid, input, Failing, AfterHandler(env, input));
      }
    }
  }

  lemma PrintPath(env: Env, s: State, before: Schedule, pid: nat, u: State, input: Input, d: Decision)
    returns (schedule: Schedule)
    requires Leads(env, s, before, pid, At(u, pid, input, Recorded(d)))
    ensures Leads(env, s, schedule, pid, At(u.(history := u.history + [Printed(pid, d)]), pid, input, Finished))
  {
    hide Exec, By, Leads;
    schedule := Then(env, s, before, pid, At(u, pid, input, Recorded(d)), Advance);
    ToFinished(env, u, pid, input, d);
  }

  /** The audit policy cannot be loaded. */
  lemma UnloadedPath(env: Env, s: State, pid: nat, input: Input) returns (schedule: Schedule)
    requires pid !in s.runs
    ensures Leads(env, s, schedule, pid, At(s, pid, input, Blocked))
  {
    hide Exec, By, Leads;
    Stay(env, s, pid);
    schedule := Then(env, s, [], pid, s, Spawn(input));
    schedule := Then(env, s, schedule, pid, At(s, pid, input, Start), Fault(true));
    Overwrites(s, pid, input, Start, Blocked);
  }
}
