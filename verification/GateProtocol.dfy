// Any number of gate processes sharing one ledger and one audit log, interleaved in any order, each able to
// fail or crash between any two steps.
module GateProtocol {
  import opened Wrappers
  import opened ApprovalCore
  import opened SignedApproval
  import opened RuntimeAudit
  import opened PretoolGate

  // ---------------------------------------------------------------- states

  /** Where a process is in `main`. */
  datatype Phase =
    | Start
    | Loaded                                            // the audit policy is loaded
    | Approving                                         // evaluation asked for a bound approval
    | Consuming(row: Row)                               // about to run the ledger transaction
    | Auditing(decision: Decision)                      // about to record the decision
    | Writing(decision: Decision, event: Event)         // holds the log's lock
    | Recorded(decision: Decision)                      // record_event has returned
    | Failing                                           // in the exception handler
    | ErrorWriting(event: Event)                        // holds the lock for the error event
    | Finished                                          // printed a decision, exit code 0
    | Blocked                                           // printed no decision, exit code 2
    | Escaped                                           // an exception left the handler, exit code 1
    | Crashed                                           // killed

  datatype Run = Run(input: Input, phase: Phase)

  /** What has happened, in order. */
  datatype Observation =
    | Committed(pid: nat, row: Row)
    | Audited(pid: nat, event: Event)
    | Printed(pid: nat, decision: Decision)

  /** `chunks` is the history of locked appends behind the text of `file`. */
  datatype State = State(
    runs: map<nat, Run>, ledger: seq<Row>, file: string, chunks: seq<Chunk>, lock: Option<nat>,
    history: seq<Observation>)

  const INITIAL := State(map[], [], "", [], None, [])

  /**
   * `Fault` is an exception at the current step, `caught` when it is of the two kinds the exception handler catches
   * around its own audit record; `CommitThenFault` one that the process sees although its
   * transaction was committed; `Write` is one short write.
   */
  datatype Action = Spawn(input: Input) | Advance | Write(count: nat) | Fault(caught: bool) | CommitThenFault | Crash

  // ---------------------------------------------------------------- transitions

  function Goto(s: State, pid: nat, phase: Phase): State
    requires pid in s.runs
  {
    s.(runs := s.runs[pid := s.runs[pid].(phase := phase)])
  }

  function Release(s: State, pid: nat): State {
    if s.lock == Some(pid) then s.(lock := None) else s
  }

  function Commit(s: State, pid: nat, row: Row, next: Phase): State
    requires pid in s.runs
  {
    Goto(s.(ledger := s.ledger + [row], history := s.history + [Committed(pid, row)]), pid, next)
  }

  function Transact(s: State, pid: nat, row: Row): State
    requires pid in s.runs
  {
    if Conflicts(s.ledger, row) then Goto(s, pid, Auditing(AfterConsume(s.ledger, row)))
    else Commit(s, pid, row, Auditing(AfterConsume(s.ledger, row)))
  }

  /** Take the lock and pass the size check, or fail. */
  function OpenLog(env: Env, s: State, pid: nat, e: Event, next: Phase, otherwise: Phase): State
    requires pid in s.runs
  {
    if s.lock.Some? then s
    else if !Fits(s.file, Line(env.g, e), env.audit.maximumFileBytes) then Goto(s, pid, otherwise)
    else Goto(s.(lock := Some(pid), chunks := s.chunks + [Chunk(e, 0)]), pid, next)
  }

  /** The last append has written its whole line. */
  predicate LineOut(env: Env, s: State) {
    s.chunks != [] && Complete(env.g, s.chunks[|s.chunks| - 1])
  }

  /** Sync, unlock and return from `record_event`. */
  function CloseLog(env: Env, s: State, pid: nat, e: Event, next: Phase): State
    requires pid in s.runs
  {
    if !LineOut(env, s) then s
    else Goto(s.(lock := None, history := s.history + [Audited(pid, e)]), pid, next)
  }

  function DecisionEvent(env: Env, input: Input, d: Decision): Result<Event, Unevaluable> {
    BuildEvent(env.g, env.audit, input.provider, input.event, VerdictName(d.verdict), ReasonCode(d.reason), input.now,
               d.requestRef, d.approvalId)
  }

  function ErrorEvent(env: Env, input: Input): Result<Event, Unevaluable> {
    BuildEvent(env.g, env.audit, input.provider, input.event, "error", "evaluation_error", input.now, None, None)
  }

  /** Recording the error raises something the handler does not catch: an identifier has no encoding. */
  predicate HandlerEscapes(env: Env, input: Input) {
    && env.g.time(input.now).Some? && "error" in env.audit.requiredDecisions
    && "evaluation_error" in env.audit.allowedReasons
    && !Encodable(env.g, input.event, None)
  }

  /** Where the handler leads when the error event cannot be built. */
  function AfterHandler(env: Env, input: Input): Phase {
    if HandlerEscapes(env, input) then Escaped else Blocked
  }

  function AfterEvaluate(env: Env, input: Input): Phase {
    match Decide(env, input.policy, input.engine, input.event)
    case Err(_) => Failing
    case Ok(d) => if d.verdict.RequireApproval? then Approving else Auditing(d)
  }

  ghost function AfterApprove(env: Env, input: Input): Phase {
    match Approve(env, input)
    case Fails => Failing
    case Decided(d) => Auditing(d)
    case Consume(row) => Consuming(row)
  }

  /** The process's own next step. */
  ghost function Proceed(env: Env, s: State, pid: nat): State
    requires pid in s.runs
  {
    var input := s.runs[pid].input;
    match s.runs[pid].phase
    case Start => Goto(s, pid, Loaded)
    case Loaded => Goto(s, pid, AfterEvaluate(env, input))
    case Approving => Goto(s, pid, AfterApprove(env, input))
    case Consuming(row) => Transact(s, pid, row)
    case Auditing(d) =>
      (match DecisionEvent(env, input, d)
       case Err(_) => Goto(s, pid, Failing)
       case Ok(e) => OpenLog(env, s, pid, e, Writing(d, e), Failing))
    case Writing(d, e) => CloseLog(env, s, pid, e, Recorded(d))
    case Recorded(d) => Goto(s.(history := s.history + [Printed(pid, d)]), pid, Finished)
    case Failing =>
      (match ErrorEvent(env, input)
       case Err(_) => Goto(s, pid, AfterHandler(env, input))
       case Ok(e) => OpenLog(env, s, pid, e, ErrorWriting(e), Blocked))
    case ErrorWriting(e) => CloseLog(env, s, pid, e, Blocked)
    case _ => s
  }

  /** An exception: the first one leads to the handler, one in the handler out of it. */
  function Throw(s: State, pid: nat, caught: bool): State
    requires pid in s.runs
  {
    match s.runs[pid].phase
    case Start => Goto(s, pid, Blocked)
    case Failing | ErrorWriting(_) => Goto(Release(s, pid), pid, if caught then Blocked else Escaped)
    case Finished | Blocked | Escaped | Crashed => s
    case _ => Goto(Release(s, pid), pid, Failing)
  }

  /** One short write by the process that holds the lock. */
  function WriteSome(env: Env, s: State, count: nat): State {
    if s.chunks == [] then s
    else
      var n := |s.chunks| - 1;
      var last := s.chunks[n];
      var line := Line(env.g, last.event);
      if last.taken + count > |line| then s
      else s.(file := s.file + line[last.taken..last.taken + count],
              chunks := s.chunks[..n] + [Chunk(last.event, last.taken + count)])
  }

  predicate Over(phase: Phase) { phase.Finished? || phase.Blocked? || phase.Escaped? || phase.Crashed? }

  predicate HoldsLock(phase: Phase) { phase.Writing? || phase.ErrorWriting? }

  /** One action of one process; an action that is not possible changes nothing. */
  ghost function Apply(env: Env, s: State, pid: nat, a: Action): State {
    match a
    case Spawn(input) => if pid in s.runs then s else s.(runs := s.runs[pid := Run(input, Start)])
    case Advance => if pid in s.runs then Proceed(env, s, pid) else s
    case Write(count) => if pid in s.runs && HoldsLock(s.runs[pid].phase) then WriteSome(env, s, count) else s
    case Fault(caught) => if pid in s.runs then Throw(s, pid, caught) else s
    case CommitThenFault =>
      if pid in s.runs && s.runs[pid].phase.Consuming? && !Conflicts(s.ledger, s.runs[pid].phase.row)
      then Commit(s, pid, s.runs[pid].phase.row, Failing) else s
    case Crash => if pid in s.runs && !Over(s.runs[pid].phase) then Goto(Release(s, pid), pid, Crashed) else s
  }

  type Schedule = seq<(nat, Action)>

  /** The state after a schedule: every interleaving of every number of processes is one. */
  ghost function Exec(env: Env, s: State, schedule: Schedule): State {
    if schedule == [] then s
    else
      var last := schedule[|schedule| - 1];
      Apply(env, Exec(env, s, schedule[..|schedule| - 1]), last.0, last.1)
  }

  ghost predicate Reachable(env: Env, s: State) {
    exists schedule :: s == Exec(env, INITIAL, schedule)
  }

  // ---------------------------------------------------------------- what every step does to the ledger

  /** The rows committed so far, in order. */
  function CommittedRows(history: seq<Observation>): seq<Row> {
    if history == [] then []
    else
      var last := history[|history| - 1];
      CommittedRows(history[..|history| - 1]) + (if last.Committed? then [last.row] else [])
  }

  ghost predicate LedgerInv(s: State) {
    DistinctColumns(s.ledger) && s.ledger == CommittedRows(s.history)
  }

  /** A step leaves the history alone or adds one observation; the ledger grows with each commit only. */
  ghost predicate Grows(s: State, t: State) {
    || (t.history == s.history && t.ledger == s.ledger)
    || (|t.history| == |s.history| + 1 && t.history[..|s.history|] == s.history
        && if t.history[|s.history|].Committed?
           then t.ledger == s.ledger + [t.history[|s.history|].row]
                && !Conflicts(s.ledger, t.history[|s.history|].row)
           else t.ledger == s.ledger)
  }

  lemma ApplyGrows(env: Env, s: State, pid: nat, a: Action)
    ensures Grows(s, Apply(env, s, pid, a))
  {
    hide Conflicts, AfterConsume, AfterEvaluate, AfterApprove, DecisionEvent, ErrorEvent, AfterHandler, Fits, LineOut, WriteSome;
    var t := Apply(env, s, pid, a);
    if a.Write? {
      WriteKeeps(env, s, a.count);
    }
    assert |t.history| == |s.history| + 1 ==> t.history[..|s.history|] == s.history;
  }

  lemma WriteKeeps(env: Env, s: State, count: nat)
    ensures var t := WriteSome(env, s, count);
            t.runs == s.runs && t.ledger == s.ledger && t.history == s.history && t.lock == s.lock
  {
  }

  lemma GrowthKeepsLedger(s: State, t: State)
    requires LedgerInv(s) && Grows(s, t)
    ensures LedgerInv(t) && s.ledger <= t.ledger && s.history <= t.history
  {
    hide DistinctColumns, Conflicts;
    if t.history != s.history {
      var last := t.history[|s.history|];
      if last.Committed? {
        InsertKeepsDistinct(s.ledger, last.row);
      }
      assert t.history[..|t.history| - 1] == s.history;
    }
  }

  lemma {:induction false} LedgerAlways(env: Env, s: State, schedule: Schedule)
    requires LedgerInv(s)
    ensures LedgerInv(Exec(env, s, schedule))
    ensures s.ledger <= Exec(env, s, schedule).ledger && s.history <= Exec(env, s, schedule).history
  {
    hide LedgerInv, Apply, Grows;
    if schedule != [] {
      var n := |schedule| - 1;
      var before := Exec(env, s, schedule[..n]);
      LedgerAlways(env, s, schedule[..n]);
      ApplyGrows(env, before, schedule[n].0, schedule[n].1);
      GrowthKeepsLedger(before, Exec(env, s, schedule));
    }
  }

  lemma InitialLedger()
    ensures LedgerInv(INITIAL)
  {
  }
}
