// Safety of the gate over every schedule: single use of approvals, and what comes before a printed allow.
module GateSafety {
  import opened Wrappers
  import opened ApprovalCore
  import opened SignedApproval
  import opened HighImpactRequest
  import opened RuntimeAudit
  import opened PretoolGate
  import opened GateProtocol

  // ---------------------------------------------------------------- what a run has earned

  /** An allow that rests on a consumed approval. */
  predicate Granting(d: Decision) { d.verdict.Allow? && d.reason.ApprovalConsumed? }

  predicate IsCommit(o: Observation, pid: nat, d: Decision) {
    && o.Committed? && o.pid == pid
    && d.requestRef == Some(o.row.requestDigest) && d.approvalId == Some(o.row.approvalId)
  }

  predicate IsAllowRecord(o: Observation, pid: nat, d: Decision) {
    o.Audited? && o.pid == pid && o.event.decision == "allow" && o.event.requestRef == d.requestRef
  }

  /** Among the first `n` observations the run committed the row of its decision. */
  ghost predicate Consumed(h: seq<Observation>, n: nat, pid: nat, d: Decision)
    requires n <= |h|
  {
    exists i :: 0 <= i < n && IsCommit(h[i], pid, d)
  }

  /** ... and afterwards recorded the allow in the audit log. */
  ghost predicate Justified(h: seq<Observation>, n: nat, pid: nat, d: Decision)
    requires n <= |h|
  {
    exists i, j :: 0 <= i < j < n && IsCommit(h[i], pid, d) && IsAllowRecord(h[j], pid, d)
  }

  ghost predicate DecisionOk(env: Env, h: seq<Observation>, pid: nat, input: Input, d: Decision) {
    && !d.verdict.RequireApproval?
    && (Granting(d) ==> Consumed(h, |h|, pid, d))
    && (HighImpact(env, input) && d.verdict.Allow? ==> Granting(d))
  }

  ghost predicate RunOk(env: Env, h: seq<Observation>, pid: nat, run: Run) {
    match run.phase
    case Approving => HighImpact(env, run.input)
    case Consuming(row) => HighImpact(env, run.input) && Approve(env, run.input) == Consume(row)
    case Auditing(d) => DecisionOk(env, h, pid, run.input, d)
    case Writing(d, e) => DecisionOk(env, h, pid, run.input, d) && DecisionEvent(env, run.input, d) == Ok(e)
    case Recorded(d) => DecisionOk(env, h, pid, run.input, d) && (Granting(d) ==> Justified(h, |h|, pid, d))
    case _ => true
  }

  ghost predicate RunsOk(env: Env, s: State) {
    forall pid :: pid in s.runs ==> RunOk(env, s.history, pid, s.runs[pid])
  }

  ghost predicate ObservationOk(env: Env, runs: map<nat, Run>, h: seq<Observation>, n: nat)
    requires n < |h|
  {
    && h[n].pid in runs
    && match h[n]
       case Committed(pid, row) => Approve(env, runs[pid].input) == Consume(row)
       case Audited(pid, e) => true
       case Printed(pid, d) =>
         && runs[pid].phase.Finished?
         && !d.verdict.RequireApproval?
         && (HighImpact(env, runs[pid].input) && d.verdict.Allow? ==> Granting(d))
         && (Granting(d) ==> Justified(h, n, pid, d))
  }

  ghost predicate HistoryOk(env: Env, s: State) {
    && (forall n :: 0 <= n < |s.history| ==> ObservationOk(env, s.runs, s.history, n))
    && forall m, n :: 0 <= m < n < |s.history| && s.history[m].Printed? && s.history[n].Printed? ==>
        s.history[m].pid != s.history[n].pid
  }

  ghost predicate Safe(env: Env, s: State) { RunsOk(env, s) && HistoryOk(env, s) }

  // ---------------------------------------------------------------- one step

  /** A step of `pid` touches no other process, changes no input, and moves no finished process. */
  ghost predicate Framed(s: State, t: State, pid: nat) {
    && (forall p :: p in t.runs ==> p in s.runs || (p == pid && t.runs[p].phase.Start?))
    && forall p :: p in s.runs ==>
        p in t.runs && t.runs[p].input == s.runs[p].input
        && ((p == pid && !s.runs[p].phase.Finished?) || t.runs[p] == s.runs[p])
  }

  /** At most the mover's own phase changes. */
  ghost predicate Moves(s: State, t: State, pid: nat) {
    || t.runs == s.runs
    || (pid in s.runs && pid in t.runs && !s.runs[pid].phase.Finished?
        && t.runs == s.runs[pid := s.runs[pid].(phase := t.runs[pid].phase)])
    || (pid !in s.runs && pid in t.runs && t.runs[pid].phase.Start? && t.runs == s.runs[pid := t.runs[pid]])
  }

  lemma ProceedMoves(env: Env, s: State, pid: nat)
    requires pid in s.runs
    ensures Moves(s, Proceed(env, s, pid), pid)
  {
    hide Conflicts, AfterConsume, AfterEvaluate, AfterApprove, DecisionEvent, ErrorEvent, HandlerEscapes, Fits, LineOut;
  }

  lemma ApplyMoves(env: Env, s: State, pid: nat, a: Action)
    ensures Moves(s, Apply(env, s, pid, a), pid)
  {
    hide Conflicts, Proceed, WriteSome;
    if a.Write? {
      WriteKeeps(env, s, a.count);
    } else if a.Advance? && pid in s.runs {
      ProceedMoves(env, s, pid);
    }
  }

  lemma ApplyFrames(env: Env, s: State, pid: nat, a: Action)
    ensures Framed(s, Apply(env, s, pid, a), pid)
  {
    hide Apply;
    ApplyMoves(env, s, pid, a);
  }

  lemma Later(h: seq<Observation>, k: seq<Observation>, n: nat, pid: nat, d: Decision)
    requires h <= k && n <= |h|
    ensures Consumed(h, |h|, pid, d) ==> Consumed(k, |k|, pid, d)
    ensures Justified(h, n, pid, d) ==> Justified(k, n, pid, d)
    ensures Justified(h, |h|, pid, d) ==> Justified(k, |k|, pid, d)
  {
    hide IsCommit, IsAllowRecord;
    if Consumed(h, |h|, pid, d) {
      var i :| 0 <= i < |h| && IsCommit(h[i], pid, d);
      assert IsCommit(k[i], pid, d);
    }
    if Justified(h, n, pid, d) {
      var i, j :| 0 <= i < j < n && IsCommit(h[i], pid, d) && IsAllowRecord(h[j], pid, d);
      assert IsCommit(k[i], pid, d) && IsAllowRecord(k[j], pid, d);
    }
    if Justified(h, |h|, pid, d) {
      var i, j :| 0 <= i < j < |h| && IsCommit(h[i], pid, d) && IsAllowRecord(h[j], pid, d);
      assert IsCommit(k[i], pid, d) && IsAllowRecord(k[j], pid, d);
    }
  }

  /** A run that does not move keeps what it has earned. */
  lemma StillOk(env: Env, h: seq<Observation>, k: seq<Observation>, pid: nat, run: Run)
    requires h <= k && RunOk(env, h, pid, run)
    ensures RunOk(env, k, pid, run)
  {
    hide Consumed, Justified, HighImpact, Approve, DecisionEvent;
    if run.phase.Auditing? || run.phase.Writing? || run.phase.Recorded? {
      Later(h, k, |h|, pid, run.phase.decision);
    }
  }

  lemma EvaluatedOk(env: Env, h: seq<Observation>, pid: nat, input: Input)
    ensures RunOk(env, h, pid, Run(input, AfterEvaluate(env, input)))
  {
    hide Consumed, Justified, Approve, DecisionEvent, Decide;
    var r := Decide(env, input.policy, input.engine, input.event);
    if r.Ok? && r.value.verdict.Allow? {
      assert r.value.reason == ReviewedCapability by {
        AllowedExactly(env, input.policy, input.engine, input.event);
      }
    }
  }

  lemma ApprovedOk(env: Env, h: seq<Observation>, pid: nat, input: Input)
    requires HighImpact(env, input)
    ensures RunOk(env, h, pid, Run(input, AfterApprove(env, input)))
  {
    hide Consumed, Justified, DecisionEvent, HighImpact, Approve;
    assert Approve(env, input).Decided? ==> Approve(env, input).decision.verdict.Deny? by {
      DecidedDenies(env, input);
    }
  }

  lemma DecidedDenies(env: Env, input: Input)
    ensures Approve(env, input).Decided? ==> Approve(env, input).decision.verdict.Deny?
  {
    hide Normalized, Prepare, Payload;
  }

  lemma TransactedOk(env: Env, h: seq<Observation>, ledger: seq<Row>, pid: nat, input: Input, row: Row)
    requires HighImpact(env, input)
    ensures Conflicts(ledger, row) ==> RunOk(env, h, pid, Run(input, Auditing(AfterConsume(ledger, row))))
    ensures !Conflicts(ledger, row) ==>
              RunOk(env, h + [Committed(pid, row)], pid, Run(input, Auditing(AfterConsume(ledger, row))))
  {
    hide Justified, DecisionEvent, HighImpact, Conflicts, Approve;
    var k := h + [Committed(pid, row)];
    assert IsCommit(k[|h|], pid, GrantedDecision(row));
  }

  lemma RecordedOk(env: Env, h: seq<Observation>, pid: nat, input: Input, d: Decision, e: Event)
    requires RunOk(env, h, pid, Run(input, Writing(d, e)))
    ensures RunOk(env, h + [Audited(pid, e)], pid, Run(input, Recorded(d)))
  {
    hide HighImpact, Approve;
    var k := h + [Audited(pid, e)];
    Later(h, k, |h|, pid, d);
    if Granting(d) {
      var i :| 0 <= i < |h| && IsCommit(h[i], pid, d);
      assert IsCommit(k[i], pid, d) && IsAllowRecord(k[|h|], pid, d);
    }
  }

  /** The process that moves still satisfies its own obligations. */
  lemma MoverOk(env: Env, s: State, pid: nat, a: Action)
    requires RunsOk(env, s)
    ensures var t := Apply(env, s, pid, a);
            pid in t.runs ==> RunOk(env, t.history, pid, t.runs[pid])
  {
    hide RunOk, Conflicts, AfterConsume, AfterEvaluate, AfterApprove, DecisionEvent, ErrorEvent, HandlerEscapes, Fits, LineOut, WriteSome,
         HighImpact;
    var t := Apply(env, s, pid, a);
    if pid in s.runs {
      var run := s.runs[pid];
      assert RunOk(env, s.history, pid, run);
      ApplyGrows(env, s, pid, a);
      ApplyFrames(env, s, pid, a);
      StillOk(env, s.history, t.history, pid, run);
      if t.runs[pid].phase != run.phase && a.Advance? {
        AdvanceOk(env, s, pid);
      } else if t.runs[pid].phase != run.phase {
        assert Stopped(t.runs[pid].phase) by {
          OtherwiseStops(env, s, pid, a);
        }
        TerminalOk(env, t.history, pid, t.runs[pid]);
      }
    } else if pid in t.runs {
      TerminalOk(env, t.history, pid, t.runs[pid]);
    }
  }

  lemma TerminalOk(env: Env, h: seq<Observation>, pid: nat, run: Run)
    requires run.phase.Start? || run.phase.Loaded? || run.phase.Failing? || run.phase.ErrorWriting? || Over(run.phase)
    ensures RunOk(env, h, pid, run)
  {
  }

  lemma OtherwiseStops(env: Env, s: State, pid: nat, a: Action)
    requires pid in s.runs && !a.Advance?
    ensures var t := Apply(env, s, pid, a);
            pid in t.runs
            && (t.runs[pid] == s.runs[pid] || Stopped(t.runs[pid].phase))
  {
    hide Conflicts, Proceed, WriteSome;
    if a.Write? {
      WriteKeeps(env, s, a.count);
    }
  }

  lemma AdvanceOk(env: Env, s: State, pid: nat)
    requires pid in s.runs && RunOk(env, s.history, pid, s.runs[pid])
    ensures var t := Proceed(env, s, pid);
            pid in t.runs && RunOk(env, t.history, pid, t.runs[pid])
  {
    hide Conflicts, AfterConsume, AfterEvaluate, AfterApprove, ErrorEvent, HandlerEscapes, Fits, LineOut, HighImpact, DecisionOk, Justified,
         Approve, DecisionEvent;
    var run := s.runs[pid];
    match run.phase
    case Loaded => EvaluatedOk(env, s.history, pid, run.input);
    case Approving => ApprovedOk(env, s.history, pid, run.input);
    case Consuming(row) => TransactedOk(env, s.history, s.ledger, pid, run.input, row);
    case Writing(d, e) => RecordedOk(env, s.history, pid, run.input, d, e);
    case _ =>
  }

  lemma RunsStayOk(env: Env, s: State, pid: nat, a: Action)
    requires RunsOk(env, s)
    ensures RunsOk(env, Apply(env, s, pid, a))
  {
    hide RunOk, Apply;
    var t := Apply(env, s, pid, a);
    ApplyGrows(env, s, pid, a);
    ApplyFrames(env, s, pid, a);
    MoverOk(env, s, pid, a);
    forall p | p in t.runs ensures RunOk(env, t.history, p, t.runs[p]) {
      if p != pid {
        StillOk(env, s.history, t.history, p, s.runs[p]);
      }
    }
  }

  // ---------------------------------------------------------------- the history

  /** A new observation is the mover's own, and it is what its phase entitled it to. */
  ghost predicate Entitled(env: Env, s: State, t: State, pid: nat) {
    |t.history| == |s.history| + 1 ==>
      var o := t.history[|s.history|];
      o.pid == pid && pid in s.runs && pid in t.runs
      && (o.Committed? ==> s.runs[pid].phase == Consuming(o.row))
      && (o.Printed? ==> s.runs[pid].phase == Recorded(o.decision) && t.runs[pid].phase.Finished?)
  }

  lemma ApplyEntitled(env: Env, s: State, pid: nat, a: Action)
    ensures Entitled(env, s, Apply(env, s, pid, a), pid)
  {
    hide Conflicts, AfterConsume, AfterEvaluate, AfterApprove, DecisionEvent, ErrorEvent, HandlerEscapes, Fits, LineOut, WriteSome;
    if a.Write? {
      WriteKeeps(env, s, a.count);
    }
  }

  lemma OldObservationOk(env: Env, s: State, t: State, pid: nat, n: nat)
    requires n < |s.history| && s.history <= t.history && Framed(s, t, pid)
    requires ObservationOk(env, s.runs, s.history, n)
    ensures ObservationOk(env, t.runs, t.history, n)
  {
    hide HighImpact, Approve, Justified;
    assert t.history[n] == s.history[n];
    if s.history[n].Printed? {
      Later(s.history, t.history, n, s.history[n].pid, s.history[n].decision);
    }
  }

  lemma NewObservationOk(env: Env, s: State, t: State, pid: nat)
    requires RunsOk(env, s) && Framed(s, t, pid) && Entitled(env, s, t, pid)
    requires s.history <= t.history && |t.history| == |s.history| + 1
    ensures ObservationOk(env, t.runs, t.history, |s.history|)
  {
    hide HighImpact, Approve, Justified, Consumed, DecisionEvent;
    var o := t.history[|s.history|];
    assert RunOk(env, s.history, pid, s.runs[pid]);
    if o.Printed? {
      Later(s.history, t.history, |s.history|, pid, o.decision);
    }
  }

  lemma HistoryStaysOk(env: Env, s: State, pid: nat, a: Action)
    requires Safe(env, s)
    ensures HistoryOk(env, Apply(env, s, pid, a))
  {
    hide Apply, RunsOk, ObservationOk;
    var t := Apply(env, s, pid, a);
    ApplyGrows(env, s, pid, a);
    ApplyFrames(env, s, pid, a);
    ApplyEntitled(env, s, pid, a);
    forall n | 0 <= n < |t.history| ensures ObservationOk(env, t.runs, t.history, n) {
      if n < |s.history| {
        OldObservationOk(env, s, t, pid, n);
      } else {
        NewObservationOk(env, s, t, pid);
      }
    }
    forall m, n | 0 <= m < n < |t.history| && t.history[m].Printed? && t.history[n].Printed?
      ensures t.history[m].pid != t.history[n].pid
    {
      assert t.history[m] == s.history[m];
      if n == |s.history| {
        PrintedIsFinished(env, s, m);
      }
    }
  }

  lemma PrintedIsFinished(env: Env, s: State, m: nat)
    requires HistoryOk(env, s) && m < |s.history| && s.history[m].Printed?
    ensures s.history[m].pid in s.runs && s.runs[s.history[m].pid].phase.Finished?
  {
    hide HighImpact, Justified;
    assert ObservationOk(env, s.runs, s.history, m);
  }

  lemma {:induction false} SafeAlways(env: Env, s: State, schedule: Schedule)
    requires Safe(env, s)
    ensures Safe(env, Exec(env, s, schedule))
  {
    hide Apply, RunsOk, HistoryOk;
    if schedule != [] {
      var n := |schedule| - 1;
      SafeAlways(env, s, schedule[..n]);
      RunsStayOk(env, Exec(env, s, schedule[..n]), schedule[n].0, schedule[n].1);
      HistoryStaysOk(env, Exec(env, s, schedule[..n]), schedule[n].0, schedule[n].1);
    }
  }

  lemma ReachableIsSafe(env: Env, s: State)
    requires Reachable(env, s)
    ensures Safe(env, s) && LedgerInv(s)
  {
    hide Apply, RunOk, ObservationOk, Exec;
    var schedule :| s == Exec(env, INITIAL, schedule);
    SafeAlways(env, INITIAL, schedule);
    InitialLedger();
    LedgerAlways(env, INITIAL, schedule);
  }

  // ---------------------------------------------------------------- theorems

  lemma {:induction false} CommitInLedger(h: seq<Observation>, i: nat)
    requires i < |h| && h[i].Committed?
    ensures h[i].row in CommittedRows(h)
  {
    if i < |h| - 1 {
      CommitInLedger(h[..|h| - 1], i);
    }
  }

  lemma {:induction false} CommitsDistinct(h: seq<Observation>, i: nat, j: nat)
    requires DistinctColumns(CommittedRows(h)) && i < j < |h| && h[i].Committed? && h[j].Committed?
    ensures h[i].row.approvalId != h[j].row.approvalId && h[i].row.requestDigest != h[j].row.requestDigest
  {
    hide DistinctColumns;
    var n := |h| - 1;
    var before := CommittedRows(h[..n]);
    assert before + [] == before;
    if h[n].Committed? {
      InsertKeepsDistinct(before, h[n].row);
    }
    if j < n {
      CommitsDistinct(h[..n], i, j);
    } else {
      CommitInLedger(h[..n], i);
      var k :| 0 <= k < |before| && before[k] == h[i].row;
    }
  }

  /** In every reachable state the ledger holds exactly the committed rows, in order, and no column repeats. */
  lemma LedgerIsHistory(env: Env, s: State)
    requires Reachable(env, s)
    ensures s.ledger == CommittedRows(s.history) && DistinctColumns(s.ledger)
  {
    hide Safe, Reachable, DistinctColumns;
    ReachableIsSafe(env, s);
  }

  /** Single use: no two commits, by whichever processes, share an approval or a request digest. */
  lemma SingleUse(env: Env, s: State, i: nat, j: nat)
    requires Reachable(env, s) && i < j < |s.history| && s.history[i].Committed? && s.history[j].Committed?
    ensures s.history[i].row.approvalId != s.history[j].row.approvalId
    ensures s.history[i].row.requestDigest != s.history[j].row.requestDigest
    ensures s.history[i].pid != s.history[j].pid
  {
    hide Safe, DistinctColumns, Approve, HighImpact, CommittedRows, Justified, Reachable;
    ReachableIsSafe(env, s);
    CommitsDistinct(s.history, i, j);
    CommitRows(env, s, i);
    CommitRows(env, s, j);
  }

  /** A committed row is the one the run's own evaluation offered, bound to its own request. */
  lemma CommitRows(env: Env, s: State, i: nat)
    requires Safe(env, s) && i < |s.history| && s.history[i].Committed?
    ensures s.history[i].pid in s.runs
    ensures Approve(env, s.runs[s.history[i].pid].input) == Consume(s.history[i].row)
    ensures s.history[i].row.requestDigest == env.w.digest(RequestOfRun(env, s.runs[s.history[i].pid].input))
  {
    hide Approve, HighImpact, Justified, RunsOk, RequestOfRun;
    assert ObservationOk(env, s.runs, s.history, i);
    ConsumeIsBound(env, s.runs[s.history[i].pid].input);
  }

  /** Two runs that printed a granted allow used different approvals for different requests. */
  lemma GrantedOnce(env: Env, s: State, m: nat, n: nat)
    requires Reachable(env, s) && m < n < |s.history| && s.history[m].Printed? && s.history[n].Printed?
    requires Granting(s.history[m].decision) && Granting(s.history[n].decision)
    ensures s.history[m].pid != s.history[n].pid
    ensures s.history[m].decision.approvalId != s.history[n].decision.approvalId
    ensures s.history[m].decision.requestRef != s.history[n].decision.requestRef
    ensures s.history[m].pid in s.runs && s.history[n].pid in s.runs
    ensures RequestOfRun(env, s.runs[s.history[m].pid].input) != RequestOfRun(env, s.runs[s.history[n].pid].input)
  {
    hide RunsOk, Approve, HighImpact, Reachable, RequestOfRun;
    ReachableIsSafe(env, s);
    var i, j := PrintedJustified(env, s, m);
    var k, l := PrintedJustified(env, s, n);
    assert s.history[i].pid != s.history[k].pid;
    if i < k {
      SingleUse(env, s, i, k);
    } else {
      SingleUse(env, s, k, i);
    }
    CommitRows(env, s, i);
    CommitRows(env, s, k);
  }

  lemma PrintedJustified(env: Env, s: State, n: nat) returns (i: nat, j: nat)
    requires HistoryOk(env, s) && n < |s.history| && s.history[n].Printed? && Granting(s.history[n].decision)
    ensures i < j < n
    ensures IsCommit(s.history[i], s.history[n].pid, s.history[n].decision)
    ensures IsAllowRecord(s.history[j], s.history[n].pid, s.history[n].decision)
  {
    hide HighImpact, IsCommit, IsAllowRecord;
    assert ObservationOk(env, s.runs, s.history, n);
    i, j :| 0 <= i < j < n && IsCommit(s.history[i], s.history[n].pid, s.history[n].decision)
            && IsAllowRecord(s.history[j], s.history[n].pid, s.history[n].decision);
  }

  /**
   * An allow printed for a high-impact event was preceded by the commit of a ledger row for the digest of that very
   * request, and after it by a completed allow audit event with the same reference; the row is still in the ledger.
   */
  lemma AllowIsEarned(env: Env, s: State, n: nat) returns (i: nat, j: nat)
    requires Reachable(env, s) && n < |s.history| && s.history[n].Printed?
    requires s.history[n].decision.verdict.Allow?
    requires s.history[n].pid in s.runs ==> HighImpact(env, s.runs[s.history[n].pid].input)
    ensures s.history[n].pid in s.runs
    ensures i < j < n && s.history[i].Committed? && s.history[i].pid == s.history[n].pid
    ensures s.history[i].row in s.ledger
    ensures s.history[i].row.requestDigest == env.w.digest(RequestOfRun(env, s.runs[s.history[n].pid].input))
    ensures s.history[j].Audited? && s.history[j].pid == s.history[n].pid && s.history[j].event.decision == "allow"
    ensures s.history[j].event.requestRef == Some(s.history[i].row.requestDigest) == s.history[n].decision.requestRef
  {
    hide RunsOk, Approve, Reachable, RequestOfRun, HighImpact, Consumed, Justified;
    ReachableIsSafe(env, s);
    assert ObservationOk(env, s.runs, s.history, n);
    i, j := PrintedJustified(env, s, n);
    CommitInLedger(s.history, i);
    CommitRows(env, s, i);
  }

  /** Nothing but allow or deny is ever printed. */
  lemma OnlyFinalVerdicts(env: Env, s: State, n: nat)
    requires Reachable(env, s) && n < |s.history| && s.history[n].Printed?
    ensures !s.history[n].decision.verdict.RequireApproval?
  {
    hide RunsOk, Reachable, HighImpact, Justified;
    ReachableIsSafe(env, s);
    assert ObservationOk(env, s.runs, s.history, n);
  }

  // ---------------------------------------------------------------- failure is final

  /** In the exception handler, or over without having printed. */
  predicate Stopped(phase: Phase) {
    phase.Failing? || phase.ErrorWriting? || phase.Blocked? || phase.Escaped? || phase.Crashed?
  }

  lemma StoppedStays(env: Env, s: State, pid: nat, p: nat, a: Action)
    requires pid in s.runs && Stopped(s.runs[pid].phase)
    ensures var t := Apply(env, s, p, a);
            pid in t.runs && Stopped(t.runs[pid].phase)
  {
    hide Conflicts, AfterConsume, AfterEvaluate, AfterApprove, DecisionEvent, ErrorEvent, HandlerEscapes, Fits, LineOut, WriteSome;
    if a.Write? {
      WriteKeeps(env, s, a.count);
    }
  }

  lemma {:induction false} StoppedForever(env: Env, s: State, pid: nat, schedule: Schedule)
    requires pid in s.runs && Stopped(s.runs[pid].phase)
    ensures pid in Exec(env, s, schedule).runs && Stopped(Exec(env, s, schedule).runs[pid].phase)
  {
    hide Apply, Stopped;
    if schedule != [] {
      var n := |schedule| - 1;
      StoppedForever(env, s, pid, schedule[..n]);
      StoppedStays(env, Exec(env, s, schedule[..n]), pid, schedule[n].0, schedule[n].1);
    }
  }

  lemma {:induction false} ReachableExtends(env: Env, s: State, schedule: Schedule)
    requires Reachable(env, s)
    ensures Reachable(env, Exec(env, s, schedule))
  {
    hide Apply;
    var before :| s == Exec(env, INITIAL, before);
    ExecConcat(env, before, schedule);
    assert Exec(env, s, schedule) == Exec(env, INITIAL, before + schedule);
  }

  lemma {:induction false} ExecConcat(env: Env, before: Schedule, schedule: Schedule)
    ensures Exec(env, INITIAL, before + schedule) == Exec(env, Exec(env, INITIAL, before), schedule)
    decreases |schedule|
  {
    hide Apply;
    if schedule == [] {
      assert before + schedule == before;
    } else {
      var n := |schedule| - 1;
      assert (before + schedule)[..|before + schedule| - 1] == before + schedule[..n];
      ExecConcat(env, before, schedule[..n]);
    }
  }

  /**
   * A run that fails after consuming an approval never prints anything, whatever is scheduled next, and the approval
   * stays consumed in every later state.
   */
  lemma FailureIsFinal(env: Env, s: State, pid: nat, i: nat, schedule: Schedule)
    requires Reachable(env, s) && pid in s.runs && Stopped(s.runs[pid].phase)
    requires i < |s.history| && s.history[i].Committed? && s.history[i].pid == pid
    ensures var t := Exec(env, s, schedule);
            && s.history[i].row in t.ledger
            && forall n :: 0 <= n < |t.history| ==> !(t.history[n].Printed? && t.history[n].pid == pid)
  {
    hide Reachable, Apply, RunsOk, Exec;
    var t := Exec(env, s, schedule);
    ReachableIsSafe(env, s);
    LedgerAlways(env, s, schedule);
    CommitInLedger(s.history, i);
    StoppedForever(env, s, pid, schedule);
    ReachableExtends(env, s, schedule);
    ReachableIsSafe(env, t);
    forall n | 0 <= n < |t.history| ensures !(t.history[n].Printed? && t.history[n].pid == pid) {
      if t.history[n].Printed? {
        PrintedIsFinished(env, t, n);
      }
    }
  }

  // ---------------------------------------------------------------- exit status

  function ExitCode(phase: Phase): Option<int> {
    match phase
    case Finished => Some(0)
    case Blocked => Some(2)
    case Escaped => Some(1)
    case _ => None
  }

  /** An exception leaves the handler: it is not caught there, or a hashed identifier of the error has no encoding. */
  predicate Escapes(env: Env, run: Run, a: Action) {
    || ((run.phase.Failing? || run.phase.ErrorWriting?) && a == Fault(false))
    || (run.phase.Failing? && a.Advance? && HandlerEscapes(env, run.input))
  }

  /** The step that ends a process by itself decides its status. */
  lemma ExitStep(env: Env, s: State, pid: nat, a: Action)
    requires pid in s.runs && !Over(s.runs[pid].phase)
    ensures var phase, t := s.runs[pid].phase, Apply(env, s, pid, a);
            && pid in t.runs
            && (t.runs[pid].phase.Finished? <==> phase.Recorded? && a.Advance?)
            && (t.runs[pid].phase.Escaped? <==> Escapes(env, s.runs[pid], a))
  {
    hide Conflicts, AfterConsume, AfterEvaluate, AfterApprove, DecisionEvent, HandlerEscapes, Encodable, Fits, LineOut,
         WriteSome, ErrorEvent;
    if a.Write? {
      WriteKeeps(env, s, a.count);
    }
    PhasesAhead(env, s.runs[pid].input);
    EscapeMeansUnbuilt(env, s.runs[pid].input);
  }

  lemma OverStays(env: Env, s: State, pid: nat, a: Action)
    requires pid in s.runs && Over(s.runs[pid].phase)
    ensures var t := Apply(env, s, pid, a); pid in t.runs && t.runs[pid] == s.runs[pid]
  {
    hide Conflicts;
  }

  predicate HasEscaped(s: State, pid: nat) { pid in s.runs && s.runs[pid].phase.Escaped? }

  predicate HasFinished(s: State, pid: nat) { pid in s.runs && s.runs[pid].phase.Finished? }

  /** One step of any process, for a process that may or may not be the mover. */
  lemma ExitsByStep(env: Env, s: State, p: nat, a: Action, pid: nat)
    ensures var t := Apply(env, s, p, a);
            && (HasEscaped(t, pid) <==> HasEscaped(s, pid) || (p == pid && pid in s.runs && Escapes(env, s.runs[pid], a)))
            && (HasFinished(t, pid)
                <==> HasFinished(s, pid) || (p == pid && pid in s.runs && s.runs[pid].phase.Recorded? && a.Advance?))
  {
    hide Apply, HandlerEscapes;
    ApplyFrames(env, s, p, a);
    if p == pid && pid in s.runs {
      if Over(s.runs[pid].phase) {
        OverStays(env, s, pid, a);
      } else {
        ExitStep(env, s, pid, a);
      }
    }
  }

  ghost predicate EscapesAt(env: Env, schedule: Schedule, n: nat, pid: nat)
    requires n < |schedule|
  {
    var s := Exec(env, INITIAL, schedule[..n]);
    schedule[n].0 == pid && pid in s.runs && Escapes(env, s.runs[pid], schedule[n].1)
  }

  lemma {:induction false} EscapedExactly(env: Env, schedule: Schedule, pid: nat)
    ensures HasEscaped(Exec(env, INITIAL, schedule), pid)
            <==> exists n :: 0 <= n < |schedule| && EscapesAt(env, schedule, n, pid)
  {
    hide Apply, Escapes;
    if schedule != [] {
      var m := |schedule| - 1;
      var init := schedule[..m];
      EscapedExactly(env, init, pid);
      ExitsByStep(env, Exec(env, INITIAL, init), schedule[m].0, schedule[m].1, pid);
      assert forall n :: 0 <= n < m ==> init[..n] == schedule[..n] && init[n] == schedule[n];
      assert forall n :: 0 <= n < m ==> (EscapesAt(env, init, n, pid) <==> EscapesAt(env, schedule, n, pid));
      assert EscapesAt(env, schedule, m, pid) ==> exists n :: 0 <= n < |schedule| && EscapesAt(env, schedule, n, pid);
    }
  }

  predicate HasPrinted(s: State, pid: nat) {
    exists n :: 0 <= n < |s.history| && s.history[n].Printed? && s.history[n].pid == pid
  }

  lemma {:induction false} FinishedHasPrinted(env: Env, schedule: Schedule, pid: nat)
    ensures HasFinished(Exec(env, INITIAL, schedule), pid) ==> HasPrinted(Exec(env, INITIAL, schedule), pid)
  {
    hide Apply;
    if schedule != [] {
      var m := |schedule| - 1;
      var before, t := Exec(env, INITIAL, schedule[..m]), Exec(env, INITIAL, schedule);
      FinishedHasPrinted(env, schedule[..m], pid);
      ExitsByStep(env, before, schedule[m].0, schedule[m].1, pid);
      if HasFinished(before, pid) {
        ApplyGrows(env, before, schedule[m].0, schedule[m].1);
        var n :| 0 <= n < |before.history| && before.history[n].Printed? && before.history[n].pid == pid;
        assert t.history[n] == t.history[..|before.history|][n];
      } else if HasFinished(t, pid) {
        RecordedPrints(env, before, pid);
      }
    }
  }

  lemma RecordedPrints(env: Env, s: State, pid: nat)
    requires pid in s.runs && s.runs[pid].phase.Recorded?
    ensures HasPrinted(Apply(env, s, pid, Advance), pid)
  {
    var t := Apply(env, s, pid, Advance);
    assert t.history[|s.history|] == Printed(pid, s.runs[pid].phase.decision);
  }

  /**
   * The exit status of a process under any schedule: 0 exactly when it has printed a decision, 1 exactly when at some
   * step an exception left its handler, and 2 exactly when it is over, was not killed, printed nothing and let no
   * exception out.
   */
  lemma ExitStatus(env: Env, schedule: Schedule, pid: nat)
    requires pid in Exec(env, INITIAL, schedule).runs
    ensures var t := Exec(env, INITIAL, schedule);
            var escaped := exists n :: 0 <= n < |schedule| && EscapesAt(env, schedule, n, pid);
            var phase := t.runs[pid].phase;
            && (ExitCode(phase) == Some(0) <==> HasPrinted(t, pid))
            && (ExitCode(phase) == Some(1) <==> escaped)
            && (ExitCode(phase) == Some(2) <==> Over(phase) && !phase.Crashed? && !HasPrinted(t, pid) && !escaped)
  {
    hide Exec, EscapesAt, RunsOk;
    var t := Exec(env, INITIAL, schedule);
    EscapedExactly(env, schedule, pid);
    FinishedHasPrinted(env, schedule, pid);
    assert Reachable(env, t);
    ReachableIsSafe(env, t);
    if HasPrinted(t, pid) {
      var n :| 0 <= n < |t.history| && t.history[n].Printed? && t.history[n].pid == pid;
      PrintedIsFinished(env, t, n);
    }
  }

  lemma PhasesAhead(env: Env, input: Input)
    ensures !Over(AfterEvaluate(env, input)) && !Over(AfterApprove(env, input))
  {
    hide Decide, Approve;
  }

  lemma EscapeMeansUnbuilt(env: Env, input: Input)
    ensures HandlerEscapes(env, input) ==> ErrorEvent(env, input).Err?
  {
    hide Encodable;
  }
}
