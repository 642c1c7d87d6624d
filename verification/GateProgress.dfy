// The gate is not merely safe: left alone, a run with a valid unused approval is granted.
module GateProgress {
  import opened Wrappers
  import opened SignedApproval
  import opened RuntimeAudit
  import opened PretoolGate
  import opened GateProtocol

  lemma ExecSnoc(env: Env, s: State, schedule: Schedule, pid: nat, a: Action)
    ensures Exec(env, s, schedule + [(pid, a)]) == Apply(env, Exec(env, s, schedule), pid, a)
  {
    hide Apply;
    assert (schedule + [(pid, a)])[..|schedule|] == schedule;
  }

  /** Everything a first use needs: a free log with room, and an approval the ledger has not seen. */
  ghost predicate Unhindered(env: Env, s: State, pid: nat, input: Input, row: Row, e: Event) {
    && pid !in s.runs && s.lock.None?
    && HighImpact(env, input) && Approve(env, input) == Consume(row) && !Conflicts(s.ledger, row)
    && DecisionEvent(env, input, GrantedDecision(row)) == Ok(e)
    && Fits(s.file, Line(env.g, e), env.audit.maximumFileBytes)
  }

  function At(s: State, pid: nat, input: Input, phase: Phase): State {
    s.(runs := s.runs[pid := Run(input, phase)])
  }

  function Charged(s: State, pid: nat, row: Row): State {
    s.(ledger := s.ledger + [row], history := s.history + [Committed(pid, row)])
  }

  lemma ToConsuming(env: Env, s: State, pid: nat, input: Input, row: Row, e: Event)
    requires Unhindered(env, s, pid, input, row, e)
    ensures Apply(env, s, pid, Spawn(input)) == At(s, pid, input, Start)
    ensures Apply(env, At(s, pid, input, Start), pid, Advance) == At(s, pid, input, Loaded)
    ensures Apply(env, At(s, pid, input, Loaded), pid, Advance) == At(s, pid, input, Approving)
    ensures Apply(env, At(s, pid, input, Approving), pid, Advance) == At(s, pid, input, Consuming(row))
  {
    hide Decide, Approve, Conflicts, DecisionEvent, Fits;
    assert AfterEvaluate(env, input) == Approving;
    assert AfterApprove(env, input) == Consuming(row);
    Overwrites(s, pid, input, Start, Loaded);
    Overwrites(s, pid, input, Loaded, Approving);
    Overwrites(s, pid, input, Approving, Consuming(row));
  }

  lemma Overwrites(s: State, pid: nat, input: Input, phase: Phase, next: Phase)
    ensures Goto(At(s, pid, input, phase), pid, next) == At(s, pid, input, next)
  {
    assert s.runs[pid := Run(input, phase)][pid := Run(input, next)] == s.runs[pid := Run(input, next)];
  }

  /** Log opened, line written, log closed. */
  function Opened(s: State, pid: nat, e: Event, taken: nat, line: string): State
    requires taken <= |line|
  {
    s.(lock := Some(pid), chunks := s.chunks + [Chunk(e, taken)], file := s.file + line[..taken])
  }

  function Closed(s: State, pid: nat, e: Event, line: string): State {
    s.(lock := None, chunks := s.chunks + [Chunk(e, |line|)], file := s.file + line,
       history := s.history + [Audited(pid, e)])
  }

  lemma ToAuditing(env: Env, s: State, pid: nat, input: Input, row: Row, e: Event)
    requires Unhindered(env, s, pid, input, row, e)
    ensures Apply(env, At(s, pid, input, Consuming(row)), pid, Advance)
         == At(Charged(s, pid, row), pid, input, Auditing(GrantedDecision(row)))
  {
    hide Decide, Approve, Conflicts, DecisionEvent, Fits;
    Overwrites(Charged(s, pid, row), pid, input, Consuming(row), Auditing(GrantedDecision(row)));
  }

  lemma ToWriting(env: Env, s: State, pid: nat, input: Input, d: Decision, e: Event)
    requires s.lock.None? && DecisionEvent(env, input, d) == Ok(e)
    requires Fits(s.file, Line(env.g, e), env.audit.maximumFileBytes)
    ensures Apply(env, At(s, pid, input, Auditing(d)), pid, Advance)
         == At(Opened(s, pid, e, 0, Line(env.g, e)), pid, input, Writing(d, e))
  {
    hide DecisionEvent, Fits, Line;
    var ready := Opened(s, pid, e, 0, Line(env.g, e));
    assert Line(env.g, e)[..0] == "" && s.file + "" == s.file;
    Overwrites(ready, pid, input, Auditing(d), Writing(d, e));
  }

  lemma ToWritten(env: Env, s: State, pid: nat, input: Input, e: Event, holding: Phase, taken: nat)
    requires HoldsLock(holding) && taken <= |Line(env.g, e)|
    ensures Apply(env, At(Opened(s, pid, e, 0, Line(env.g, e)), pid, input, holding), pid, Write(taken))
         == At(Opened(s, pid, e, taken, Line(env.g, e)), pid, input, holding)
  {
    hide Line, Proceed, Throw, Conflicts, Commit, Release;
    var line := Line(env.g, e);
    var start := At(Opened(s, pid, e, 0, line), pid, input, holding);
    assert start.chunks[..|s.chunks|] == s.chunks;
    assert line[0..0 + taken] == line[..taken] && line[..0] == "" && s.file + "" == s.file;
  }

  lemma ToRecorded(env: Env, s: State, pid: nat, input: Input, d: Decision, e: Event)
    requires s.lock.None?
    ensures Apply(env, At(Opened(s, pid, e, |Line(env.g, e)|, Line(env.g, e)), pid, input, Writing(d, e)), pid, Advance)
         == At(Closed(s, pid, e, Line(env.g, e)), pid, input, Recorded(d))
  {
    hide Line, Throw, Conflicts, Commit, Release, WriteSome, OpenLog, AfterEvaluate, AfterApprove, Transact, ErrorEvent,
         DecisionEvent;
    var line := Line(env.g, e);
    assert line[..|line|] == line;
    Overwrites(Closed(s, pid, e, line), pid, input, Writing(d, e), Recorded(d));
  }

  lemma ToFinished(env: Env, s: State, pid: nat, input: Input, d: Decision)
    ensures Apply(env, At(s, pid, input, Recorded(d)), pid, Advance)
         == At(s.(history := s.history + [Printed(pid, d)]), pid, input, Finished)
  {
    hide Throw, Conflicts, Commit, Release, WriteSome, OpenLog, CloseLog, AfterEvaluate, AfterApprove, Transact, ErrorEvent,
         DecisionEvent;
    Overwrites(s.(history := s.history + [Printed(pid, d)]), pid, input, Recorded(d), Finished);
  }

  /** The undisturbed schedule of one process. */
  function Alone(pid: nat, input: Input, size: nat): Schedule {
    [(pid, Spawn(input))] + [(pid, Advance)] + [(pid, Advance)] + [(pid, Advance)] + [(pid, Advance)] + [(pid, Advance)]
    + [(pid, Write(size))] + [(pid, Advance)] + [(pid, Advance)]
  }

  /** An undisturbed run with a valid, unused approval commits its row, records the allow and prints it. */
  lemma UnhinderedRunIsGranted(env: Env, s: State, pid: nat, input: Input, row: Row, e: Event)
    requires Unhindered(env, s, pid, input, row, e)
    ensures var line := Line(env.g, e);
            var t := Exec(env, s, Alone(pid, input, |line|));
            && t.ledger == s.ledger + [row]
            && t.file == s.file + line
            && t.lock.None?
            && t.history == s.history + [Committed(pid, row), Audited(pid, e), Printed(pid, GrantedDecision(row))]
  {
    hide Apply, Line, HighImpact, Approve, Conflicts, DecisionEvent, Fits, Exec;
    AloneEnds(env, s, pid, input, row, e);
    assert s.history + [Committed(pid, row)] + [Audited(pid, e)] + [Printed(pid, GrantedDecision(row))]
        == s.history + [Committed(pid, row), Audited(pid, e), Printed(pid, GrantedDecision(row))];
  }

  lemma AloneEnds(env: Env, s: State, pid: nat, input: Input, row: Row, e: Event)
    requires Unhindered(env, s, pid, input, row, e)
    ensures var t := Closed(Charged(s, pid, row), pid, e, Line(env.g, e));
            Exec(env, s, Alone(pid, input, |Line(env.g, e)|))
            == At(t.(history := t.history + [Printed(pid, GrantedDecision(row))]), pid, input, Finished)
  {
    hide Apply, Line, HighImpact, Approve, Conflicts, DecisionEvent, Fits, At, Closed, Opened, GrantedDecision;
    var line, d, a := Line(env.g, e), GrantedDecision(row), (pid, Advance);
    var granted := Charged(s, pid, row);
    var s0: Schedule := [(pid, Spawn(input))];
    assert [] + s0 == s0;
    ExecSnoc(env, s, [], pid, Spawn(input));
    ExecSnoc(env, s, s0, pid, Advance);
    ExecSnoc(env, s, s0 + [a], pid, Advance);
    ExecSnoc(env, s, s0 + [a] + [a], pid, Advance);
    ExecSnoc(env, s, s0 + [a] + [a] + [a], pid, Advance);
    ExecSnoc(env, s, s0 + [a] + [a] + [a] + [a], pid, Advance);
    ExecSnoc(env, s, s0 + [a] + [a] + [a] + [a] + [a], pid, Write(|line|));
    ExecSnoc(env, s, s0 + [a] + [a] + [a] + [a] + [a] + [(pid, Write(|line|))], pid, Advance);
    ExecSnoc(env, s, s0 + [a] + [a] + [a] + [a] + [a] + [(pid, Write(|line|))] + [a], pid, Advance);
    ToConsuming(env, s, pid, input, row, e);
    ToAuditing(env, s, pid, input, row, e);
    ToWriting(env, granted, pid, input, d, e);
    ToWritten(env, granted, pid, input, e, Writing(d, e), |line|);
    ToRecorded(env, granted, pid, input, d, e);
    ToFinished(env, Closed(granted, pid, e, line), pid, input, d);
  }
}
