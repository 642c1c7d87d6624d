// The shared audit log under every schedule: one writer at a time, append-only, bounded, and readable.
module GateLog {
  import opened Wrappers
  import opened Json
  import opened ApprovalCore
  import opened Times
  import opened SignedApproval
  import opened RuntimeAudit
  import opened RuntimeReader
  import opened PretoolGate
  import opened GateProtocol
  import opened GateSafety

  // ---------------------------------------------------------------- invariants

  function OpenEvent(phase: Phase): Event
    requires HoldsLock(phase)
  {
    phase.event
  }

  /** Exactly the process inside `append_event` holds the lock, and the last append is its own. */
  ghost predicate LockOk(s: State) {
    && (s.lock.Some? ==>
          s.lock.value in s.runs && HoldsLock(s.runs[s.lock.value].phase) && s.chunks != []
          && s.chunks[|s.chunks| - 1].event == OpenEvent(s.runs[s.lock.value].phase))
    && forall pid :: pid in s.runs && HoldsLock(s.runs[pid].phase) ==> s.lock == Some(pid)
  }

  /** Characters the unfinished append may still add. */
  function Pending(env: Env, s: State): nat {
    if s.lock.None? || s.chunks == [] then 0
    else
      var last := s.chunks[|s.chunks| - 1];
      if last.taken <= |Line(env.g, last.event)| then |Line(env.g, last.event)| - last.taken else 0
  }

  predicate Bounded(env: Env, s: State) {
    |s.file| + Pending(env, s) > 0 ==>
      IntOf(env.audit.maximumFileBytes).Some?
      && |s.file| + Pending(env, s) <= IntOf(env.audit.maximumFileBytes).value
  }

  ghost predicate FileOk(env: Env, s: State) {
    ChunksOk(env.g, s.chunks) && s.file == Content(env.g, s.chunks) && Bounded(env, s)
  }

  /** Every recorded event has its whole line in the file. */
  ghost predicate RecordsOk(env: Env, s: State) {
    forall n :: 0 <= n < |s.history| && s.history[n].Audited? ==>
      exists k :: 0 <= k < |s.chunks| && s.chunks[k].event == s.history[n].event && Complete(env.g, s.chunks[k])
  }

  /** The event is one this run builds, for some decision or for its error. */
  ghost predicate BuiltBy(env: Env, input: Input, e: Event) {
    ErrorEvent(env, input) == Ok(e) || exists d :: DecisionEvent(env, input, d) == Ok(e)
  }

  /** Every append carries an event that some run built from its own input. */
  ghost predicate OriginsOk(env: Env, s: State) {
    forall k :: 0 <= k < |s.chunks| ==> HasOrigin(env, s, s.chunks[k].event)
  }

  ghost predicate HasOrigin(env: Env, s: State, e: Event) {
    exists pid :: pid in s.runs && BuiltBy(env, s.runs[pid].input, e)
  }

  ghost predicate LogInv(env: Env, s: State) { LockOk(s) && FileOk(env, s) && RecordsOk(env, s) && OriginsOk(env, s) }

  // ---------------------------------------------------------------- the file

  /** What a step may do to the log: nothing, open an append, or extend the open one. */
  ghost predicate LogStep(env: Env, s: State, t: State) {
    || (t.chunks == s.chunks && t.file == s.file && (t.lock == s.lock || t.lock.None?))
    || (s.lock.None? && t.lock.Some? && t.file == s.file && t.chunks != [] && t.chunks[..|t.chunks| - 1] == s.chunks
        && t.chunks[|t.chunks| - 1].taken == 0
        && Fits(s.file, Line(env.g, t.chunks[|t.chunks| - 1].event), env.audit.maximumFileBytes))
    || (s.lock.Some? && exists count: nat :: t == WriteSome(env, s, count))
  }

  lemma ProceedLogs(env: Env, s: State, pid: nat)
    requires pid in s.runs
    ensures LogStep(env, s, Proceed(env, s, pid))
  {
    hide Conflicts, AfterConsume, AfterEvaluate, AfterApprove, DecisionEvent, ErrorEvent, HandlerEscapes, Fits, LineOut, WriteSome;
    var t := Proceed(env, s, pid);
    if |t.chunks| == |s.chunks| + 1 {
      assert t.chunks[..|s.chunks|] == s.chunks;
    }
  }

  lemma ApplyLogs(env: Env, s: State, pid: nat, a: Action)
    requires LockOk(s)
    ensures LogStep(env, s, Apply(env, s, pid, a))
  {
    hide Conflicts, Proceed, WriteSome;
    if a.Advance? && pid in s.runs {
      ProceedLogs(env, s, pid);
    }
  }

  lemma ExtendContent(g: Logger, init: seq<Chunk>, e: Event, taken: nat, count: nat)
    requires ChunksOk(g, init) && taken + count <= |Line(g, e)|
    ensures ChunksOk(g, init + [Chunk(e, taken)]) && ChunksOk(g, init + [Chunk(e, taken + count)])
    ensures Content(g, init + [Chunk(e, taken + count)])
         == Content(g, init + [Chunk(e, taken)]) + Line(g, e)[taken..taken + count]
  {
    hide Line;
    var line := Line(g, e);
    assert (init + [Chunk(e, taken)])[..|init|] == init && (init + [Chunk(e, taken + count)])[..|init|] == init;
    assert line[..taken + count] == line[..taken] + line[taken..taken + count];
  }

  lemma WrittenBounded(env: Env, s: State, count: nat)
    requires ChunksOk(env.g, s.chunks) && Bounded(env, s) && s.lock.Some?
    ensures Bounded(env, WriteSome(env, s, count))
  {
    hide Line, ChunksOk;
  }

  lemma WrittenContent(env: Env, s: State, count: nat)
    requires FileOk(env, s) && s.lock.Some?
    ensures FileOk(env, WriteSome(env, s, count))
  {
    hide Line, Bounded, Content;
    WrittenBounded(env, s, count);
    if s.chunks != [] {
      var n := |s.chunks| - 1;
      var init, last := s.chunks[..n], s.chunks[n];
      assert s.chunks == init + [Chunk(last.event, last.taken)];
      if last.taken + count <= |Line(env.g, last.event)| {
        ExtendContent(env.g, init, last.event, last.taken, count);
      }
    }
  }

  lemma FileStaysOk(env: Env, s: State, t: State)
    requires FileOk(env, s) && LogStep(env, s, t)
    ensures FileOk(env, t) && s.file <= t.file
  {
    hide Line, WriteSome;
    if count: nat :| s.lock.Some? && t == WriteSome(env, s, count) {
      WrittenContent(env, s, count);
      WriteExtends(env, s, count);
    } else if t.chunks != s.chunks {
      var n := |s.chunks|;
      assert ChunkOk(env.g, t.chunks[n]);
      assert forall i :: 0 <= i < n ==> t.chunks[i] == t.chunks[..n][i];
      assert Content(env.g, t.chunks) == Content(env.g, s.chunks) + "";
    }
  }

  lemma WriteExtends(env: Env, s: State, count: nat)
    ensures s.file <= WriteSome(env, s, count).file
  {
  }

  // ---------------------------------------------------------------- the lock

  lemma LockStaysOk(env: Env, s: State, pid: nat, a: Action)
    requires LockOk(s)
    ensures LockOk(Apply(env, s, pid, a))
  {
    hide Conflicts, Proceed, WriteSome;
    var t := Apply(env, s, pid, a);
    if a.Write? {
      WriteKeeps(env, s, a.count);
      WriteKeepsEvents(env, s, a.count);
    } else if a.Advance? && pid in s.runs {
      ProceedKeepsLock(env, s, pid);
    }
  }

  lemma WriteKeepsEvents(env: Env, s: State, count: nat)
    ensures var t := WriteSome(env, s, count);
            |t.chunks| == |s.chunks| && forall k :: 0 <= k < |s.chunks| ==> t.chunks[k].event == s.chunks[k].event
  {
  }

  lemma MoveKeepsLock(s: State, u: State, pid: nat, phase: Phase)
    requires LockOk(s) && pid in s.runs && !HoldsLock(s.runs[pid].phase) && !HoldsLock(phase)
    requires u.runs == s.runs && u.chunks == s.chunks && u.lock == s.lock
    ensures LockOk(Goto(u, pid, phase))
  {
  }

  lemma OpenKeepsLock(env: Env, s: State, pid: nat, e: Event, next: Phase, otherwise: Phase)
    requires LockOk(s) && pid in s.runs && !HoldsLock(s.runs[pid].phase)
    requires HoldsLock(next) && OpenEvent(next) == e && !HoldsLock(otherwise)
    ensures LockOk(OpenLog(env, s, pid, e, next, otherwise))
  {
    hide Fits;
  }

  lemma CloseKeepsLock(env: Env, s: State, pid: nat, e: Event, next: Phase)
    requires LockOk(s) && pid in s.runs && HoldsLock(s.runs[pid].phase) && !HoldsLock(next)
    ensures LockOk(CloseLog(env, s, pid, e, next))
  {
    hide LineOut;
  }

  lemma ProceedKeepsLock(env: Env, s: State, pid: nat)
    requires LockOk(s) && pid in s.runs
    ensures LockOk(Proceed(env, s, pid))
  {
    hide LockOk, Conflicts, AfterConsume, AfterEvaluate, AfterApprove, DecisionEvent, ErrorEvent, HandlerEscapes, OpenLog, CloseLog, Goto;
    var input := s.runs[pid].input;
    NextHoldsNoLock(env, input);
    match s.runs[pid].phase
    case Start => MoveKeepsLock(s, s, pid, Loaded);
    case Loaded => MoveKeepsLock(s, s, pid, AfterEvaluate(env, input));
    case Approving => MoveKeepsLock(s, s, pid, AfterApprove(env, input));
    case Consuming(row) =>
      MoveKeepsLock(s, s, pid, Auditing(AfterConsume(s.ledger, row)));
      MoveKeepsLock(s, s.(ledger := s.ledger + [row], history := s.history + [Committed(pid, row)]), pid,
                    Auditing(AfterConsume(s.ledger, row)));
    case Auditing(d) =>
      MoveKeepsLock(s, s, pid, Failing);
      if DecisionEvent(env, input, d).Ok? {
        var e := DecisionEvent(env, input, d).value;
        OpenKeepsLock(env, s, pid, e, Writing(d, e), Failing);
      }
    case Writing(d, e) => CloseKeepsLock(env, s, pid, e, Recorded(d));
    case Recorded(d) => MoveKeepsLock(s, s.(history := s.history + [Printed(pid, d)]), pid, Finished);
    case Failing =>
      MoveKeepsLock(s, s, pid, AfterHandler(env, input));
      if ErrorEvent(env, input).Ok? {
        var e := ErrorEvent(env, input).value;
        OpenKeepsLock(env, s, pid, e, ErrorWriting(e), Blocked);
      }
    case ErrorWriting(e) => CloseKeepsLock(env, s, pid, e, Blocked);
    case _ =>
  }

  lemma NextHoldsNoLock(env: Env, input: Input)
    ensures !HoldsLock(AfterEvaluate(env, input)) && !HoldsLock(AfterApprove(env, input))
  {
    hide Decide, Approve;
  }

  // ---------------------------------------------------------------- the records

  /** Whole lines stay whole. */
  lemma CompleteStays(env: Env, s: State, t: State, k: nat)
    requires ChunksOk(env.g, s.chunks) && LogStep(env, s, t) && k < |s.chunks| && Complete(env.g, s.chunks[k])
    ensures k < |t.chunks| && t.chunks[k].event == s.chunks[k].event && Complete(env.g, t.chunks[k])
  {
    hide Line;
    assert ChunkOk(env.g, s.chunks[k]);
    if t.chunks != s.chunks && s.lock.None? {
      assert t.chunks[k] == t.chunks[..|s.chunks|][k];
    }
  }

  lemma NewRecordIsWhole(env: Env, s: State, pid: nat, a: Action)
    requires LockOk(s)
    ensures var t := Apply(env, s, pid, a);
            |t.history| == |s.history| + 1 && t.history[|s.history|].Audited? ==>
              t.chunks == s.chunks && s.chunks != [] && Complete(env.g, s.chunks[|s.chunks| - 1])
              && s.chunks[|s.chunks| - 1].event == t.history[|s.history|].event
  {
    hide Conflicts, AfterConsume, AfterEvaluate, AfterApprove, DecisionEvent, ErrorEvent, HandlerEscapes, Fits, WriteSome, Complete;
    if a.Write? {
      WriteKeeps(env, s, a.count);
    }
  }

  lemma RecordsStayOk(env: Env, s: State, pid: nat, a: Action)
    requires LogInv(env, s)
    ensures RecordsOk(env, Apply(env, s, pid, a))
  {
    hide Apply, LockOk, Complete, LogStep, Bounded;
    var t := Apply(env, s, pid, a);
    ApplyGrows(env, s, pid, a);
    ApplyLogs(env, s, pid, a);
    NewRecordIsWhole(env, s, pid, a);
    forall n | 0 <= n < |t.history| && t.history[n].Audited?
      ensures exists k :: 0 <= k < |t.chunks| && t.chunks[k].event == t.history[n].event && Complete(env.g, t.chunks[k])
    {
      if n < |s.history| {
        assert t.history[n] == s.history[n];
        var k :| 0 <= k < |s.chunks| && s.chunks[k].event == s.history[n].event && Complete(env.g, s.chunks[k]);
        CompleteStays(env, s, t, k);
      }
    }
  }

  // ---------------------------------------------------------------- the origin of events

  lemma NewChunkIsBuilt(env: Env, s: State, pid: nat, a: Action)
    ensures var t := Apply(env, s, pid, a);
            (|t.chunks| == |s.chunks| && forall k :: 0 <= k < |s.chunks| ==> t.chunks[k].event == s.chunks[k].event)
            || (|t.chunks| == |s.chunks| + 1 && t.chunks[..|s.chunks|] == s.chunks && pid in s.runs
                && BuiltBy(env, s.runs[pid].input, t.chunks[|s.chunks|].event))
  {
    hide Conflicts, AfterConsume, AfterEvaluate, AfterApprove, DecisionEvent, ErrorEvent, HandlerEscapes, Fits, LineOut,
         WriteSome, BuiltBy;
    var t := Apply(env, s, pid, a);
    if a.Write? {
      WriteKeepsEvents(env, s, a.count);
    } else if a.Advance? && pid in s.runs {
      var input := s.runs[pid].input;
      if s.runs[pid].phase.Auditing? {
        DecisionIsBuilt(env, input, s.runs[pid].phase.decision);
      } else if s.runs[pid].phase.Failing? {
        ErrorIsBuilt(env, input);
      }
      assert |t.chunks| == |s.chunks| + 1 ==> t.chunks[..|s.chunks|] == s.chunks;
    }
  }

  lemma DecisionIsBuilt(env: Env, input: Input, d: Decision)
    ensures DecisionEvent(env, input, d).Ok? ==> BuiltBy(env, input, DecisionEvent(env, input, d).value)
  {
    hide DecisionEvent, ErrorEvent;
    if DecisionEvent(env, input, d).Ok? {
      assert DecisionEvent(env, input, d) == Ok(DecisionEvent(env, input, d).value);
    }
  }

  lemma ErrorIsBuilt(env: Env, input: Input)
    ensures ErrorEvent(env, input).Ok? ==> BuiltBy(env, input, ErrorEvent(env, input).value)
  {
    hide DecisionEvent, ErrorEvent;
  }

  lemma OriginStays(env: Env, s: State, pid: nat, a: Action, e: Event)
    requires HasOrigin(env, s, e)
    ensures HasOrigin(env, Apply(env, s, pid, a), e)
  {
    hide Apply, BuiltBy;
    ApplyFrames(env, s, pid, a);
    var p :| p in s.runs && BuiltBy(env, s.runs[p].input, e);
    OwnOrigin(env, Apply(env, s, pid, a), p, e);
  }

  lemma OwnOrigin(env: Env, s: State, pid: nat, e: Event)
    requires pid in s.runs && BuiltBy(env, s.runs[pid].input, e)
    ensures HasOrigin(env, s, e)
  {
    hide BuiltBy;
  }

  lemma OriginsStayOk(env: Env, s: State, pid: nat, a: Action)
    requires OriginsOk(env, s)
    ensures OriginsOk(env, Apply(env, s, pid, a))
  {
    hide Apply, BuiltBy, HasOrigin;
    var t := Apply(env, s, pid, a);
    NewChunkIsBuilt(env, s, pid, a);
    ApplyFrames(env, s, pid, a);
    forall k | 0 <= k < |t.chunks| ensures HasOrigin(env, t, t.chunks[k].event) {
      if k < |s.chunks| {
        assert |t.chunks| == |s.chunks| + 1 ==> t.chunks[k] == t.chunks[..|s.chunks|][k];
        OriginStays(env, s, pid, a, s.chunks[k].event);
      } else {
        OwnOrigin(env, t, pid, t.chunks[k].event);
      }
    }
  }

  lemma BuiltForKnown(env: Env, input: Input, e: Event)
    requires BuiltBy(env, input, e) && input.provider in {"claude-code", "codex"}
    ensures Built(env.g, env.audit, e)
  {
    hide BuildEvent;
  }

  lemma {:induction false} CompletedAmong(g: Logger, chunks: seq<Chunk>, e: Event) returns (k: nat)
    requires e in Completed(g, chunks)
    ensures k < |chunks| && chunks[k].event == e
  {
    hide Complete;
    var n := |chunks| - 1;
    if Complete(g, chunks[n]) && chunks[n].event == e {
      k := n;
    } else {
      k := CompletedAmong(g, chunks[..n], e);
    }
  }

  /**
   * The assessment reads the log of the gates: in every reachable state, if no append stopped inside its line, all
   * processes serve a known provider and the completed events are still fresh, the file reads back as those events, each
   * of them passes, and the log is complete exactly when every required decision has been recorded.
   */
  lemma ReachableLogPasses(env: Env, s: State, policy: Json, state: Json, now: Json)
    requires Reachable(env, s) && Faithful(env.g) && PolicyReady(policy) && StateReady(state)
    requires env.audit == PolicyIn(policy, env.audit.maximumFileBytes) && AuditReady(env.g, env.audit, now)
    requires NoTornLine(env.g, s.chunks)
    requires forall pid :: pid in s.runs ==> s.runs[pid].input.provider in {"claude-code", "codex"}
    requires var events := Completed(env.g, s.chunks);
             forall i :: 0 <= i < |events| && env.g.time(events[i].timestamp).Some? ==>
               Fresh(env.g.time(now).value, env.g.time(events[i].timestamp).value, IntOf(env.audit.maximumEventAge).value)
    ensures var events := Completed(env.g, s.chunks);
            && SplitLines(s.file) == Lines(env.g, events)
            && Readable(env.g, policy, state, Written(events), now) && LogOk(env.g, policy, Written(events), now)
            && (DecisionsIn(Written(events)) == TextSet(Get(policy, "required_decisions")) <==> AllSeen(policy, events))
  {
    hide Reachable, Faithful, NoTornLine, Completed, BuiltBy, Built, LockOk, RecordsOk, SplitLines, AuditReady, Exec,
         PolicyReady, StateReady, PolicyIn, Readable, LogOk, AllSeen, DecisionsIn, TextSet, Written, Fresh, Get;
    AuditReadyTime(env.g, env.audit, now);
    ReachableLog(env, s);
    LogReadsBack(env.g, s.chunks);
    var events := Completed(env.g, s.chunks);
    forall i | 0 <= i < |events| ensures Built(env.g, env.audit, events[i]) {
      var k := CompletedAmong(env.g, s.chunks, events[i]);
      assert HasOrigin(env, s, s.chunks[k].event);
      var pid :| pid in s.runs && BuiltBy(env, s.runs[pid].input, events[i]);
      BuiltForKnown(env, s.runs[pid].input, events[i]);
    }
    GateLogAccepted(env.g, policy, env.audit.maximumFileBytes, state, events, now);
  }

  lemma AuditReadyTime(g: Logger, audit: AuditPolicy, now: Json)
    requires AuditReady(g, audit, now)
    ensures g.time(now).Some? && IntOf(audit.maximumEventAge).Some?
  {
  }

  // ---------------------------------------------------------------- every schedule

  lemma {:induction false} LogAlways(env: Env, s: State, schedule: Schedule)
    requires LogInv(env, s)
    ensures LogInv(env, Exec(env, s, schedule)) && s.file <= Exec(env, s, schedule).file
  {
    hide Apply, LockOk, FileOk, RecordsOk, OriginsOk, LogStep;
    if schedule != [] {
      var n := |schedule| - 1;
      var before := Exec(env, s, schedule[..n]);
      LogAlways(env, s, schedule[..n]);
      ApplyLogs(env, before, schedule[n].0, schedule[n].1);
      FileStaysOk(env, before, Exec(env, s, schedule));
      LockStaysOk(env, before, schedule[n].0, schedule[n].1);
      RecordsStayOk(env, before, schedule[n].0, schedule[n].1);
      OriginsStayOk(env, before, schedule[n].0, schedule[n].1);
    }
  }

  lemma ReachableLog(env: Env, s: State)
    requires Reachable(env, s)
    ensures LogInv(env, s)
  {
    hide Apply, Exec;
    var schedule :| s == Exec(env, INITIAL, schedule);
    LogAlways(env, INITIAL, schedule);
  }

  lemma {:induction false} CompletedHas(g: Logger, chunks: seq<Chunk>, k: nat)
    requires k < |chunks| && Complete(g, chunks[k])
    ensures chunks[k].event in Completed(g, chunks)
  {
    if k < |chunks| - 1 {
      CompletedHas(g, chunks[..|chunks| - 1], k);
    }
  }

  /** At no time do two processes write. */
  lemma OneWriter(env: Env, s: State, p: nat, q: nat)
    requires Reachable(env, s) && p in s.runs && q in s.runs
    requires HoldsLock(s.runs[p].phase) && HoldsLock(s.runs[q].phase)
    ensures p == q
  {
    hide Reachable, HoldsLock, FileOk, RecordsOk;
    ReachableLog(env, s);
  }

  /**
   * The log in every reachable state: never over the size limit, earlier text never altered, every recorded event
   * among the completed ones, and read back line by line exactly the completed events in lock order if and only if no
   * append has stopped, or is still, part way through its line.
   */
  lemma LogIsFaithful(env: Env, s: State, schedule: Schedule)
    requires Reachable(env, s) && Faithful(env.g)
    ensures s.file <= Exec(env, s, schedule).file
    ensures s.file != "" ==>
              IntOf(env.audit.maximumFileBytes).Some? && |s.file| <= IntOf(env.audit.maximumFileBytes).value
    ensures SplitLines(s.file) == Lines(env.g, Completed(env.g, s.chunks)) <==> NoTornLine(env.g, s.chunks)
    ensures forall n :: 0 <= n < |s.history| && s.history[n].Audited? ==>
              s.history[n].event in Completed(env.g, s.chunks)
  {
    hide Reachable, Exec, LockOk, Faithful, SplitLines, NoTornLine, Completed, Complete;
    ReachableLog(env, s);
    LogAlways(env, s, schedule);
    LogReadsBack(env.g, s.chunks);
    forall n | 0 <= n < |s.history| && s.history[n].Audited?
      ensures s.history[n].event in Completed(env.g, s.chunks)
    {
      var k :| 0 <= k < |s.chunks| && s.chunks[k].event == s.history[n].event && Complete(env.g, s.chunks[k]);
      CompletedHas(env.g, s.chunks, k);
    }
  }
}
