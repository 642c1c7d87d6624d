// Audit events of the pre-tool gate: how they are built, appended to the shared log, and read back.
module RuntimeAudit {
  import opened Wrappers
  import opened Json
  import opened ApprovalCore
  import opened Times

  // ---------------------------------------------------------------- policy and events

  /** The `audit` section of the assessment policy, validated when the policy is loaded. */
  datatype AuditPolicy = AuditPolicy(
    eventSchema: Json, revision: Json, allowedFields: set<string>, requiredDecisions: seq<string>,
    allowedReasons: seq<string>, maximumEventAge: Json, maximumFileBytes: Json)

  datatype Event = Event(
    schema: Json, timestamp: Json, controlId: string, revision: Json, provider: string, sessionRef: string,
    eventRef: string, toolRef: string, decision: string, reasonCode: string, requestRef: Option<string>,
    approvalRef: Option<string>)

  const EVENT_FIELDS := {
    "schema_version", "timestamp", "control_id", "policy_revision", "provider", "session_ref", "event_ref", "tool_ref",
    "decision", "reason_code", "request_ref", "approval_ref"}

  /**
   * SHA-256 of a text, whether a text has a UTF-8 encoding (one with a lone surrogate has none), timestamps, and the
   * one-line JSON text of an event.
   */
  datatype Logger = Logger(hash: string -> string, encodes: string -> bool, time: Json -> Option<int>, encode: Event -> string)

  predicate HexDigit(c: char) { '0' <= c <= '9' || 'a' <= c <= 'f' }

  predicate HexReference(s: string) {
    |s| == 64 && forall i :: 0 <= i < |s| ==> HexDigit(s[i])
  }

  predicate WordChar(c: char) {
    'A' <= c <= 'Z' || 'a' <= c <= 'z' || '0' <= c <= '9' || c == '_' || c == '-'
  }

  predicate Word(s: string) {
    1 <= |s| <= 128 && forall i :: 0 <= i < |s| ==> WordChar(s[i])
  }

  /** Words of at most 128 characters, joined by double underscores. */
  predicate ToolReference(s: string)
    decreases |s|
  {
    || Word(s)
    || exists n :: 1 <= n <= |s| - 2 && Word(s[..n]) && s[n..n + 2] == "__" && ToolReference(s[n + 2..])
  }

  lemma UnavailableIsReference()
    ensures ToolReference("unavailable")
  {
    assert Word("unavailable");
  }

  /** What the logger's functions are: sixty-four hexadecimal digits, and distinct single lines of printable ASCII. */
  ghost predicate Faithful(g: Logger) {
    && (forall s: string :: HexReference(g.hash(s)))
    && (forall e: Event :: g.encode(e) != "" && forall i :: 0 <= i < |g.encode(e)| ==> ' ' <= g.encode(e)[i] <= '~')
    && (forall e: Event, f: Event :: g.encode(e) == g.encode(f) ==> e == f)
  }

  /** A reference to a non-empty text field, or a placeholder. */
  function Reference(g: Logger, value: Json): string {
    if NonEmptyText(value) then g.hash(value.s) else "unavailable"
  }

  function ToolRef(name: Json): string {
    if name.Str? && ToolReference(name.s) then name.s else "unavailable"
  }

  predicate Loggable(g: Logger, policy: AuditPolicy, decision: string, reason: string, now: Json,
                     requestRef: Option<string>) {
    && g.time(now).Some?
    && decision in policy.requiredDecisions && reason in policy.allowedReasons
    && (requestRef.Some? ==> HexReference(requestRef.value))
    && policy.allowedFields == EVENT_FIELDS
  }

  predicate FieldEncodes(g: Logger, value: Json) { NonEmptyText(value) ==> g.encodes(value.s) }

  /** The identifiers that are hashed can be encoded. */
  predicate Encodable(g: Logger, hook: Json, approvalId: Option<string>) {
    && FieldEncodes(g, Get(hook, "session_id")) && FieldEncodes(g, Get(hook, "tool_use_id"))
    && (approvalId.Some? && approvalId.value != "" ==> g.encodes(approvalId.value))
  }

  /** `build_event`. */
  function BuildEvent(g: Logger, policy: AuditPolicy, provider: string, hook: Json, decision: string, reason: string,
                      now: Json, requestRef: Option<string>, approvalId: Option<string>): Result<Event, Unevaluable>
  {
    if !Loggable(g, policy, decision, reason, now, requestRef) || !Encodable(g, hook, approvalId) then Err(Unevaluable)
    else
      Ok(Event(policy.eventSchema, now, "PSB-AI-004", policy.revision, provider,
               Reference(g, Get(hook, "session_id")), Reference(g, Get(hook, "tool_use_id")),
               ToolRef(Get(hook, "tool_name")), decision, reason, requestRef,
               if approvalId.Some? && approvalId.value != "" then Some(g.hash(approvalId.value)) else None))
  }

  // ---------------------------------------------------------------- reading the log back

  predicate SafeReference(value: string) { HexReference(value) || value == "unavailable" }

  /** The shape tests that `audit_matches` applies to one event. */
  predicate ShapeOk(policy: AuditPolicy, e: Event) {
    && policy.allowedFields == EVENT_FIELDS
    && Same(e.schema, policy.eventSchema) && e.controlId == "PSB-AI-004" && Same(e.revision, policy.revision)
    && e.provider in {"claude-code", "codex"}
    && SafeReference(e.sessionRef) && SafeReference(e.eventRef) && ToolReference(e.toolRef)
    && e.decision in policy.requiredDecisions && e.reasonCode in policy.allowedReasons
    && (e.requestRef.Some? ==> HexReference(e.requestRef.value))
    && (e.approvalRef.Some? ==> HexReference(e.approvalRef.value))
  }

  function Decisions(events: seq<Event>): set<string> {
    set i | 0 <= i < |events| :: events[i].decision
  }

  predicate AuditReady(g: Logger, policy: AuditPolicy, now: Json) {
    IntOf(policy.maximumEventAge).Some? && IntOf(policy.maximumEventAge).value >= 1 && g.time(now).Some?
  }

  predicate Timed(g: Logger, events: seq<Event>) {
    forall i :: 0 <= i < |events| ==> g.time(events[i].timestamp).Some?
  }

  predicate EventsOk(g: Logger, policy: AuditPolicy, events: seq<Event>, now: Json)
    requires AuditReady(g, policy, now) && Timed(g, events)
  {
    forall i :: 0 <= i < |events| ==>
      ShapeOk(policy, events[i])
      && Fresh(g.time(now).value, g.time(events[i].timestamp).value, IntOf(policy.maximumEventAge).value)
  }

  /** An event the gate builds passes the reader's shape test exactly when its provider is one of the two known. */
  lemma BuiltEventPasses(g: Logger, policy: AuditPolicy, provider: string, hook: Json, decision: string, reason: string,
                         now: Json, requestRef: Option<string>, approvalId: Option<string>)
    requires Faithful(g)
    requires BuildEvent(g, policy, provider, hook, decision, reason, now, requestRef, approvalId).Ok?
    ensures var e := BuildEvent(g, policy, provider, hook, decision, reason, now, requestRef, approvalId).value;
            && (ShapeOk(policy, e) <==> provider in {"claude-code", "codex"})
            && e.timestamp == now && g.time(e.timestamp).Some? && e.decision in policy.requiredDecisions
  {
    hide HexReference, ToolReference, Get, Encodable;
    UnavailableIsReference();
  }

  lemma PlaceholderIsNoDigest(g: Logger, s: string)
    requires Faithful(g)
    ensures g.hash(s) != "unavailable"
  {
    assert HexReference(g.hash(s));
    assert |g.hash(s)| == 64;
  }

  /** The digests of these two fields, where they are texts, are equal only if the texts are. */
  predicate Apart(g: Logger, a: Json, b: Json) {
    a.Str? && b.Str? && g.hash(a.s) == g.hash(b.s) ==> a == b
  }

  lemma SameReference(g: Logger, a: Json, b: Json)
    requires Faithful(g) && Apart(g, a, b)
    ensures Reference(g, a) == Reference(g, b) <==> a == b || (!NonEmptyText(a) && !NonEmptyText(b))
  {
    hide Faithful;
    if NonEmptyText(a) {
      PlaceholderIsNoDigest(g, a.s);
    }
    if NonEmptyText(b) {
      PlaceholderIsNoDigest(g, b.s);
    }
  }

  /**
   * Redaction keeps identity: where digests do not collide, two built events carry the same session, event and approval
   * references exactly when the hidden identifiers are the same, or equally absent.
   */
  lemma ReferencesIdentify(g: Logger, policy: AuditPolicy, provider: string, hook: Json, other: Json, decision: string,
                           reason: string, now: Json, requestRef: Option<string>, id: string, otherId: string)
    requires Faithful(g) && Loggable(g, policy, decision, reason, now, requestRef) && id != "" && otherId != ""
    requires Encodable(g, hook, Some(id)) && Encodable(g, other, Some(otherId))
    requires Apart(g, Get(hook, "session_id"), Get(other, "session_id")) && Apart(g, Str(id), Str(otherId))
    requires Apart(g, Get(hook, "tool_use_id"), Get(other, "tool_use_id"))
    ensures var e := BuildEvent(g, policy, provider, hook, decision, reason, now, requestRef, Some(id)).value;
            var f := BuildEvent(g, policy, provider, other, decision, reason, now, requestRef, Some(otherId)).value;
            var session, use := "session_id", "tool_use_id";
            && (e.sessionRef == f.sessionRef
                <==> Get(hook, session) == Get(other, session)
                     || (!NonEmptyText(Get(hook, session)) && !NonEmptyText(Get(other, session))))
            && (e.eventRef == f.eventRef
                <==> Get(hook, use) == Get(other, use)
                     || (!NonEmptyText(Get(hook, use)) && !NonEmptyText(Get(other, use))))
            && (e.approvalRef == f.approvalRef <==> id == otherId)
            && e.decision == f.decision == decision && e.requestRef == f.requestRef == requestRef
  {
    hide Faithful, Get, Reference, ToolReference, Loggable, NonEmptyText, Encodable;
    SameReference(g, Get(hook, "session_id"), Get(other, "session_id"));
    SameReference(g, Get(hook, "tool_use_id"), Get(other, "tool_use_id"));
  }

  /** An event some gate run built for a known provider. */
  ghost predicate Built(g: Logger, policy: AuditPolicy, e: Event) {
    exists provider, hook, decision, reason, now, requestRef, approvalId ::
      provider in {"claude-code", "codex"}
      && BuildEvent(g, policy, provider, hook, decision, reason, now, requestRef, approvalId) == Ok(e)
  }

  /** A log of built events, all fresh, passes as soon as every required decision occurs in it and storage is sound. */
  lemma BuiltLogPasses(g: Logger, policy: AuditPolicy, events: seq<Event>, now: Json)
    requires Faithful(g) && AuditReady(g, policy, now)
    requires forall i :: 0 <= i < |events| ==> Built(g, policy, events[i])
    requires forall i :: 0 <= i < |events| && g.time(events[i].timestamp).Some? ==>
               Fresh(g.time(now).value, g.time(events[i].timestamp).value, IntOf(policy.maximumEventAge).value)
    ensures Timed(g, events) && EventsOk(g, policy, events, now)
    ensures Decisions(events) <= set d | d in policy.requiredDecisions
  {
    hide ShapeOk, BuildEvent, Faithful;
    forall i | 0 <= i < |events|
      ensures g.time(events[i].timestamp).Some? && ShapeOk(policy, events[i])
              && events[i].decision in policy.requiredDecisions
    {
      var provider, hook, decision, reason, time, requestRef, approvalId :|
        provider in {"claude-code", "codex"}
        && BuildEvent(g, policy, provider, hook, decision, reason, time, requestRef, approvalId) == Ok(events[i]);
      BuiltEventPasses(g, policy, provider, hook, decision, reason, time, requestRef, approvalId);
    }
  }

  // ---------------------------------------------------------------- the append

  function Line(g: Logger, e: Event): string { g.encode(e) + "\n" }

  /** The size limit is well formed and leaves room for the line. */
  predicate Fits(content: string, line: string, maximumBytes: Json) {
    && IntOf(maximumBytes).Some? && IntOf(maximumBytes).value >= 1024
    && |content| + |line| <= IntOf(maximumBytes).value
  }

  /** What one `os.write` does: it takes some of the bytes, or raises. */
  datatype Write = Wrote(count: int) | Raises

  lemma NothingTaken(content: string, line: string)
    ensures content == content + line[..0] && line == line[0..]
  {
  }

  lemma TakeMore(content: string, line: string, taken: nat, count: nat)
    requires taken + count <= |line|
    ensures content + line[..taken] + line[taken..][..count] == content + line[..taken + count]
    ensures line[taken..][count..] == line[taken + count..]
  {
    assert line[..taken] + line[taken..][..count] == line[..taken + count];
  }

  lemma FitsBounds(content: string, line: string, maximumBytes: Json)
    requires Fits(content, line, maximumBytes)
    ensures IntOf(maximumBytes).Some? && |content| + |line| <= IntOf(maximumBytes).value
  {
  }

  /** The shared log file. */
  class AuditFile {
    var content: string

    constructor ()
      ensures content == ""
    {
      content := "";
    }

    /**
     * The locked part of `append_event`: size check, then short writes until the line is out, then a sync. A write
     * never takes more than it is given; the answers are the environment's.
     */
    method Append(line: string, maximumBytes: Json, write: nat -> Write, synced: bool)
      returns (r: Result<(), Unevaluable>, ghost taken: nat)
      modifies this
      ensures taken <= |line| && content == old(content) + line[..taken]
      ensures r.Ok? ==> taken == |line|
      ensures !Fits(old(content), line, maximumBytes) ==> r.Err? && taken == 0
      ensures taken > 0 ==> |content| <= IntOf(maximumBytes).value
    {
      hide Fits;
      NothingTaken(content, line);
      if !Fits(content, line, maximumBytes) {
        return Err(Unevaluable), 0;
      }
      assert |content| + |line| <= IntOf(maximumBytes).value by { FitsBounds(content, line, maximumBytes); }
      var remaining, turn := line, 0;
      taken := 0;
      while remaining != ""
        invariant taken <= |line| && remaining == line[taken..]
        invariant content == old(content) + line[..taken]
        decreases |remaining|
      {
        var answer := write(turn);
        if answer.Raises? || answer.count <= 0 {
          return Err(Unevaluable), taken;
        }
        var count := if answer.count <= |remaining| then answer.count else |remaining|;
        TakeMore(old(content), line, taken, count);
        content := content + remaining[..count];
        remaining, turn, taken := remaining[count..], turn + 1, taken + count;
      }
      if !synced {
        return Err(Unevaluable), taken;
      }
      return Ok(()), taken;
    }
  }

  // ---------------------------------------------------------------- the log as a whole

  /** One append: the event and how many characters of its line were written. */
  datatype Chunk = Chunk(event: Event, taken: nat)

  predicate ChunkOk(g: Logger, c: Chunk) { c.taken <= |Line(g, c.event)| }

  predicate Complete(g: Logger, c: Chunk) { c.taken == |Line(g, c.event)| }

  predicate ChunksOk(g: Logger, chunks: seq<Chunk>) {
    forall i :: 0 <= i < |chunks| ==> ChunkOk(g, chunks[i])
  }

  /** The text that a sequence of locked appends leaves behind. */
  function Content(g: Logger, chunks: seq<Chunk>): string
    requires ChunksOk(g, chunks)
  {
    if chunks == [] then ""
    else
      var last := chunks[|chunks| - 1];
      Content(g, chunks[..|chunks| - 1]) + Line(g, last.event)[..last.taken]
  }

  /** The events whose lines are whole, in lock order. */
  function Completed(g: Logger, chunks: seq<Chunk>): seq<Event> {
    if chunks == [] then []
    else
      var last := chunks[|chunks| - 1];
      Completed(g, chunks[..|chunks| - 1]) + (if Complete(g, last) then [last.event] else [])
  }

  /** Where Python's `splitlines` breaks a text. */
  predicate LineBreak(c: char) {
    || '\n' <= c <= '\r' || '\U{1c}' <= c <= '\U{1e}' || c == '\U{85}' || c == '\U{2028}' || c == '\U{2029}'
  }

  /** `text.splitlines()`, for a text that contains no carriage return; `line` is the line read so far. */
  function SplitLinesFrom(text: string, line: string): seq<string>
    decreases |text|
  {
    if text == "" then (if line == "" then [] else [line])
    else if LineBreak(text[0]) then [line] + SplitLinesFrom(text[1..], "")
    else SplitLinesFrom(text[1..], line + [text[0]])
  }

  function SplitLines(text: string): seq<string> { SplitLinesFrom(text, "") }

  function Lines(g: Logger, events: seq<Event>): seq<string> {
    seq(|events|, i requires 0 <= i < |events| => g.encode(events[i]))
  }

  lemma {:induction false} SplitConsumes(body: string, rest: string, line: string)
    requires forall i :: 0 <= i < |body| ==> !LineBreak(body[i])
    ensures SplitLinesFrom(body + "\n" + rest, line) == [line + body] + SplitLinesFrom(rest, "")
    decreases |body|
  {
    var text := body + "\n" + rest;
    if body == "" {
      assert text[0] == '\n' && text[1..] == rest && line + body == line;
    } else {
      assert text[0] == body[0] && text[1..] == body[1..] + "\n" + rest;
      SplitConsumes(body[1..], rest, line + [body[0]]);
      assert line + [body[0]] + body[1..] == line + body;
    }
  }

  lemma LineHasNoBreak(g: Logger, e: Event)
    requires Faithful(g)
    ensures forall i :: 0 <= i < |g.encode(e)| ==> !LineBreak(g.encode(e)[i])
  {
  }

  /** All the lines of a list of events, one after another. */
  function Text(g: Logger, events: seq<Event>): string {
    if events == [] then "" else Line(g, events[0]) + Text(g, events[1..])
  }

  lemma {:induction false} TextSplits(g: Logger, events: seq<Event>)
    requires Faithful(g)
    ensures SplitLines(Text(g, events)) == Lines(g, events)
  {
    hide Faithful;
    if events == [] {
    } else {
      LineHasNoBreak(g, events[0]);
      assert Line(g, events[0]) + Text(g, events[1..]) == g.encode(events[0]) + "\n" + Text(g, events[1..]);
      SplitConsumes(g.encode(events[0]), Text(g, events[1..]), "");
      assert "" + g.encode(events[0]) == g.encode(events[0]);
      TextSplits(g, events[1..]);
    }
  }

  lemma {:induction false} TextSnoc(g: Logger, events: seq<Event>, last: Event)
    ensures Text(g, events + [last]) == Text(g, events) + Line(g, last)
  {
    hide Line;
    if events == [] {
      assert [last][1..] == [] && events + [last] == [last];
      assert Line(g, last) + "" == Line(g, last);
    } else {
      assert (events + [last])[1..] == events[1..] + [last];
      TextSnoc(g, events[1..], last);
      assert Line(g, events[0]) + (Text(g, events[1..]) + Line(g, last))
          == Line(g, events[0]) + Text(g, events[1..]) + Line(g, last);
    }
  }

  /** No append stopped part way through its line. */
  predicate NoTornLine(g: Logger, chunks: seq<Chunk>) {
    forall i :: 0 <= i < |chunks| ==> chunks[i].taken == 0 || Complete(g, chunks[i])
  }

  lemma {:induction false} WholeContent(g: Logger, chunks: seq<Chunk>)
    requires ChunksOk(g, chunks) && NoTornLine(g, chunks)
    ensures Content(g, chunks) == Text(g, Completed(g, chunks))
  {
    if chunks != [] {
      var n := |chunks| - 1;
      var last := chunks[n];
      WholeContent(g, chunks[..n]);
      assert last.taken == 0 || Complete(g, last);
      if Complete(g, last) {
        TextSnoc(g, Completed(g, chunks[..n]), last.event);
        assert Line(g, last.event)[..last.taken] == Line(g, last.event);
      } else {
        assert Line(g, last.event)[..last.taken] == "";
        assert Completed(g, chunks[..n]) + [] == Completed(g, chunks[..n]);
      }
    }
  }

  /** Characters in the lines, one more for each line. */
  function Size(lines: seq<string>): nat {
    if lines == [] then 0 else |lines[0]| + 1 + Size(lines[1..])
  }

  lemma {:induction false} SplitSize(text: string, line: string)
    ensures |line| + |text| <= Size(SplitLinesFrom(text, line))
    decreases |text|
  {
    if text == "" {
      assert SplitLinesFrom(text, line) == if line == "" then [] else [line];
      assert line != "" ==> Size([line]) == |line| + 1 + Size([line][1..]);
    } else if LineBreak(text[0]) {
      SplitSize(text[1..], "");
      var rest := SplitLinesFrom(text[1..], "");
      assert ([line] + rest)[1..] == rest;
    } else {
      SplitSize(text[1..], line + [text[0]]);
    }
  }

  lemma {:induction false} LinesSize(g: Logger, events: seq<Event>)
    ensures Size(Lines(g, events)) == |Text(g, events)|
  {
    if events != [] {
      assert Lines(g, events)[1..] == Lines(g, events[1..]);
      LinesSize(g, events[1..]);
    }
  }

  /** Characters written by appends that stopped part way. */
  function Torn(g: Logger, chunks: seq<Chunk>): nat {
    if chunks == [] then 0
    else
      var last := chunks[|chunks| - 1];
      Torn(g, chunks[..|chunks| - 1]) + (if Complete(g, last) then 0 else last.taken)
  }

  lemma {:induction false} ContentSize(g: Logger, chunks: seq<Chunk>)
    requires ChunksOk(g, chunks)
    ensures |Content(g, chunks)| == |Text(g, Completed(g, chunks))| + Torn(g, chunks)
  {
    if chunks != [] {
      var n := |chunks| - 1;
      var last := chunks[n];
      ContentSize(g, chunks[..n]);
      assert ChunkOk(g, last);
      if Complete(g, last) {
        TextSnoc(g, Completed(g, chunks[..n]), last.event);
      } else {
        assert Completed(g, chunks[..n]) + [] == Completed(g, chunks[..n]);
      }
    }
  }

  lemma {:induction false} TornMeans(g: Logger, chunks: seq<Chunk>)
    ensures Torn(g, chunks) == 0 <==> NoTornLine(g, chunks)
  {
    if chunks != [] {
      var n := |chunks| - 1;
      TornMeans(g, chunks[..n]);
      assert forall i :: 0 <= i < n ==> chunks[..n][i] == chunks[i];
    }
  }

  /**
   * Read back line by line, the log is exactly the completed events in lock order if and only if no append stopped
   * inside its line.
   */
  lemma LogReadsBack(g: Logger, chunks: seq<Chunk>)
    requires Faithful(g) && ChunksOk(g, chunks)
    ensures SplitLines(Content(g, chunks)) == Lines(g, Completed(g, chunks)) <==> NoTornLine(g, chunks)
  {
    hide Faithful, SplitLinesFrom, NoTornLine;
    TornMeans(g, chunks);
    if NoTornLine(g, chunks) {
      WholeContent(g, chunks);
      TextSplits(g, Completed(g, chunks));
    } else {
      SplitSize(Content(g, chunks), "");
      LinesSize(g, Completed(g, chunks));
      ContentSize(g, chunks);
    }
  }

  /** Decoding is unambiguous: the lines determine the events. */
  lemma LinesDetermineEvents(g: Logger, events: seq<Event>, others: seq<Event>)
    requires Faithful(g) && Lines(g, events) == Lines(g, others)
    ensures events == others
  {
    assert |Lines(g, events)| == |Lines(g, others)|;
    forall i | 0 <= i < |events| ensures events[i] == others[i] {
      assert Lines(g, events)[i] == Lines(g, others)[i];
    }
  }
}
