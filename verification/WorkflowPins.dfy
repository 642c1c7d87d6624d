// Pinned action references in workflow files, on top of the comment scanner.
module WorkflowPins {
  import opened Wrappers
  import opened PyStrings
  import opened CommentScanner

  // ---------------------------------------------------------------- one reference

  predicate Hex(s: string) {
    forall i :: 0 <= i < |s| ==> '0' <= s[i] <= '9' || 'a' <= s[i] <= 'f' || 'A' <= s[i] <= 'F'
  }

  /** `unquote`. */
  function Unquote(value: string): string {
    var v := Strip(value);
    if |v| >= 2 && v[0] == v[|v| - 1] && (v[0] == '\'' || v[0] == '"') then v[1..|v| - 1] else v
  }

  /** `docker://` image `@sha256:` sixty-four hexadecimal digits. */
  predicate DockerDigest(v: string) {
    && |v| >= 9 + 1 + 8 + 64 && v[..9] == "docker://"
    && v[|v| - 72..|v| - 64] == "@sha256:" && Hex(v[|v| - 64..])
    && forall i :: 9 <= i < |v| - 72 ==> v[i] != '@' && !IsSpace(v[i])
  }

  predicate Contains(s: string, part: string) {
    exists i :: 0 <= i <= |s| && part <= s[i..]
  }

  /** The index of the last `@`, or -1: `rsplit("@", 1)`. */
  function LastAt(v: string): (i: int)
    ensures -1 <= i < |v|
    ensures i >= 0 ==> v[i] == '@'
    ensures forall k :: i < k < |v| ==> v[k] != '@'
  {
    if v == "" then -1 else if v[|v| - 1] == '@' then |v| - 1 else LastAt(v[..|v| - 1])
  }

  /** What `rsplit` leaves is a repository and a full commit. */
  predicate CommitReference(v: string) {
    LastAt(v) >= 0
    && var target, reference := v[..LastAt(v)], v[LastAt(v) + 1..];
       target != "" && '/' in target && |reference| == 40 && Hex(reference)
  }

  /** `evaluate_reference`, branch by branch. */
  predicate Accepted(v: string) {
    if StartsWith(v, "./") then true
    else if StartsWith(v, "docker://") then DockerDigest(v)
    else if Contains(v, "${{") then false
    else CommitReference(v)
  }

  /** An external action pinned by a full commit: the last forty characters, after an `@`. */
  predicate PinnedAction(v: string) {
    && |v| > 41 && v[|v| - 41] == '@' && Hex(v[|v| - 40..])
    && '/' in v[..|v| - 41] && !Contains(v, "${{")
  }

  lemma HexHasNoAt(s: string)
    requires Hex(s)
    ensures '@' !in s
  {
  }

  /** What is accepted: a local path, an image by digest, or an action by full commit, and nothing else. */
  lemma AcceptedMeansPinned(v: string)
    ensures Accepted(v)
            <==> StartsWith(v, "./") || DockerDigest(v)
                 || (PinnedAction(v) && !StartsWith(v, "docker://"))
  {
    hide *;
    AcceptedCases(v);
    PinnedCases(v);
    DigestIsDocker(v);
  }

  lemma AcceptedCases(v: string)
    ensures Accepted(v)
            <==> StartsWith(v, "./")
                 || if StartsWith(v, "docker://") then DockerDigest(v) else !Contains(v, "${{") && CommitReference(v)
  {
    hide StartsWith, DockerDigest, Contains, CommitReference;
  }

  lemma DigestIsDocker(v: string)
    ensures DockerDigest(v) ==> StartsWith(v, "docker://")
  {
    hide Hex;
  }

  lemma PinnedCases(v: string)
    ensures PinnedAction(v) <==> !Contains(v, "${{") && CommitReference(v)
  {
    hide Contains, LastAt, Hex;
    LastAtBeforeHex(v);
    assert CommitReference(v) ==> LastAt(v) == |v| - 41;
  }

  lemma LastAtBeforeHex(v: string)
    ensures |v| >= 41 && v[|v| - 41] == '@' && Hex(v[|v| - 40..])
            <==> LastAt(v) >= 0 && |v[LastAt(v) + 1..]| == 40 && Hex(v[LastAt(v) + 1..])
    ensures LastAt(v) >= 0 && |v[LastAt(v) + 1..]| == 40 ==> LastAt(v) == |v| - 41
  {
    hide LastAt, Hex;
    if |v| >= 41 && v[|v| - 41] == '@' && Hex(v[|v| - 40..]) {
      HexHasNoAt(v[|v| - 40..]);
      assert forall k :: |v| - 40 <= k < |v| ==> v[k] == v[|v| - 40..][k - (|v| - 40)];
    }
  }

  // ---------------------------------------------------------------- the uses key

  const KEYS := ["\"uses\"", "'uses'", "uses"]

  predicate Blank(s: string) {
    forall i :: 0 <= i < |s| ==> IsSpace(s[i])
  }

  /** What follows one of the three spellings of the key. */
  function AfterKey(s: string): Option<string> {
    if StartsWith(s, KEYS[0]) then Some(s[|KEYS[0]|..])
    else if StartsWith(s, KEYS[1]) then Some(s[|KEYS[1]|..])
    else if StartsWith(s, KEYS[2]) then Some(s[|KEYS[2]|..])
    else None
  }

  /** What follows the key and its colon. */
  function AfterColon(s: string): Option<string> {
    match AfterKey(s)
    case None => None
    case Some(r) =>
      var l := LStrip(r);
      if l != "" && l[0] == ':' then Some(l[1..]) else None
  }

  function SkipDash(s: string): (r: string)
    ensures |r| <= |s| && r == s[|s| - |r|..]
  {
    if s != "" && s[0] == '-' then LStrip(s[1..]) else s
  }

  /** The line without its indentation and dash. */
  function Undented(line: string): string { SkipDash(LStrip(line)) }

  /**
   * The scalar value of a line that is nothing but a `uses` entry. The pattern would also take a last blank after the
   * colon for a value, but no candidate line ends in one: trailing blanks are stripped first.
   */
  function Uses(line: string): Option<string> {
    match AfterColon(Undented(line))
    case None => None
    case Some(rest) => if Strip(rest) == "" then None else Some(Strip(rest))
  }

  /** A `uses` key and its colon occur somewhere in the line. */
  predicate UsesKey(line: string) {
    exists i :: 0 <= i <= |line| && AfterColon(line[i..]).Some?
  }

  /** Blanks and at most one dash. */
  predicate Lead(s: string) {
    && (forall i :: 0 <= i < |s| ==> IsSpace(s[i]) || s[i] == '-')
    && forall i, j :: 0 <= i < j < |s| ==> s[i] != '-' || s[j] != '-'
  }

  /** The whole line spells a `uses` entry with this value: indentation, perhaps a dash, the key, a colon, the value. */
  ghost predicate Spells(line: string, value: string) {
    value != "" && exists lead, key, gap, rest ::
        line == lead + (key + (gap + (":" + rest))) && Lead(lead) && key in KEYS && Blank(gap) && Strip(rest) == value
  }

  lemma KeyReads(key: string, tail: string)
    requires key in KEYS
    ensures AfterKey(key + tail) == Some(tail)
  {
    var s := key + tail;
    assert s[..|key|] == key && s[|key|..] == tail;
    assert s[0] == key[0];
    assert KEYS[0][0] == '"' && KEYS[1][0] == '\'' && KEYS[2][0] == 'u';
    assert StartsWith(s, KEYS[0]) ==> s[..|KEYS[0]|][0] == s[0];
    assert StartsWith(s, KEYS[1]) ==> s[..|KEYS[1]|][0] == s[0];
  }

  lemma KeyFound(s: string) returns (key: string)
    requires AfterKey(s).Some?
    ensures key in KEYS && s == key + AfterKey(s).value
  {
    var k := if StartsWith(s, KEYS[0]) then 0 else if StartsWith(s, KEYS[1]) then 1 else 2;
    key := KEYS[k];
    assert s == s[..|key|] + s[|key|..];
  }

  lemma ColonReads(key: string, gap: string, rest: string)
    requires key in KEYS && Blank(gap)
    ensures AfterColon(key + (gap + (":" + rest))) == Some(rest)
  {
    hide AfterKey, IsSpace, LStrip;
    KeyReads(key, gap + (":" + rest));
    DashIsNoSpace();
    BlankDrops(gap, ":" + rest);
  }

  lemma {:induction false} LeadSkips(lead: string, s: string)
    requires Lead(lead) && s != "" && !IsSpace(s[0]) && s[0] != '-'
    ensures Undented(lead + s) == s
  {
    hide IsSpace, Undented, Lead, Blank;
    UndentStep(lead + s);
    if lead == "" {
      assert lead + s == s;
    } else {
      assert (lead + s)[0] == lead[0] && (lead + s)[1..] == lead[1..] + s;
      ShorterLead(lead);
      if lead[0] == '-' {
        DashIsNoSpace();
        BlankDrops(lead[1..], s);
      } else {
        LeadSkips(lead[1..], s);
      }
    }
  }

  lemma ShorterLead(lead: string)
    requires Lead(lead) && lead != ""
    ensures if lead[0] == '-' then Blank(lead[1..]) else IsSpace(lead[0]) && Lead(lead[1..])
  {
    hide IsSpace;
  }

  lemma LStripStep(s: string)
    requires s != ""
    ensures LStrip(s) == if IsSpace(s[0]) then LStrip(s[1..]) else s
  {
    hide IsSpace;
  }

  lemma NoDash(s: string)
    requires s != "" && s[0] != '-'
    ensures SkipDash(s) == s
  {
  }

  lemma DashSkipped(s: string)
    requires s != "" && s[0] == '-'
    ensures SkipDash(s) == LStrip(s[1..])
  {
    hide LStrip;
  }

  lemma DashIsNoSpace()
    ensures !IsSpace('-') && !IsSpace(':')
  {
  }

  lemma BlankDrops(blank: string, s: string)
    requires Blank(blank) && s != "" && !IsSpace(s[0])
    ensures LStrip(blank + s) == s
  {
    hide IsSpace, LStrip;
    LStripDrops(blank, s);
  }

  lemma KeyStarts(key: string)
    requires key in KEYS
    ensures key != "" && !IsSpace(key[0]) && key[0] != '-'
  {
    assert KEYS[0][0] == '"' && KEYS[1][0] == '\'' && KEYS[2][0] == 'u';
  }

  lemma {:induction false} SkippedIsLead(line: string) returns (lead: string)
    ensures line == lead + Undented(line) && Lead(lead)
  {
    hide IsSpace, Undented, Lead;
    EmptyLead();
    UndentStep(line);
    if line == "" {
      lead := "";
    } else if IsSpace(line[0]) {
      var inner := SkippedIsLead(line[1..]);
      LongerLead(line[0], inner);
      lead := [line[0]] + inner;
      assert line == [line[0]] + line[1..] == [line[0]] + (inner + Undented(line[1..]));
    } else if line[0] == '-' {
      lead := DashLead(line[1..]);
      assert line == ['-'] + line[1..];
    } else {
      lead := "";
      assert lead + line == line;
    }
  }

  lemma UndentStep(line: string)
    ensures line == "" ==> Undented(line) == ""
    ensures line != "" ==>
              Undented(line) == if IsSpace(line[0]) then Undented(line[1..]) else if line[0] == '-' then LStrip(line[1..]) else line
  {
    hide IsSpace, LStrip, SkipDash;
    if line != "" {
      LStripStep(line);
      if line[0] == '-' {
        DashIsNoSpace();
        DashSkipped(line);
      } else if !IsSpace(line[0]) {
        NoDash(line);
      }
    } else {
      NothingToStrip();
    }
  }

  lemma NothingToStrip()
    ensures SkipDash(LStrip("")) == ""
  {
  }

  lemma EmptyLead()
    ensures Lead("")
  {
  }

  lemma LongerLead(c: char, s: string)
    requires IsSpace(c) && Lead(s)
    ensures Lead([c] + s)
  {
    hide IsSpace;
    DashIsNoSpace();
  }

  lemma DashLead(s: string) returns (lead: string)
    ensures Lead(lead) && ['-'] + s == lead + LStrip(s)
  {
    hide IsSpace, LStrip;
    DashIsNoSpace();
    lead := ['-'] + s[..|s| - |LStrip(s)|];
  }

  /** The reader finds exactly the values that the line spells. */
  lemma UsesExactly(line: string, value: string)
    ensures Uses(line) == Some(value) <==> Spells(line, value)
  {
    hide Lead, Uses, Blank, Strip;
    if Uses(line) == Some(value) {
      UsesSpells(line, value);
    }
    if Spells(line, value) {
      var lead, key, gap, rest :|
        line == lead + (key + (gap + (":" + rest))) && Lead(lead) && key in KEYS && Blank(gap) && Strip(rest) == value;
      SpelledIsRead(lead, key, gap, rest);
    }
  }

  lemma UsesSpells(line: string, value: string)
    requires Uses(line) == Some(value)
    ensures Spells(line, value)
  {
    hide Lead, Undented, AfterColon, Blank, Strip;
    var lead := SkippedIsLead(line);
    var s := Undented(line);
    var key, gap := ColonFound(s);
    assert line == lead + (key + (gap + (":" + AfterColon(s).value)));
  }

  lemma SpelledIsRead(lead: string, key: string, gap: string, rest: string)
    requires Lead(lead) && key in KEYS && Blank(gap)
    ensures Uses(lead + (key + (gap + (":" + rest)))) == if Strip(rest) == "" then None else Some(Strip(rest))
  {
    hide Lead, Undented, AfterColon, Blank, Strip, IsSpace;
    var body := key + (gap + (":" + rest));
    KeyStarts(key);
    assert body[0] == key[0];
    LeadSkips(lead, body);
    ColonReads(key, gap, rest);
  }

  lemma ColonFound(s: string) returns (key: string, gap: string)
    requires AfterColon(s).Some?
    ensures key in KEYS && Blank(gap) && s == key + (gap + (":" + AfterColon(s).value))
  {
    hide AfterKey;
    key := KeyFound(s);
    var r := AfterKey(s).value;
    var l := LStrip(r);
    gap := r[..|r| - |l|];
    assert r == gap + l && l == ":" + l[1..];
  }

  lemma UsesHasKey(line: string)
    ensures Uses(line).Some? ==> UsesKey(line)
  {
    hide AfterColon, SkipDash;
    var l := LStrip(line);
    var s := SkipDash(l);
    assert s == line[|line| - |s|..];
  }

  // ---------------------------------------------------------------- one file

  datatype LineVerdict = Skipped | Unsupported | Checked(accepted: bool)

  function JudgeLine(kept: string): LineVerdict {
    var candidate := RStrip(kept);
    if Strip(candidate) == "" || StartsWith(LStrip(candidate), "#") then Skipped
    else match Uses(candidate)
      case None => if UsesKey(candidate) then Unsupported else Skipped
      case Some(value) => Checked(Accepted(Unquote(value)))
  }

  /** The text before the first comment at or after position `n`. */
  function UncommentedFrom(line: string, n: nat): string
    requires n <= |line|
    decreases |line| - n
  {
    if n == |line| then line else if CommentAt(line, n) then line[..n] else UncommentedFrom(line, n + 1)
  }

  function Uncommented(line: string): string { UncommentedFrom(line, 0) }

  lemma {:induction false} UncommentedFromStrips(line: string, n: nat)
    requires n <= |line| && forall i: nat :: i < n ==> !CommentAt(line, i)
    ensures Stripped(line, UncommentedFrom(line, n))
    decreases |line| - n
  {
    if n < |line| && !CommentAt(line, n) {
      UncommentedFromStrips(line, n + 1);
    }
  }

  datatype Tally = Tally(checked: nat, violations: nat)

  /** A line with a `uses:` key that is not one scalar reference stops the verification. */
  datatype UnsupportedSyntax = UnsupportedSyntax

  function TallyOf(lines: seq<string>): Result<Tally, UnsupportedSyntax> {
    if lines == [] then Ok(Tally(0, 0))
    else match TallyOf(lines[..|lines| - 1])
      case Err(e) => Err(e)
      case Ok(t) =>
        match JudgeLine(Uncommented(lines[|lines| - 1]))
        case Skipped => Ok(t)
        case Unsupported => Err(UnsupportedSyntax)
        case Checked(accepted) => Ok(Tally(t.checked + 1, t.violations + if accepted then 0 else 1))
  }

  lemma {:induction false} FirstUnsupported(lines: seq<string>, n: nat)
    requires n <= |lines| && TallyOf(lines[..n]).Err?
    ensures TallyOf(lines) == Err(UnsupportedSyntax)
    decreases |lines| - n
  {
    hide JudgeLine, Uncommented;
    assert TallyOf(lines[..n]).error.UnsupportedSyntax?;
    if n == |lines| {
      assert lines[..n] == lines;
    } else {
      assert lines[..n + 1][..n] == lines[..n];
      FirstUnsupported(lines, n + 1);
    }
  }

  lemma TallyStep(lines: seq<string>, n: nat)
    requires n < |lines| && TallyOf(lines[..n]).Ok?
    ensures TallyOf(lines[..n + 1])
         == match JudgeLine(Uncommented(lines[n]))
            case Skipped => TallyOf(lines[..n])
            case Unsupported => Err(UnsupportedSyntax)
            case Checked(accepted) =>
              Ok(Tally(TallyOf(lines[..n]).value.checked + 1,
                       TallyOf(lines[..n]).value.violations + if accepted then 0 else 1))
  {
    hide JudgeLine, Uncommented;
    assert lines[..n + 1][..n] == lines[..n];
  }

  /** `verify_file` on the lines of one file. */
  method VerifyFile(lines: seq<string>) returns (r: Result<Tally, UnsupportedSyntax>)
    ensures r == TallyOf(lines)
  {
    hide *;
    var checked, violations := 0, 0;
    assert lines[..0] == [];
    assert TallyOf([]) == Ok(Tally(0, 0)) by { NothingTallied(); }
    for i := 0 to |lines|
      invariant TallyOf(lines[..i]) == Ok(Tally(checked, violations))
    {
      TallyStep(lines, i);
      var kept := StripYamlComment(lines[i]);
      UncommentedStrips(lines[i]);
      StrippedUnique(lines[i], kept, Uncommented(lines[i]));
      match JudgeLine(kept) {
        case Skipped =>
        case Unsupported =>
          FirstUnsupported(lines, i + 1);
          return Err(UnsupportedSyntax);
        case Checked(accepted) =>
          checked := checked + 1;
          if !accepted {
            violations := violations + 1;
          }
      }
    }
    assert lines[..|lines|] == lines;
    return Ok(Tally(checked, violations));
  }

  lemma NothingTallied()
    ensures TallyOf([]) == Ok(Tally(0, 0))
  {
  }

  lemma UncommentedStrips(line: string)
    ensures Stripped(line, Uncommented(line))
  {
    UncommentedFromStrips(line, 0);
  }

  // ---------------------------------------------------------------- what the tally means

  /** No violation exactly when every checked reference is pinned. */
  lemma {:induction false} CleanMeansPinned(lines: seq<string>)
    requires TallyOf(lines).Ok?
    ensures TallyOf(lines).value.violations == 0
            <==> forall i :: 0 <= i < |lines| && JudgeLine(Uncommented(lines[i])).Checked? ==>
                   JudgeLine(Uncommented(lines[i])).accepted
  {
    hide JudgeLine, Uncommented;
    if lines != [] {
      CleanMeansPinned(lines[..|lines| - 1]);
      assert forall i :: 0 <= i < |lines| - 1 ==> lines[..|lines| - 1][i] == lines[i];
    }
  }

  lemma {:induction false} SpacesStayOutside(s: string)
    requires Blank(s)
    ensures Run(OUTSIDE, s) == OUTSIDE
  {
    if s != "" {
      assert IsSpace(s[0]);
      SpacesStayOutside(s[1..]);
    }
  }

  /** No comment is left at the start of what the scanner keeps. */
  lemma NoCommentFirst(line: string)
    ensures var kept := Uncommented(line); LStrip(RStrip(kept)) == "" || LStrip(RStrip(kept))[0] != '#'
  {
    hide Uncommented, CommentAt;
    var kept := Uncommented(line);
    UncommentedStrips(line);
    var candidate := RStrip(kept);
    var l := LStrip(candidate);
    if l != "" && l[0] == '#' {
      var i: nat := |candidate| - |l|;
      assert line[..i] == candidate[..i] && line[i] == '#';
      HashAfterBlanks(line, i);
    }
  }

  lemma HashAfterBlanks(line: string, i: nat)
    requires i < |line| && Blank(line[..i]) && line[i] == '#'
    ensures CommentAt(line, i)
  {
    SpacesStayOutside(line[..i]);
  }

  lemma StrippedAway(s: string)
    requires Strip(s) == ""
    ensures Blank(s)
  {
    hide IsSpace;
    var l := LStrip(s);
  }

  lemma BlankHasNoKey(s: string)
    requires Strip(s) == ""
    ensures !UsesKey(s)
  {
    hide AfterColon, IsSpace, Strip;
    StrippedAway(s);
    if i :| 0 <= i <= |s| && AfterColon(s[i..]).Some? {
      var key, gap := ColonFound(s[i..]);
      KeyStarts(key);
      assert s[i] == key[0];
    }
  }

  /** A line is skipped exactly when it mentions no `uses` key outside its comment. */
  lemma SkippedMeansNoKey(line: string)
    ensures JudgeLine(Uncommented(line)).Skipped? <==> !UsesKey(RStrip(Uncommented(line)))
  {
    hide Uncommented, UsesKey, Uses, Accepted;
    var candidate := RStrip(Uncommented(line));
    NoCommentFirst(line);
    UsesHasKey(candidate);
    if Strip(candidate) == "" {
      BlankHasNoKey(candidate);
    }
  }

  /**
   * Nothing escapes: in a file that is verified without a violation, every line that mentions a `uses` key outside its
   * comment is an entry of one scalar value, and that value is an accepted reference.
   */
  lemma NothingEscapes(lines: seq<string>)
    requires TallyOf(lines).Ok? && TallyOf(lines).value.violations == 0
    ensures forall i :: 0 <= i < |lines| && UsesKey(RStrip(Uncommented(lines[i]))) ==>
              exists value :: Spells(RStrip(Uncommented(lines[i])), value) && Accepted(Unquote(value))
  {
    hide TallyOf, Uncommented, UsesKey, Uses, Accepted, Spells, Unquote;
    CleanMeansPinned(lines);
    forall i | 0 <= i < |lines| && UsesKey(RStrip(Uncommented(lines[i])))
      ensures exists value :: Spells(RStrip(Uncommented(lines[i])), value) && Accepted(Unquote(value))
    {
      SkippedMeansNoKey(lines[i]);
      NoUnsupported(lines, i);
      var candidate := RStrip(Uncommented(lines[i]));
      assert JudgeLine(Uncommented(lines[i])).Checked?;
      UsesExactly(candidate, Uses(candidate).value);
    }
  }

  lemma {:induction false} NoUnsupported(lines: seq<string>, i: nat)
    requires TallyOf(lines).Ok? && i < |lines|
    ensures !JudgeLine(Uncommented(lines[i])).Unsupported?
  {
    hide JudgeLine, Uncommented;
    if i < |lines| - 1 {
      NoUnsupported(lines[..|lines| - 1], i);
    }
  }

  function UncommentAll(lines: seq<string>): seq<string> {
    seq(|lines|, i requires 0 <= i < |lines| => Uncommented(lines[i]))
  }

  /** Comments never matter: removing every comment from a file leaves its tally unchanged. */
  lemma {:induction false} CommentsNeverMatter(lines: seq<string>)
    ensures TallyOf(UncommentAll(lines)) == TallyOf(lines)
  {
    hide JudgeLine, Uncommented, Stripped;
    if lines != [] {
      var n := |lines| - 1;
      CommentsNeverMatter(lines[..n]);
      assert UncommentAll(lines)[..n] == UncommentAll(lines[..n]);
      var kept := Uncommented(lines[n]);
      UncommentedStrips(lines[n]);
      UncommentedStrips(kept);
      StripIdempotent(lines[n], kept, Uncommented(kept));
    }
  }
}
