// The quote-aware comment scanner of the action-pinning verifier, against a grammar of
// quoted and plain text that never mentions the scanner's state.
module CommentScanner {
  import opened Wrappers

  // ---------------------------------------------------------------- scanner state

  datatype Scan = Scan(quote: Option<char>, escaped: bool)

  const OUTSIDE := Scan(None, false)

  /** One loop iteration that does not return. */
  function Step(st: Scan, c: char): Scan {
    if st.escaped then st.(escaped := false)
    else if st.quote == Some('"') && c == '\\' then st.(escaped := true)
    else if c == '\'' || c == '"' then
      if st.quote == Some(c) then st.(quote := None)
      else if st.quote == None then st.(quote := Some(c))
      else st
    else st
  }

  function Run(st: Scan, s: string): Scan
    decreases s
  {
    if s == [] then st else Run(Step(st, s[0]), s[1..])
  }

  lemma {:induction false} RunConcat(st: Scan, a: string, b: string)
    ensures Run(st, a + b) == Run(Run(st, a), b)
    decreases a
  {
    if a == [] {
      assert a + b == b;
    } else {
      assert (a + b)[1..] == a[1..] + b;
      RunConcat(Step(st, a[0]), a[1..], b);
    }
  }

  /** Position i holds a '#' that no quote, open or closed, contains. */
  predicate CommentAt(line: string, i: nat) {
    i < |line| && line[i] == '#' && Run(OUTSIDE, line[..i]) == OUTSIDE
  }

  /** `kept` is the text before the first unquoted '#', or the whole line. */
  predicate Stripped(line: string, kept: string) {
    && kept <= line
    && (forall i: nat :: i < |kept| ==> !CommentAt(line, i))
    && (|kept| < |line| ==> CommentAt(line, |kept|))
  }

  method StripYamlComment(line: string) returns (kept: string)
    ensures Stripped(line, kept)
  {
    var quote: Option<char> := None;
    var escaped := false;
    for index := 0 to |line|
      invariant Scan(quote, escaped) == Run(OUTSIDE, line[..index])
      invariant escaped ==> quote == Some('"')
      invariant forall i: nat :: i < index ==> !CommentAt(line, i)
    {
      var character := line[index];
      assert line[..index + 1] == line[..index] + [character];
      RunConcat(OUTSIDE, line[..index], [character]);
      assert Run(Scan(quote, escaped), [character]) == Step(Scan(quote, escaped), character);
      if escaped {
        escaped := false;
        continue;
      }
      if quote == Some('"') && character == '\\' {
        escaped := true;
        continue;
      }
      if character == '\'' || character == '"' {
        if quote == Some(character) {
          quote := None;
        } else if quote == None {
          quote := Some(character);
        }
        continue;
      }
      if character == '#' && quote == None {
        return line[..index];
      }
    }
    return line;
  }

  /** There is exactly one stripped form of a line. */
  lemma StrippedUnique(line: string, a: string, b: string)
    requires Stripped(line, a) && Stripped(line, b)
    ensures a == b
  {
    assert a == line[..|a|] && b == line[..|b|];
  }

  /** Stripping a stripped line changes nothing. */
  lemma StripIdempotent(line: string, kept: string, again: string)
    requires Stripped(line, kept) && Stripped(kept, again)
    ensures again == kept
  {
    if |again| < |kept| {
      assert kept[..|again|] == line[..|again|];
      assert CommentAt(line, |again|);
      assert false;
    }
  }

  // ---------------------------------------------------------------- grammar

  /** A plain character, or a closed quotation. */
  datatype Segment = Plain(c: char) | Quoted(mark: char, body: string)

  /**
    * The inside of a quotation: single-quoted text is raw up to the next mark, double-quoted
    * text is a run of escape pairs and plain characters. `open` says the closing mark is
    * missing, in which case a final lone backslash is possible.
    */
  predicate Body(mark: char, body: string, open: bool) {
    if body == [] then true
    else if mark == '"' && body[0] == '\\' then
      if |body| == 1 then open else Body(mark, body[2..], open)
    else body[0] != mark && Body(mark, body[1..], open)
  }

  predicate WellFormed(seg: Segment) {
    match seg
    case Plain(c) => c != '\'' && c != '"' && c != '#'
    case Quoted(mark, body) => (mark == '\'' || mark == '"') && Body(mark, body, false)
  }

  function Text(seg: Segment): string {
    match seg
    case Plain(c) => [c]
    case Quoted(mark, body) => [mark] + body + [mark]
  }

  function Render(segs: seq<Segment>): string {
    if segs == [] then [] else Text(segs[0]) + Render(segs[1..])
  }

  /** What may follow the closed segments: nothing, a comment, or a quotation left open. */
  predicate Tail(tail: string) {
    || tail == []
    || tail[0] == '#'
    || ((tail[0] == '\'' || tail[0] == '"') && Body(tail[0], tail[1..], true))
  }

  ghost predicate Reads(line: string, segs: seq<Segment>, tail: string) {
    && (forall seg :: seg in segs ==> WellFormed(seg))
    && Tail(tail)
    && line == Render(segs) + tail
  }

  /** Inside a quotation the scanner is never outside, and a closed body leaves it unescaped. */
  lemma {:induction false} BodyStaysInside(mark: char, body: string, open: bool, i: nat)
    requires mark == '\'' || mark == '"'
    requires Body(mark, body, open) && i <= |body|
    ensures Run(Scan(Some(mark), false), body[..i]).quote == Some(mark)
    ensures i == |body| && !open ==> Run(Scan(Some(mark), false), body[..i]) == Scan(Some(mark), false)
  {
    var st := Scan(Some(mark), false);
    if i == 0 {
    } else if mark == '"' && body[0] == '\\' {
      assert body[..i][1..] == body[1..i];
      if i > 1 {
        assert body[1..i][1..] == body[2..][..i - 2];
        BodyStaysInside(mark, body[2..], open, i - 2);
      }
    } else {
      assert body[..i][1..] == body[1..][..i - 1];
      BodyStaysInside(mark, body[1..], open, i - 1);
    }
  }

  lemma QuotationRun(mark: char, body: string, open: bool, i: nat)
    requires mark == '\'' || mark == '"'
    requires Body(mark, body, open) && i <= |body|
    ensures Run(OUTSIDE, ([mark] + body)[..i + 1]).quote == Some(mark)
    ensures i == |body| && !open ==> Run(OUTSIDE, [mark] + body) == Scan(Some(mark), false)
  {
    assert ([mark] + body)[..i + 1] == [mark] + body[..i];
    assert ([mark] + body[..i])[1..] == body[..i];
    BodyStaysInside(mark, body, open, i);
    if i == |body| {
      assert body[..i] == body;
    }
  }

  /** A closed segment returns the scanner to the outside and hides every '#' in it. */
  lemma SegmentRun(seg: Segment)
    requires WellFormed(seg)
    ensures Run(OUTSIDE, Text(seg)) == OUTSIDE && Hidden(Text(seg))
  {
    match seg
    case Plain(c) =>
      assert [c][1..] == [];
    case Quoted(mark, body) =>
      var t := Text(seg);
      QuotationRun(mark, body, false, |body|);
      RunConcat(OUTSIDE, [mark] + body, [mark]);
      assert Run(Scan(Some(mark), false), [mark]) == OUTSIDE;
      forall i: nat | i < |t| ensures !CommentAt(t, i) {
        if 0 < i {
          QuotationRun(mark, body, false, i - 1);
          assert t[..i] == ([mark] + body)[..i];
        }
      }
  }

  ghost predicate Hidden(s: string) {
    forall i: nat :: i < |s| ==> !CommentAt(s, i)
  }

  /** Text that starts where the scanner is outside is scanned as if it stood alone. */
  lemma HiddenConcat(head: string, rest: string)
    requires Run(OUTSIDE, head) == OUTSIDE && Hidden(head) && Hidden(rest)
    ensures Run(OUTSIDE, head + rest) == Run(OUTSIDE, rest) && Hidden(head + rest)
  {
    hide Step;
    RunConcat(OUTSIDE, head, rest);
    forall i: nat | i < |head + rest| ensures !CommentAt(head + rest, i) {
      if i < |head| {
        assert (head + rest)[..i] == head[..i];
        assert !CommentAt(head, i);
      } else {
        var j: nat := i - |head|;
        assert (head + rest)[..i] == head + rest[..j];
        RunConcat(OUTSIDE, head, rest[..j]);
        assert !CommentAt(rest, j);
      }
    }
  }

  lemma {:induction false} RenderRun(segs: seq<Segment>)
    requires forall seg :: seg in segs ==> WellFormed(seg)
    ensures Run(OUTSIDE, Render(segs)) == OUTSIDE && Hidden(Render(segs))
  {
    hide Body, Step, Text, CommentAt;
    if segs != [] {
      SegmentRun(segs[0]);
      RenderRun(segs[1..]);
      HiddenConcat(Text(segs[0]), Render(segs[1..]));
    }
  }

  lemma OpenQuotationHides(tail: string)
    requires Tail(tail) && tail != [] && tail[0] != '#'
    ensures Hidden(tail)
  {
    assert tail == [tail[0]] + tail[1..];
    forall i: nat | 0 < i < |tail| ensures !CommentAt(tail, i) {
      QuotationRun(tail[0], tail[1..], true, i - 1);
    }
  }

  /** The scanner keeps the closed segments, and the tail as well unless the tail is a comment. */
  lemma StripFollowsGrammar(line: string, segs: seq<Segment>, tail: string)
    requires Reads(line, segs, tail)
    ensures Stripped(line, if tail != [] && tail[0] == '#' then Render(segs) else line)
  {
    hide Body, Step, Render;
    var head := Render(segs);
    RenderRun(segs);
    assert line[..|head|] == head;
    if tail != [] && tail[0] == '#' {
      forall i: nat | i < |head| ensures !CommentAt(line, i) {
        assert line[..i] == head[..i];
        assert !CommentAt(head, i);
      }
    } else {
      if tail != [] {
        OpenQuotationHides(tail);
      }
      HiddenConcat(head, tail);
    }
  }

  /** Splits the inside of a quotation from what follows its closing mark, if there is one. */
  lemma {:induction false} CloseQuotation(mark: char, s: string) returns (body: string, closed: bool)
    requires mark == '\'' || mark == '"'
    ensures |body| <= |s| && body == s[..|body|]
    ensures closed ==> |body| < |s| && s[|body|] == mark && Body(mark, body, false)
    ensures !closed ==> body == s && Body(mark, s, true)
  {
    if s == [] {
      return [], false;
    } else if mark == '"' && s[0] == '\\' {
      if |s| == 1 {
        return s, false;
      }
      var inner, c := CloseQuotation(mark, s[2..]);
      body, closed := s[..2] + inner, c;
      assert body[2..] == inner && body == s[..|body|];
      assert closed ==> s[|body|] == s[2..][|inner|];
    } else if s[0] == mark {
      return [], true;
    } else {
      var inner, c := CloseQuotation(mark, s[1..]);
      body, closed := s[..1] + inner, c;
      assert body[1..] == inner && body == s[..|body|];
      assert closed ==> s[|body|] == s[1..][|inner|];
    }
  }

  lemma QuotedWellFormed(mark: char, body: string)
    requires (mark == '\'' || mark == '"') && Body(mark, body, false)
    ensures WellFormed(Quoted(mark, body))
  {
  }

  lemma PlainText(line: string)
    requires line != [] && line[0] != '\'' && line[0] != '"' && line[0] != '#'
    ensures WellFormed(Plain(line[0])) && line == Text(Plain(line[0])) + line[1..]
  {
    assert line == [line[0]] + line[1..];
  }

  lemma Rejoin(line: string, body: string)
    requires 2 <= |body| + 2 <= |line| && body == line[1..][..|body|] && line[|body| + 1] == line[0]
    ensures line == Text(Quoted(line[0], body)) + line[|body| + 2..]
  {
    assert line == [line[0]] + line[1..|body| + 1] + [line[|body| + 1]] + line[|body| + 2..];
  }

  lemma ReadsMore(seg: Segment, rest: string, segs: seq<Segment>, tail: string)
    requires WellFormed(seg) && Reads(rest, segs, tail)
    ensures Reads(Text(seg) + rest, [seg] + segs, tail)
  {
    hide Body, Run;
    assert ([seg] + segs)[1..] == segs;
    assert Text(seg) + rest == (Text(seg) + Render(segs)) + tail;
  }

  /** Every line reads as closed segments and a tail. */
  lemma {:induction false} EveryLineReads(line: string) returns (segs: seq<Segment>, tail: string)
    ensures Reads(line, segs, tail)
  {
    hide Body, Run, Text, WellFormed;
    segs, tail := [], line;
    if line == [] || line[0] == '#' {
      assert Render([]) + line == line;
    } else if line[0] == '\'' || line[0] == '"' {
      var body, closed := CloseQuotation(line[0], line[1..]);
      if closed {
        var seg, rest := Quoted(line[0], body), line[|body| + 2..];
        assert WellFormed(seg) by { QuotedWellFormed(line[0], body); }
        segs, tail := EveryLineReads(rest);
        ReadsMore(seg, rest, segs, tail);
        Rejoin(line, body);
        segs := [seg] + segs;
      } else {
        assert Render([]) + line == line;
      }
    } else {
      segs, tail := EveryLineReads(line[1..]);
      PlainText(line);
      ReadsMore(Plain(line[0]), line[1..], segs, tail);
      segs := [Plain(line[0])] + segs;
    }
  }

  /**
    * The scanner cuts a line at `kept` exactly when the line is closed segments spelling
    * `kept`, then a '#'.
    */
  lemma CutExactlyAtComment(line: string, kept: string)
    ensures (Stripped(line, kept) && kept != line)
      <==> (exists segs, tail :: Reads(line, segs, tail) && tail != [] && tail[0] == '#' && Render(segs) == kept)
  {
    var segs, tail := EveryLineReads(line);
    StripFollowsGrammar(line, segs, tail);
    if Stripped(line, kept) && kept != line {
      StrippedUnique(line, kept, if tail != [] && tail[0] == '#' then Render(segs) else line);
    }
    forall segs', tail' | Reads(line, segs', tail') && tail' != [] && tail'[0] == '#' && Render(segs') == kept
      ensures Stripped(line, kept) && kept != line
    {
      StripFollowsGrammar(line, segs', tail');
      assert |line| == |kept| + |tail'|;
    }
  }
}
