// The parser and the printer on the text of a file: universal newlines, and the exact condition for the round trip.
module YamlText {
  import opened Wrappers
  import opened PyStrings
  import opened YamlSubset
  import opened YamlRoundTrip

  // ---------------------------------------------------------------- lines of a file

  /** No line end inside: line feed and carriage return both end a line in text mode. */
  predicate OneLine(s: string) { '\n' !in s && '\r' !in s }

  /** Iterating over a file opened in text mode; `line` is the line read so far. */
  function LinesFrom(text: string, line: string): seq<string>
    decreases |text|
  {
    if text == "" then (if line == "" then [] else [line])
    else if |text| >= 2 && text[0] == '\r' && text[1] == '\n' then [line] + LinesFrom(text[2..], "")
    else if text[0] == '\n' || text[0] == '\r' then [line] + LinesFrom(text[1..], "")
    else LinesFrom(text[1..], line + [text[0]])
  }

  function FileLines(text: string): seq<string> { LinesFrom(text, "") }

  /** The parser on the text of a file. */
  function ParseText(text: string): Result<Value, ParseError> { ParseDocument(FileLines(text)) }

  /** `parse_yaml_subset` on the text it reads. */
  method ParseFile(text: string) returns (r: Result<Value, ParseError>)
    ensures r == ParseText(text)
  {
    hide LinesFrom;
    var lines: seq<string>, line, rest := [], "", text;
    while rest != ""
      invariant lines + LinesFrom(rest, line) == FileLines(text)
      decreases |rest|
    {
      LinesStep(rest, line);
      if |rest| >= 2 && rest[0] == '\r' && rest[1] == '\n' {
        assert lines + ([line] + LinesFrom(rest[2..], "")) == lines + [line] + LinesFrom(rest[2..], "");
        lines, line, rest := lines + [line], "", rest[2..];
      } else if rest[0] == '\n' || rest[0] == '\r' {
        assert lines + ([line] + LinesFrom(rest[1..], "")) == lines + [line] + LinesFrom(rest[1..], "");
        lines, line, rest := lines + [line], "", rest[1..];
      } else {
        line, rest := line + [rest[0]], rest[1..];
      }
    }
    LastLine(line);
    if line != "" {
      lines := lines + [line];
    } else {
      assert lines + [] == lines;
    }
    r := ParseYamlSubset(lines);
  }

  lemma LinesStep(text: string, line: string)
    requires text != ""
    ensures LinesFrom(text, line)
         == if |text| >= 2 && text[0] == '\r' && text[1] == '\n' then [line] + LinesFrom(text[2..], "")
            else if text[0] == '\n' || text[0] == '\r' then [line] + LinesFrom(text[1..], "")
            else LinesFrom(text[1..], line + [text[0]])
  {
  }

  lemma LastLine(line: string)
    ensures LinesFrom("", line) == if line == "" then [] else [line]
  {
  }

  predicate AllOneLine(lines: seq<string>) {
    forall i :: 0 <= i < |lines| ==> OneLine(lines[i])
  }

  lemma {:induction false} LinesHaveNoEnds(text: string, line: string)
    requires OneLine(line)
    ensures AllOneLine(LinesFrom(text, line))
    decreases |text|
  {
    if text == "" {
    } else if |text| >= 2 && text[0] == '\r' && text[1] == '\n' {
      LinesHaveNoEnds(text[2..], "");
    } else if text[0] == '\n' || text[0] == '\r' {
      LinesHaveNoEnds(text[1..], "");
    } else {
      LinesHaveNoEnds(text[1..], line + [text[0]]);
    }
  }

  /** Each line followed by a line feed. */
  function JoinLines(lines: seq<string>): string {
    if lines == [] then "" else lines[0] + "\n" + JoinLines(lines[1..])
  }

  lemma {:induction false} LineReadBack(body: string, rest: string, line: string)
    requires OneLine(body)
    ensures LinesFrom(body + "\n" + rest, line) == [line + body] + LinesFrom(rest, "")
    decreases |body|
  {
    var text := body + "\n" + rest;
    if body == "" {
      assert text[0] == '\n' && text[1..] == rest && line + body == line;
    } else {
      assert text[0] == body[0] && text[1..] == body[1..] + "\n" + rest;
      LineReadBack(body[1..], rest, line + [body[0]]);
      assert line + [body[0]] + body[1..] == line + body;
    }
  }

  lemma {:induction false} JoinedLinesReadBack(lines: seq<string>)
    requires AllOneLine(lines)
    ensures FileLines(JoinLines(lines)) == lines
  {
    hide LinesFrom, OneLine;
    if lines == [] {
      LastLine("");
    } else {
      JoinedLinesReadBack(lines[1..]);
      LineReadBack(lines[0], JoinLines(lines[1..]), "");
      assert "" + lines[0] == lines[0];
    }
  }

  // ---------------------------------------------------------------- what parses is free of line ends

  predicate OneLineValue(v: Value) {
    match v
    case Text(text) => OneLine(text)
    case List(items) => forall i :: 0 <= i < |items| ==> OneLineValue(items[i])
    case Mapping(fields) => forall i :: 0 <= i < |fields| ==> OneLine(fields[i].key) && OneLineValue(fields[i].value)
    case _ => true
  }

  predicate OneLineFields(fields: seq<Field>) {
    forall i :: 0 <= i < |fields| ==> OneLine(fields[i].key) && OneLineValue(fields[i].value)
  }

  predicate OneLineEntries(es: seq<Entry>) {
    forall i :: 0 <= i < |es| ==> OneLine(es[i].text)
  }

  lemma ScalarOneLine(s: string)
    requires OneLine(s)
    ensures OneLineValue(ParseScalar(s))
  {
    hide IntegerValue, IntegerText;
  }

  lemma {:induction false} BlockOneLine(es: seq<Entry>, indent: nat)
    requires OneLineEntries(es) && ParseAt(es, indent).Ok?
    ensures OneLineValue(ParseAt(es, indent).value.0)
    decreases |es|, 2
  {
    hide OneLine;
    if es != [] {
      if IsItem(es[0]) {
        ItemsOneLine(es, indent);
      } else {
        FieldsOneLine(es, indent, []);
      }
    }
  }

  lemma {:induction false} ItemsOneLine(es: seq<Entry>, indent: nat)
    requires OneLineEntries(es) && ItemsAt(es, indent).Ok?
    ensures var items := ItemsAt(es, indent).value.0;
            forall i :: 0 <= i < |items| ==> OneLineValue(items[i])
    decreases |es|, 1
  {
    hide OneLine, OneLineValue;
    if es == [] || es[0].indent < indent || !IsItem(es[0]) {
    } else {
      ItemOneLine(es, indent);
      ItemsOneLine(es[ItemAt(es, indent).value.1..], indent);
    }
  }

  lemma OneLineCons(first: Field, fields: seq<Field>)
    requires OneLine(first.key) && OneLineValue(first.value) && OneLineFields(fields)
    ensures OneLineValue(Mapping([first] + fields)) && OneLineFields([first] + fields)
  {
  }

  lemma OneLineSnoc(fields: seq<Field>, last: Field)
    requires OneLine(last.key) && OneLineValue(last.value) && OneLineFields(fields)
    ensures OneLineFields(fields + [last])
  {
  }

  lemma MappingOneLine(v: Value)
    requires v.Mapping? && OneLineValue(v)
    ensures OneLineFields(v.fields)
  {
  }

  lemma {:induction false} ItemOneLine(es: seq<Entry>, indent: nat)
    requires es != [] && IsItem(es[0]) && OneLineEntries(es) && ItemAt(es, indent).Ok?
    ensures OneLineValue(ItemAt(es, indent).value.0)
    decreases |es|, 0
  {
    hide ParseScalar, OneLineValue, ParseAt, Keys;
    var text := es[0].text[2..];
    assert OneLine(es[0].text);
    if Colon(text).Some? {
      var first := Field(text[..Colon(text).value], ParseScalar(text[Colon(text).value + 2..]));
      ScalarOneLine(text[Colon(text).value + 2..]);
      if |es| > 1 && es[1].indent > indent {
        BlockOneLine(es[1..], indent + 2);
        var nested := ParseAt(es[1..], indent + 2).value.0;
        MappingOneLine(nested);
        OneLineCons(first, nested.fields);
      } else {
        assert [first] + [] == [first];
        OneLineCons(first, []);
      }
    } else if EndsWithColon(text) {
      BlockOneLine(es[1..], indent + 2);
      var field := Field(text[..|text| - 1], ParseAt(es[1..], indent + 2).value.0);
      assert [field] + [] == [field];
      OneLineCons(field, []);
    } else {
      ScalarOneLine(text);
    }
  }

  lemma {:induction false} FieldsOneLine(es: seq<Entry>, indent: nat, fields: seq<Field>)
    requires OneLineEntries(es) && OneLineFields(fields) && FieldsAt(es, indent, fields).Ok?
    ensures OneLineFields(FieldsAt(es, indent, fields).value.0)
    decreases |es|, 1
  {
    hide Keys, OneLineFields, ParseScalar, OneLineValue, ParseAt, FieldsAt, Colon, OneLine, OneLineEntries, IsItem;
    FieldsAtCases(es, indent, fields);
    if es == [] || es[0].indent < indent || IsItem(es[0]) {
    } else {
      var text := es[0].text;
      EntriesAfter(es, 0);
      PartsOneLine(text);
      if Colon(text).Some? {
        var c := Colon(text).value;
        var field := Field(text[..c], ParseScalar(text[c + 2..]));
        ScalarOneLine(text[c + 2..]);
        OneLineSnoc(fields, field);
        EntriesAfter(es, 1);
        FieldsOneLine(es[1..], indent, fields + [field]);
      } else {
        EntriesAfter(es, 1);
        BlockOneLine(es[1..], indent + 2);
        var (nested, n) := ParseAt(es[1..], indent + 2).value;
        var field := Field(text[..|text| - 1], nested);
        OneLineSnoc(fields, field);
        EntriesAfter(es, 1 + n);
        FieldsOneLine(es[1 + n..], indent, fields + [field]);
      }
    }
  }

  lemma EntriesAfter(es: seq<Entry>, n: nat)
    requires OneLineEntries(es) && n <= |es|
    ensures OneLineEntries(es[n..])
    ensures es != [] ==> OneLine(es[0].text)
  {
    hide OneLine;
  }

  lemma PartsOneLine(text: string)
    requires OneLine(text)
    ensures forall c: nat :: c <= |text| ==> OneLine(text[..c]) && OneLine(text[c..])
  {
  }

  /** What an accepted block of fields does with its first entry. */
  lemma FieldsAtCases(es: seq<Entry>, indent: nat, fields: seq<Field>)
    requires FieldsAt(es, indent, fields).Ok?
    ensures es == [] || es[0].indent < indent || IsItem(es[0]) ==> FieldsAt(es, indent, fields).value.0 == fields
    ensures es != [] && es[0].indent >= indent && !IsItem(es[0]) ==>
              var text := es[0].text;
              match Colon(text)
              case Some(c) =>
                var rest := FieldsAt(es[1..], indent, fields + [Field(text[..c], ParseScalar(text[c + 2..]))]);
                rest.Ok? && FieldsAt(es, indent, fields).value.0 == rest.value.0
              case None =>
                && text != [] && ParseAt(es[1..], indent + 2).Ok?
                && var (nested, n) := ParseAt(es[1..], indent + 2).value;
                   && 1 + n <= |es|
                   && var rest := FieldsAt(es[1 + n..], indent, fields + [Field(text[..|text| - 1], nested)]);
                      rest.Ok? && FieldsAt(es, indent, fields).value.0 == rest.value.0
  {
    hide Keys, ParseScalar, ParseAt, Colon, IsItem;
  }

  lemma {:induction false} EntriesOneLine(lines: seq<string>)
    requires AllOneLine(lines)
    ensures OneLineEntries(Entries(lines))
  {
    hide Skipped, Strip, LeadingBlanks;
    if lines != [] {
      StripOneLine(lines[0]);
      EntriesOneLine(lines[1..]);
    }
  }

  lemma StripOneLine(line: string)
    requires OneLine(line)
    ensures OneLine(Strip(line))
  {
    var l := LStrip(line);
    assert forall i :: 0 <= i < |l| ==> l[i] == line[|line| - |l| + i];
    assert forall i :: 0 <= i < |RStrip(l)| ==> RStrip(l)[i] == l[i];
  }

  /** No key and no text of a parsed document contains a line end. */
  lemma ParsedIsOneLine(text: string)
    requires ParseText(text).Ok?
    ensures OneLineValue(ParseText(text).value)
  {
    hide LinesFrom, ParseAt, Entries, OneLineValue, AllOneLine;
    LinesHaveNoEnds(text, "");
    EntriesOneLine(FileLines(text));
    BlockOneLine(Entries(FileLines(text)), 0);
  }

  // ---------------------------------------------------------------- what is printed

  predicate OneLineDoc(d: Doc) {
    match d
    case Scalar(text) => OneLine(text)
    case Sequence(items) => forall i :: 0 <= i < |items| ==> OneLineDoc(items[i])
    case Record(fields) => forall i :: 0 <= i < |fields| ==> OneLine(fields[i].key) && OneLineDoc(fields[i].doc)
  }

  lemma FieldTextOneLine(f: DocField)
    requires OneLine(f.key) && OneLineDoc(f.doc)
    ensures OneLine(FieldText(f)) && OneLine("- " + FieldText(f))
  {
  }

  lemma {:induction false} BlockLinesOneLine(d: Doc, indent: nat)
    requires OneLineDoc(d)
    ensures OneLineEntries(BlockLines(d, indent))
    decreases d, 0
  {
    match d
    case Scalar(_) =>
    case Sequence(items) => ItemsLinesOneLine(items, indent);
    case Record(fields) => FieldsLinesOneLine(fields, indent);
  }

  lemma {:induction false} FieldsLinesOneLine(fields: seq<DocField>, indent: nat)
    requires forall i :: 0 <= i < |fields| ==> OneLine(fields[i].key) && OneLineDoc(fields[i].doc)
    ensures OneLineEntries(FieldsLines(fields, indent))
    decreases fields
  {
    hide OneLine, FieldText;
    if fields != [] {
      FieldTextOneLine(fields[0]);
      BlockLinesOneLine(fields[0].doc, indent + 2);
      FieldsLinesOneLine(fields[1..], indent);
    }
  }

  lemma {:induction false} ItemsLinesOneLine(items: seq<Doc>, indent: nat)
    requires forall i :: 0 <= i < |items| ==> OneLineDoc(items[i])
    ensures OneLineEntries(ItemsLines(items, indent))
    decreases items
  {
    hide OneLine;
    if items != [] {
      ItemLinesOneLine(items[0], indent);
      ItemsLinesOneLine(items[1..], indent);
    }
  }

  lemma {:induction false} ItemLinesOneLine(d: Doc, indent: nat)
    requires OneLineDoc(d)
    ensures OneLineEntries(ItemLines(d, indent))
    decreases d, 1
  {
    hide FieldText;
    match d
    case Scalar(text) =>
    case Sequence(_) =>
    case Record(fields) =>
      if fields != [] {
        FieldTextOneLine(fields[0]);
        BlockLinesOneLine(fields[0].doc, indent + 2);
        FieldsLinesOneLine(fields[1..], indent + 2);
      }
  }

  /** The printed file. */
  function PrintText(d: Doc): string { JoinLines(Print(d)) }

  lemma PrintedLinesOneLine(es: seq<Entry>)
    requires OneLineEntries(es)
    ensures AllOneLine(PrintEntries(es))
  {
  }

  /** Parsing the printed file of a representable mapping without line ends returns its meaning. */
  lemma PrintedTextParses(d: Doc)
    requires d.Record? && Representable(d) && OneLineDoc(d)
    ensures ParseText(PrintText(d)) == Ok(Meaning(d))
  {
    hide LinesFrom, ParseDocument, Representable, OneLineDoc, AllOneLine, OneLineEntries, PrintEntries, BlockLines, Meaning;
    PrintThenParse(d);
    BlockLinesOneLine(d, 0);
    PrintedLinesOneLine(BlockLines(d, 0));
    JoinedLinesReadBack(Print(d));
  }

  lemma DecimalOneLine(n: nat)
    ensures OneLine(DecimalText(n)) && OneLine("-" + DecimalText(n))
  {
    hide DecimalText;
    assert Digits(DecimalText(n));
  }

  lemma {:induction false} SpellOneLine(v: Value)
    requires OneLineValue(v)
    ensures OneLineDoc(Spell(v))
    decreases v
  {
    hide DecimalText;
    match v
    case List(items) =>
      forall i | 0 <= i < |items| ensures OneLineDoc(Spell(items[i])) {
        SpellOneLine(items[i]);
      }
    case Mapping(fields) =>
      forall i | 0 <= i < |fields| ensures OneLineDoc(Spell(fields[i].value)) {
        SpellOneLine(fields[i].value);
      }
    case Number(n) => DecimalOneLine(if n >= 0 then n else -n);
    case _ =>
  }

  /** A mapping the subset can carry survives printing to a file and parsing exactly when none of its texts has a line end. */
  lemma TextRoundTrip(v: Value)
    requires v.Mapping? && Carried(v)
    ensures ParseText(PrintText(Spell(v))) == Ok(v) <==> OneLineValue(v)
  {
    hide ParseText, PrintText, Representable, OneLineValue, OneLineDoc, Meaning, Carried;
    if OneLineValue(v) {
      SpellOneLine(v);
      SpellRepresentable(v);
      SpellMeaning(v);
      PrintedTextParses(Spell(v));
    }
    if ParseText(PrintText(Spell(v))) == Ok(v) {
      ParsedIsOneLine(PrintText(Spell(v)));
    }
  }

  /** A text with a line feed, in a mapping the subset otherwise carries. */
  lemma LineFeedIsLost()
    ensures Carried(Mapping([Field("k", Text("a\nb"))]))
    ensures ParseText(PrintText(Spell(Mapping([Field("k", Text("a\nb"))])))) != Ok(Mapping([Field("k", Text("a\nb"))]))
  {
    hide ParseText, PrintText, Spell;
    var v := Mapping([Field("k", Text("a\nb"))]);
    assert "a\nb"[1] == '\n';
    assert !OneLine("a\nb");
    assert v.fields[0].value == Text("a\nb");
    TextRoundTrip(v);
  }
}
