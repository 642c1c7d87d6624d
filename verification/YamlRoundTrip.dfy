// A printer for the subset, and the proof that parsing what it prints returns the document.
module YamlRoundTrip {
  import opened Wrappers
  import opened PyStrings
  import opened YamlSubset

  // ---------------------------------------------------------------- documents and printing

  /** A document before its scalars are interpreted: leaves are the characters on the line. */
  datatype Doc =
    | Scalar(text: string)
    | Sequence(items: seq<Doc>)
    | Record(fields: seq<DocField>)

  datatype DocField = DocField(key: string, doc: Doc)

  function Meaning(d: Doc): Value {
    match d
    case Scalar(text) => ParseScalar(text)
    case Sequence(items) => List(MeaningItems(items))
    case Record(fields) => Mapping(MeaningFields(fields))
  }

  function MeaningItems(items: seq<Doc>): seq<Value> {
    if items == [] then [] else [Meaning(items[0])] + MeaningItems(items[1..])
  }

  function MeaningFields(fields: seq<DocField>): seq<Field> {
    if fields == [] then [] else [Field(fields[0].key, Meaning(fields[0].doc))] + MeaningFields(fields[1..])
  }

  /** Two-space indentation; a list item that is a mapping puts its first field after the dash. */
  function BlockLines(d: Doc, indent: nat): seq<Entry>
    decreases d
  {
    match d
    case Scalar(_) => []
    case Sequence(items) => ItemsLines(items, indent)
    case Record(fields) => FieldsLines(fields, indent)
  }

  function ItemsLines(items: seq<Doc>, indent: nat): seq<Entry>
    decreases items
  {
    if items == [] then [] else ItemLines(items[0], indent) + ItemsLines(items[1..], indent)
  }

  function ItemLines(d: Doc, indent: nat): seq<Entry>
    decreases d
  {
    match d
    case Scalar(text) => [Entry(indent, "- " + text)]
    case Sequence(_) => []
    case Record(fields) =>
      if fields == [] then []
      else
        var first := fields[0];
        [Entry(indent, "- " + FieldText(first))]
        + BlockLines(first.doc, indent + 2) + FieldsLines(fields[1..], indent + 2)
  }

  function FieldsLines(fields: seq<DocField>, indent: nat): seq<Entry>
    decreases fields
  {
    if fields == [] then []
    else
      [Entry(indent, FieldText(fields[0]))]
      + BlockLines(fields[0].doc, indent + 2) + FieldsLines(fields[1..], indent)
  }

  function FieldText(f: DocField): string {
    if f.doc.Scalar? then f.key + ": " + f.doc.text else f.key + ":"
  }

  // ---------------------------------------------------------------- what can be printed

  /** A line may start with this text. */
  predicate LineStart(s: string) {
    s != "" && !IsSpace(s[0]) && s[0] != '#'
  }

  predicate KeyOk(key: string) {
    Colon(key).None? && !StartsWith(key, "- ") && LineStart(key + ":")
  }

  predicate LeafOk(text: string) {
    text != "" && Trimmed(text)
  }

  predicate ItemLeafOk(text: string) {
    LeafOk(text) && Colon(text).None? && !EndsWithColon(text)
  }

  predicate Representable(d: Doc) {
    match d
    case Scalar(text) => LeafOk(text)
    case Sequence(items) => items != [] && forall i :: 0 <= i < |items| ==> RepresentableItem(items[i])
    case Record(fields) => fields != [] && RepresentableFields(fields)
  }

  /** No list directly inside a list; a mapping item starts with a scalar or has one field only. */
  predicate RepresentableItem(d: Doc) {
    match d
    case Scalar(text) => ItemLeafOk(text)
    case Sequence(_) => false
    case Record(fields) =>
      fields != [] && RepresentableFields(fields) && (fields[0].doc.Scalar? || |fields| == 1)
  }

  predicate RepresentableFields(fields: seq<DocField>) {
    && (forall i :: 0 <= i < |fields| ==> KeyOk(fields[i].key) && Representable(fields[i].doc))
    && forall i, j :: 0 <= i < j < |fields| ==> fields[i].key != fields[j].key
  }

  // ---------------------------------------------------------------- recognizing printed lines

  lemma {:induction false} ColonAfterKey(key: string, text: string)
    requires Colon(key).None?
    ensures Colon(key + ": " + text) == Some(|key|)
  {
    var s := key + ": " + text;
    if key == "" {
    } else {
      assert s[1..] == key[1..] + ": " + text;
      if |key| >= 2 {
        assert s[0] == key[0] && s[1] == key[1];
      }
      ColonAfterKey(key[1..], text);
    }
  }

  lemma {:induction false} NoColonInKeyLine(key: string)
    requires Colon(key).None?
    ensures Colon(key + ":").None?
  {
    var s := key + ":";
    if key != "" {
      assert s[1..] == key[1..] + ":";
      if |key| >= 2 {
        assert s[0] == key[0] && s[1] == key[1];
      }
      NoColonInKeyLine(key[1..]);
    }
  }

  /** A field line is read as that field. */
  lemma FieldTextReads(f: DocField)
    requires KeyOk(f.key)
    ensures f.doc.Scalar? ==> Colon(FieldText(f)) == Some(|f.key|)
    ensures f.doc.Scalar? ==> FieldText(f)[..|f.key|] == f.key && FieldText(f)[|f.key| + 2..] == f.doc.text
    ensures !f.doc.Scalar? ==> Colon(FieldText(f)) == None && EndsWithColon(FieldText(f))
    ensures !f.doc.Scalar? ==> FieldText(f)[..|FieldText(f)| - 1] == f.key
    ensures !StartsWith(FieldText(f), "- ") && LineStart(FieldText(f))
  {
    if f.doc.Scalar? {
      ColonAfterKey(f.key, f.doc.text);
    } else {
      NoColonInKeyLine(f.key);
    }
    assert FieldText(f)[0] == (f.key + ":")[0];
    NotADash(f.key, FieldText(f));
  }

  lemma NotADash(key: string, text: string)
    requires !StartsWith(key, "- ") && key + ":" <= text
    ensures !StartsWith(text, "- ")
  {
    if |key| >= 2 {
      assert key[..2] == text[..2];
    } else {
      assert text[|key|] == ':';
    }
  }

  lemma DashText(indent: nat, text: string)
    ensures IsItem(Entry(indent, "- " + text)) && ("- " + text)[2..] == text
  {
    assert ("- " + text)[..2] == "- ";
  }

  predicate Stops(post: seq<Entry>, indent: nat) {
    post == [] || post[0].indent < indent
  }

  lemma FieldsLinesFirst(fields: seq<DocField>, indent: nat, post: seq<Entry>)
    requires Stops(post, indent)
    ensures Stops(FieldsLines(fields, indent) + post, indent + 2)
    ensures Stops(FieldsLines(fields, indent) + post, indent + 1)
  {
  }

  lemma MeaningKeys(fields: seq<DocField>, key: string)
    requires forall i :: 0 <= i < |fields| ==> fields[i].key != key
    ensures key !in Keys(MeaningFields(fields))
  {
    if fields != [] {
      MeaningKeys(fields[1..], key);
    }
  }

  // ---------------------------------------------------------------- parsing printed blocks

  lemma FieldsStopped(post: seq<Entry>, indent: nat, done: seq<Field>)
    requires Stops(post, indent)
    ensures FieldsAt(post, indent, done) == Ok((done, 0))
  {
  }

  lemma ScalarFieldStep(e: Entry, tail: seq<Entry>, done: seq<Field>, key: string, text: string)
    requires !IsItem(e) && key !in Keys(done)
    requires Colon(e.text) == Some(|key|) && e.text[..|key|] == key && e.text[|key| + 2..] == text
    ensures FieldsAt([e] + tail, e.indent, done)
         == More(1, FieldsAt(tail, e.indent, done + [Field(key, ParseScalar(text))]))
  {
    hide Colon, ParseScalar, Keys, IsItem;
    assert ([e] + tail)[1..] == tail;
  }

  lemma NestedFieldUnfolds(es: seq<Entry>, done: seq<Field>, key: string, nested: Value, n: nat)
    requires es != [] && !IsItem(es[0]) && key !in Keys(done)
    requires Colon(es[0].text) == None && EndsWithColon(es[0].text) && es[0].text[..|es[0].text| - 1] == key
    requires ParseAt(es[1..], es[0].indent + 2) == Ok((nested, n)) && 1 + n <= |es|
    ensures FieldsAt(es, es[0].indent, done)
         == More(1 + n, FieldsAt(es[1 + n..], es[0].indent, done + [Field(key, nested)]))
  {
    hide Colon, Keys, IsItem, ParseAt, ParseScalar;
  }

  lemma DropPrefix(e: Entry, block: seq<Entry>, tail: seq<Entry>)
    ensures ([e] + (block + tail))[1..] == block + tail
    ensures ([e] + (block + tail))[1 + |block|..] == tail
  {
  }

  lemma NestedFieldStep(e: Entry, block: seq<Entry>, tail: seq<Entry>, done: seq<Field>, key: string, nested: Value)
    requires !IsItem(e) && key !in Keys(done)
    requires Colon(e.text) == None && EndsWithColon(e.text) && e.text[..|e.text| - 1] == key
    requires ParseAt(block + tail, e.indent + 2) == Ok((nested, |block|))
    ensures FieldsAt([e] + (block + tail), e.indent, done)
         == More(1 + |block|, FieldsAt(tail, e.indent, done + [Field(key, nested)]))
  {
    hide Colon, Keys, IsItem, ParseAt, ParseScalar, FieldsAt;
    DropPrefix(e, block, tail);
    NestedFieldUnfolds([e] + (block + tail), done, key, nested, |block|);
  }

  lemma FieldsLinesSplit(fields: seq<DocField>, indent: nat, post: seq<Entry>)
    requires fields != []
    ensures FieldsLines(fields, indent) + post
         == [Entry(indent, FieldText(fields[0]))]
            + (BlockLines(fields[0].doc, indent + 2) + (FieldsLines(fields[1..], indent) + post))
    ensures |FieldsLines(fields, indent)| == 1 + |BlockLines(fields[0].doc, indent + 2)| + |FieldsLines(fields[1..], indent)|
  {
    hide BlockLines, FieldText;
    var block, rest := BlockLines(fields[0].doc, indent + 2), FieldsLines(fields[1..], indent);
    Reassociate([Entry(indent, FieldText(fields[0]))], block, rest, post);
  }

  lemma Reassociate(a: seq<Entry>, b: seq<Entry>, c: seq<Entry>, d: seq<Entry>)
    ensures a + b + c + d == a + (b + (c + d))
  {
  }

  lemma NoFields(indent: nat, done: seq<Field>, post: seq<Entry>)
    ensures FieldsLines([], indent) + post == post && done + MeaningFields([]) == done
    ensures FieldsLines([], indent) == []
  {
  }

  lemma FirstRepresentable(fields: seq<DocField>)
    requires RepresentableFields(fields) && fields != []
    ensures KeyOk(fields[0].key) && Representable(fields[0].doc) && RepresentableFields(fields[1..])
  {
    hide KeyOk;
  }

  lemma {:induction false} NextKeys(fields: seq<DocField>, done: seq<Field>, value: Value)
    requires RepresentableFields(fields) && fields != []
    requires forall i :: 0 <= i < |fields| ==> fields[i].key !in Keys(done)
    ensures forall i :: 0 <= i < |fields| - 1 ==> fields[1..][i].key !in Keys(done + [Field(fields[0].key, value)])
  {
    assert Keys(done + [Field(fields[0].key, value)]) == Keys(done) + {fields[0].key};
  }

  lemma {:induction false} NextMeaning(fields: seq<DocField>, done: seq<Field>)
    requires fields != []
    ensures done + [Field(fields[0].key, Meaning(fields[0].doc))] + MeaningFields(fields[1..])
         == done + MeaningFields(fields)
  {
    hide Meaning;
  }

  lemma {:induction false} FieldsParse(fields: seq<DocField>, indent: nat, done: seq<Field>, post: seq<Entry>)
    requires RepresentableFields(fields) && Stops(post, indent)
    requires forall i :: 0 <= i < |fields| ==> fields[i].key !in Keys(done)
    ensures FieldsAt(FieldsLines(fields, indent) + post, indent, done)
         == Ok((done + MeaningFields(fields), |FieldsLines(fields, indent)|))
    decreases fields
  {
    hide Colon, ParseScalar, KeyOk, LeafOk, StartsWith, IsItem, ParseAt, FieldsAt, FieldText, EndsWithColon,
         Keys, BlockLines, Meaning, Stops, FieldsLines, MeaningFields, Representable, RepresentableFields;
    if fields == [] {
      NoFields(indent, done, post);
      FieldsStopped(post, indent, done);
    } else {
      FirstRepresentable(fields);
      var f, rest := fields[0], fields[1..];
      var e, block, tail := Entry(indent, FieldText(f)), BlockLines(f.doc, indent + 2), FieldsLines(rest, indent) + post;
      FieldsLinesSplit(fields, indent, post);
      FieldTextReads(f);
      TextIsNotItem(e);
      NextKeys(fields, done, Meaning(f.doc));
      NextMeaning(fields, done);
      FieldsParse(rest, indent, done + [Field(f.key, Meaning(f.doc))], post);
      if f.doc.Scalar? {
        ScalarLines(f.doc, indent + 2);
        assert block + tail == tail;
        ScalarFieldStep(e, tail, done, f.key, f.doc.text);
      } else {
        FieldsLinesFirst(rest, indent, post);
        BlockParse(f.doc, indent + 2, tail);
        NestedFieldStep(e, block, tail, done, f.key, Meaning(f.doc));
      }
    }
  }

  lemma TextIsNotItem(e: Entry)
    requires !StartsWith(e.text, "- ")
    ensures !IsItem(e)
  {
  }

  lemma ScalarLines(d: Doc, indent: nat)
    requires d.Scalar?
    ensures BlockLines(d, indent) == [] && Meaning(d) == ParseScalar(d.text)
  {
  }

  lemma ScalarItemStep(indent: nat, text: string, post: seq<Entry>)
    requires Colon(text) == None && !EndsWithColon(text)
    ensures ItemAt([Entry(indent, "- " + text)] + post, indent) == Ok((ParseScalar(text), 1))
  {
    hide Colon, ParseScalar, EndsWithColon;
    DashText(indent, text);
  }

  lemma NestedItemStep(indent: nat, text: string, post: seq<Entry>, key: string, nested: Value, n: nat)
    requires Colon(text) == None && EndsWithColon(text) && text[..|text| - 1] == key
    requires ParseAt(post, indent + 2) == Ok((nested, n))
    ensures ItemAt([Entry(indent, "- " + text)] + post, indent) == Ok((Mapping([Field(key, nested)]), 1 + n))
  {
    hide Colon, ParseScalar, ParseAt;
    DashText(indent, text);
    assert ([Entry(indent, "- " + text)] + post)[1..] == post;
  }

  lemma FieldItemAlone(indent: nat, text: string, post: seq<Entry>, key: string, leaf: string)
    requires Colon(text) == Some(|key|) && text[..|key|] == key && text[|key| + 2..] == leaf
    requires Stops(post, indent + 1)
    ensures ItemAt([Entry(indent, "- " + text)] + post, indent) == Ok((Mapping([Field(key, ParseScalar(leaf))]), 1))
  {
    hide Colon, ParseScalar, ParseAt, Keys;
    DashText(indent, text);
  }

  lemma FieldItemMore(indent: nat, text: string, post: seq<Entry>, key: string, leaf: string, nested: Block)
    requires Colon(text) == Some(|key|) && text[..|key|] == key && text[|key| + 2..] == leaf
    requires post != [] && post[0].indent > indent
    requires nested == ParseAt(post, indent + 2)
    requires nested.Ok? && nested.value.0.Mapping? && key !in Keys(nested.value.0.fields)
    ensures ItemAt([Entry(indent, "- " + text)] + post, indent)
         == Ok((Mapping([Field(key, ParseScalar(leaf))] + nested.value.0.fields), 1 + nested.value.1))
  {
    hide Colon, ParseScalar, ParseAt, Keys;
    DashText(indent, text);
    var es := [Entry(indent, "- " + text)] + post;
    assert es[1..] == post && es[1] == post[0];
  }

  lemma {:induction false} ItemParse(d: Doc, indent: nat, post: seq<Entry>)
    requires RepresentableItem(d) && Stops(post, indent + 1)
    ensures ItemLines(d, indent) != [] && ItemLines(d, indent)[0].indent == indent && IsItem(ItemLines(d, indent)[0])
    ensures ItemAt(ItemLines(d, indent) + post, indent) == Ok((Meaning(d), |ItemLines(d, indent)|))
    decreases d, 1
  {
    hide Colon, ParseScalar, KeyOk, LeafOk, StartsWith, IsItem, ParseAt, ItemAt, FieldText, EndsWithColon, Keys;
    match d
    case Scalar(text) =>
      DashText(indent, text);
      ScalarItemStep(indent, text, post);
    case Record(fields) =>
      var f, rest := fields[0], fields[1..];
      var e := Entry(indent, "- " + FieldText(f));
      var block, more := BlockLines(f.doc, indent + 2), FieldsLines(rest, indent + 2);
      DashText(indent, FieldText(f));
      FieldTextReads(f);
      assert ItemLines(d, indent) + post == [e] + (block + (more + post));
      assert MeaningFields(fields) == [Field(f.key, Meaning(f.doc))] + MeaningFields(rest);
      if f.doc.Scalar? {
        ScalarLines(f.doc, indent + 2);
        assert block + (more + post) == more + post;
        RestParse(fields, indent, post);
        if rest == [] {
          FieldItemAlone(indent, FieldText(f), post, f.key, f.doc.text);
          assert [Field(f.key, Meaning(f.doc))] + [] == [Field(f.key, Meaning(f.doc))];
        } else {
          FieldItemMore(indent, FieldText(f), more + post, f.key, f.doc.text, ParseAt(more + post, indent + 2));
        }
      } else {
        assert rest == [] && more == [] && MeaningFields(rest) == [];
        assert block + (more + post) == block + post;
        BlockParse(f.doc, indent + 2, post);
        NestedItemStep(indent, FieldText(f), block + post, f.key, Meaning(f.doc), |block|);
        assert [Field(f.key, Meaning(f.doc))] + [] == [Field(f.key, Meaning(f.doc))];
      }
  }

  /** The fields after the first of a mapping item. */
  lemma {:induction false} RestParse(fields: seq<DocField>, indent: nat, post: seq<Entry>)
    requires fields != [] && RepresentableFields(fields) && Stops(post, indent + 1)
    ensures var es := FieldsLines(fields[1..], indent + 2) + post;
            if fields[1..] == [] then es == post && MeaningFields(fields[1..]) == [] && FieldsLines(fields[1..], indent + 2) == []
            else
              && es != [] && es[0].indent > indent
              && ParseAt(es, indent + 2) == Ok((Mapping(MeaningFields(fields[1..])), |FieldsLines(fields[1..], indent + 2)|))
              && fields[0].key !in Keys(MeaningFields(fields[1..]))
    decreases fields, 0
  {
    hide Colon, KeyOk, StartsWith, FieldText;
    var rest := fields[1..];
    var es := FieldsLines(rest, indent + 2) + post;
    if rest == [] {
      assert es == post;
    } else {
      forall i | 0 <= i < |rest| ensures rest[i].key != fields[0].key && rest[i].key !in Keys([]) {
        assert rest[i] == fields[i + 1];
      }
      assert RepresentableFields(rest);
      MeaningKeys(rest, fields[0].key);
      FieldsParse(rest, indent + 2, [], post);
      assert [] + MeaningFields(rest) == MeaningFields(rest);
      FieldTextReads(rest[0]);
      assert es[0] == Entry(indent + 2, FieldText(rest[0])) && !IsItem(es[0]);
    }
  }

  lemma ItemsStopped(post: seq<Entry>, indent: nat)
    requires Stops(post, indent)
    ensures ItemsAt(post, indent) == Ok(([], 0))
  {
  }

  lemma ItemThenItems(lines: seq<Entry>, tail: seq<Entry>, indent: nat, item: Value, items: seq<Value>, n: nat)
    requires lines != [] && lines[0].indent == indent && IsItem(lines[0])
    requires ItemAt(lines + tail, indent) == Ok((item, |lines|))
    requires ItemsAt(tail, indent) == Ok((items, n))
    ensures ItemsAt(lines + tail, indent) == Ok(([item] + items, |lines| + n))
  {
    hide ItemAt, IsItem;
    assert (lines + tail)[|lines|..] == tail;
  }

  lemma {:induction false} ItemsParse(items: seq<Doc>, indent: nat, post: seq<Entry>)
    requires forall i :: 0 <= i < |items| ==> RepresentableItem(items[i])
    requires Stops(post, indent)
    ensures ItemsAt(ItemsLines(items, indent) + post, indent)
         == Ok((MeaningItems(items), |ItemsLines(items, indent)|))
    ensures items != [] ==> ItemsLines(items, indent) != [] && IsItem(ItemsLines(items, indent)[0])
    ensures items != [] ==> ItemsLines(items, indent)[0].indent == indent
    decreases items
  {
    hide RepresentableItem, ItemAt, ItemsAt, IsItem, Meaning, ItemLines;
    if items == [] {
      assert ItemsLines(items, indent) + post == post;
      ItemsStopped(post, indent);
    } else {
      var lines, tail := ItemLines(items[0], indent), ItemsLines(items[1..], indent) + post;
      ItemsParse(items[1..], indent, post);
      assert Stops(tail, indent + 1);
      ItemParse(items[0], indent, tail);
      assert ItemsLines(items, indent) + post == lines + tail;
      ItemThenItems(lines, tail, indent, Meaning(items[0]), MeaningItems(items[1..]), |ItemsLines(items[1..], indent)|);
    }
  }

  lemma {:induction false} BlockParse(d: Doc, indent: nat, post: seq<Entry>)
    requires !d.Scalar? && Representable(d) && Stops(post, indent)
    ensures ParseAt(BlockLines(d, indent) + post, indent) == Ok((Meaning(d), |BlockLines(d, indent)|))
    decreases d, 0
  {
    hide Colon, KeyOk, StartsWith, FieldText;
    match d
    case Sequence(items) =>
      ItemsParse(items, indent, post);
      assert (BlockLines(d, indent) + post)[0] == ItemsLines(items, indent)[0];
    case Record(fields) =>
      FieldsParse(fields, indent, [], post);
      assert [] + MeaningFields(fields) == MeaningFields(fields);
      FieldTextReads(fields[0]);
      assert (BlockLines(d, indent) + post)[0] == Entry(indent, FieldText(fields[0]));
  }

  // ---------------------------------------------------------------- from entries to lines

  function Blanks(n: nat): string {
    seq(n, i => ' ')
  }

  function Line(e: Entry): string {
    Blanks(e.indent) + e.text
  }

  function PrintEntries(es: seq<Entry>): seq<string> {
    seq(|es|, i requires 0 <= i < |es| => Line(es[i]))
  }

  /** The printed lines. */
  function Print(d: Doc): seq<string> {
    PrintEntries(BlockLines(d, 0))
  }

  predicate LineText(s: string) {
    LineStart(s) && Trimmed(s)
  }

  lemma {:induction false} CountBlanks(n: nat, text: string)
    requires text == "" || text[0] != ' '
    ensures LeadingBlanks(Blanks(n) + text) == n
  {
    if n == 0 {
      assert Blanks(n) + text == text;
    } else {
      assert (Blanks(n) + text)[1..] == Blanks(n - 1) + text;
      CountBlanks(n - 1, text);
    }
  }

  lemma BlanksAreSpace(n: nat)
    ensures |Blanks(n)| == n && forall i :: 0 <= i < n ==> IsSpace(Blanks(n)[i])
  {
  }

  lemma LineReads(e: Entry)
    requires LineText(e.text)
    ensures !Skipped(Line(e)) && LeadingBlanks(Line(e)) == e.indent && Strip(Line(e)) == e.text
  {
    hide LStrip, RStrip, Strip, LeadingBlanks, Blanks;
    CountBlanks(e.indent, e.text);
    BlanksAreSpace(e.indent);
    assert Line(e) == Blanks(e.indent) + e.text + "";
    StripDrops(Blanks(e.indent), e.text, "");
    LStripDrops(Blanks(e.indent), e.text);
  }

  lemma {:induction false} PrintedEntries(es: seq<Entry>)
    requires forall i :: 0 <= i < |es| ==> LineText(es[i].text)
    ensures Entries(PrintEntries(es)) == es
  {
    hide LineText, Skipped, Strip, LeadingBlanks, Line;
    if es != [] {
      LineReads(es[0]);
      assert PrintEntries(es)[1..] == PrintEntries(es[1..]);
      PrintedEntries(es[1..]);
    }
  }

  predicate LineTexts(es: seq<Entry>) {
    forall i :: 0 <= i < |es| ==> LineText(es[i].text)
  }

  lemma FieldLineText(f: DocField)
    requires KeyOk(f.key) && Representable(f.doc)
    ensures LineText(FieldText(f)) && LineText("- " + FieldText(f))
  {
    FieldTextReads(f);
    var text := FieldText(f);
    if f.doc.Scalar? {
      assert text[|text| - 1] == f.doc.text[|f.doc.text| - 1];
    }
    assert ("- " + text)[|text| + 1] == text[|text| - 1];
  }

  lemma {:induction false} BlockLineTexts(d: Doc, indent: nat)
    requires Representable(d)
    ensures LineTexts(BlockLines(d, indent))
    decreases d, 0
  {
    match d
    case Scalar(_) =>
    case Sequence(items) => ItemsLineTexts(items, indent);
    case Record(fields) => FieldsLineTexts(fields, indent);
  }

  lemma {:induction false} FieldsLineTexts(fields: seq<DocField>, indent: nat)
    requires forall i :: 0 <= i < |fields| ==> KeyOk(fields[i].key) && Representable(fields[i].doc)
    ensures LineTexts(FieldsLines(fields, indent))
    decreases fields
  {
    hide LineText, KeyOk, FieldText;
    if fields != [] {
      FieldLineText(fields[0]);
      BlockLineTexts(fields[0].doc, indent + 2);
      FieldsLineTexts(fields[1..], indent);
    }
  }

  lemma {:induction false} ItemsLineTexts(items: seq<Doc>, indent: nat)
    requires forall i :: 0 <= i < |items| ==> RepresentableItem(items[i])
    ensures LineTexts(ItemsLines(items, indent))
    decreases items
  {
    hide RepresentableItem, LineText;
    if items != [] {
      ItemLineTexts(items[0], indent);
      ItemsLineTexts(items[1..], indent);
    }
  }

  lemma {:induction false} ItemLineTexts(d: Doc, indent: nat)
    requires RepresentableItem(d)
    ensures LineTexts(ItemLines(d, indent))
    decreases d, 1
  {
    hide KeyOk, FieldText;
    match d
    case Scalar(text) =>
      assert ("- " + text)[|text| + 1] == text[|text| - 1];
    case Record(fields) =>
      FieldLineText(fields[0]);
      BlockLineTexts(fields[0].doc, indent + 2);
      FieldsLineTexts(fields[1..], indent + 2);
  }

  /** Parsing the printed lines of a representable mapping, as they stand, returns its meaning. */
  lemma PrintThenParse(d: Doc)
    requires d.Record? && Representable(d)
    ensures ParseDocument(Print(d)) == Ok(Meaning(d))
  {
    hide ParseAt, LineText;
    var es := BlockLines(d, 0);
    BlockLineTexts(d, 0);
    PrintedEntries(es);
    BlockParse(d, 0, []);
    assert es + [] == es;
    assert Meaning(d).Mapping?;
  }

  // ---------------------------------------------------------------- values

  /** A spelling of a scalar: flags and integers plainly, text in double quotes. */
  function ScalarText(v: Value): string
    requires !v.List? && !v.Mapping?
  {
    match v
    case Flag(flag) => if flag then "true" else "false"
    case Number(n) => if n >= 0 then DecimalText(n) else "-" + DecimalText(-n)
    case Text(text) => "\"" + text + "\""
  }

  function Spell(v: Value): Doc {
    match v
    case List(items) => Sequence(SpellItems(items))
    case Mapping(fields) => Record(SpellFields(fields))
    case _ => Scalar(ScalarText(v))
  }

  function SpellItems(items: seq<Value>): (docs: seq<Doc>)
    ensures |docs| == |items|
    ensures forall i :: 0 <= i < |items| ==> docs[i] == Spell(items[i])
  {
    if items == [] then [] else [Spell(items[0])] + SpellItems(items[1..])
  }

  function SpellFields(fields: seq<Field>): (docs: seq<DocField>)
    ensures |docs| == |fields|
    ensures forall i :: 0 <= i < |fields| ==> docs[i] == DocField(fields[i].key, Spell(fields[i].value))
  {
    if fields == [] then [] else [DocField(fields[0].key, Spell(fields[0].value))] + SpellFields(fields[1..])
  }

  lemma {:induction false} DecimalRoundTrip(n: nat)
    ensures DecimalValue(DecimalText(n)) == n
  {
    if n >= 10 {
      DecimalRoundTrip(n / 10);
      assert DecimalText(n)[..|DecimalText(n)| - 1] == DecimalText(n / 10);
    } else {
      assert DecimalText(n)[..0] == [];
    }
  }

  lemma IntegerScalar(s: string)
    requires IntegerText(s)
    ensures ParseScalar(s) == Number(IntegerValue(s)) && LeafOk(s)
  {
    hide DecimalValue;
    assert s[0] != 't' && s[0] != 'f';
  }

  lemma QuotedScalar(text: string)
    ensures ParseScalar("\"" + text + "\"") == Text(text) && LeafOk("\"" + text + "\"")
  {
    hide DecimalValue;
    var s := "\"" + text + "\"";
    assert s[0] == '"' && s[|s| - 1] == '"' && s[1..|s| - 1] == text;
  }

  lemma NegativeText(n: nat)
    requires n > 0
    ensures IntegerText("-" + DecimalText(n)) && IntegerValue("-" + DecimalText(n)) == 0 - n
  {
    hide DecimalText, DecimalValue;
    var s := "-" + DecimalText(n);
    assert s[0] == '-' && s[1..] == DecimalText(n);
    DecimalRoundTrip(n);
  }

  lemma ScalarRoundTrip(v: Value)
    requires !v.List? && !v.Mapping?
    ensures ParseScalar(ScalarText(v)) == v
    ensures LeafOk(ScalarText(v))
  {
    hide DecimalText, DecimalValue;
    match v
    case Flag(_) =>
    case Number(n) =>
      if n >= 0 {
        DecimalRoundTrip(n);
      } else {
        NegativeText(-n);
      }
      IntegerScalar(ScalarText(v));
    case Text(text) => QuotedScalar(text);
  }

  lemma {:induction false} SpellMeaning(v: Value)
    ensures Meaning(Spell(v)) == v
    decreases v
  {
    match v
    case List(items) => SpellItemsMeaning(items);
    case Mapping(fields) => SpellFieldsMeaning(fields);
    case _ => ScalarRoundTrip(v);
  }

  lemma {:induction false} SpellItemsMeaning(items: seq<Value>)
    ensures MeaningItems(SpellItems(items)) == items
    decreases items
  {
    if items != [] {
      SpellMeaning(items[0]);
      SpellItemsMeaning(items[1..]);
      assert SpellItems(items)[1..] == SpellItems(items[1..]);
    }
  }

  lemma {:induction false} SpellFieldsMeaning(fields: seq<Field>)
    ensures MeaningFields(SpellFields(fields)) == fields
    decreases fields
  {
    if fields != [] {
      SpellMeaning(fields[0].value);
      SpellFieldsMeaning(fields[1..]);
      assert SpellFields(fields)[1..] == SpellFields(fields[1..]);
    }
  }

  /** The values the subset can carry: the conditions of `Representable`, on values. */
  predicate Carried(v: Value) {
    match v
    case List(items) => items != [] && forall i :: 0 <= i < |items| ==> CarriedItem(items[i])
    case Mapping(fields) => fields != [] && CarriedFields(fields)
    case _ => true
  }

  predicate CarriedItem(v: Value) {
    match v
    case List(_) => false
    case Mapping(fields) =>
      && fields != [] && CarriedFields(fields)
      && (|fields| == 1 || !(fields[0].value.List? || fields[0].value.Mapping?))
    case Text(text) => Colon(text).None?
    case _ => true
  }

  predicate CarriedFields(fields: seq<Field>) {
    && (forall i :: 0 <= i < |fields| ==> KeyOk(fields[i].key) && Carried(fields[i].value))
    && forall i, j :: 0 <= i < j < |fields| ==> fields[i].key != fields[j].key
  }

  lemma ItemScalar(v: Value)
    requires !v.List? && CarriedItem(v) && !v.Mapping?
    ensures ItemLeafOk(ScalarText(v))
  {
    ScalarRoundTrip(v);
    var s := ScalarText(v);
    match v
    case Flag(_) =>
    case Number(n) =>
      if n < 0 {
        assert s[1..] == DecimalText(-n);
        assert forall i :: 1 <= i < |s| ==> s[i] == s[1..][i - 1];
      }
    case Text(text) =>
      forall k | 0 <= k < |s| - 1 ensures !(s[k] == ':' && s[k + 1] == ' ') {
        if 0 < k < |s| - 2 {
          assert s[k] == text[k - 1] && s[k + 1] == text[k];
        }
      }
  }

  lemma {:induction false} SpellRepresentable(v: Value)
    requires Carried(v)
    ensures Representable(Spell(v))
    decreases v, 0
  {
    hide KeyOk, LeafOk, ScalarText;
    match v
    case List(items) =>
      forall i | 0 <= i < |items| ensures RepresentableItem(Spell(items[i])) {
        SpellItemRepresentable(items[i]);
      }
    case Mapping(fields) => SpellFieldsRepresentable(fields);
    case _ => ScalarRoundTrip(v);
  }

  lemma {:induction false} SpellFieldsRepresentable(fields: seq<Field>)
    requires CarriedFields(fields)
    ensures RepresentableFields(SpellFields(fields))
    decreases fields
  {
    hide KeyOk;
    forall i | 0 <= i < |fields| ensures Representable(Spell(fields[i].value)) {
      SpellRepresentable(fields[i].value);
    }
  }

  lemma {:induction false} SpellItemRepresentable(v: Value)
    requires CarriedItem(v)
    ensures RepresentableItem(Spell(v))
    decreases v, 1
  {
    hide KeyOk, ItemLeafOk, ScalarText, Colon;
    match v
    case Mapping(fields) => SpellFieldsRepresentable(fields);
    case _ => ItemScalar(v);
  }
}
