// The indentation parser for control.yaml files: a recursive-descent block parser over
// (indentation, text) entries.
module YamlSubset {
  import opened Wrappers
  import opened PyStrings

  // ---------------------------------------------------------------- data

  /** A parsed value; a mapping keeps its fields in insertion order, as a Python dict does. */
  datatype Value =
    | Text(text: string)
    | Flag(flag: bool)
    | Number(number: int)
    | List(items: seq<Value>)
    | Mapping(fields: seq<Field>)

  datatype Field = Field(key: string, value: Value)

  datatype Entry = Entry(indent: nat, text: string)

  datatype ParseError =
    | UnexpectedIndentation
    | ListFieldsNotMapping
    | DuplicateKey
    | UnsupportedSyntax
    | UnsupportedDocument

  // ---------------------------------------------------------------- scalars

  function DecimalValue(s: string): nat
    requires forall i :: 0 <= i < |s| ==> Digit(s[i])
  {
    if s == [] then 0
    else
      assert Digit(s[|s| - 1]);
      DecimalValue(s[..|s| - 1]) * 10 + (s[|s| - 1] as int - 48)
  }

  /** The pattern ^-?\d+$ on the ten ASCII digits. */
  predicate IntegerText(s: string) {
    Digits(s) || (s != [] && s[0] == '-' && Digits(s[1..]))
  }

  function IntegerValue(s: string): int
    requires IntegerText(s)
  {
    if Digits(s) then DecimalValue(s) else 0 - DecimalValue(s[1..])
  }

  function ParseScalar(s: string): (v: Value)
    ensures !v.List? && !v.Mapping?
  {
    if s == "" then Text("")
    else if s == "true" || s == "false" then Flag(s == "true")
    else if IntegerText(s) then Number(IntegerValue(s))
    else if |s| >= 2 && s[0] == s[|s| - 1] && (s[0] == '"' || s[0] == '\'') then Text(s[1..|s| - 1])
    else Text(s)
  }

  // ---------------------------------------------------------------- reading lines

  function LeadingBlanks(line: string): (n: nat)
    ensures n <= |line|
    ensures forall i :: 0 <= i < n ==> line[i] == ' '
    ensures n < |line| ==> line[n] != ' '
  {
    if line != [] && line[0] == ' ' then 1 + LeadingBlanks(line[1..]) else 0
  }

  predicate Skipped(line: string) {
    Strip(line) == [] || StartsWith(LStrip(line), "#")
  }

  /** The entry of each line that is neither blank nor a comment. */
  function Entries(lines: seq<string>): seq<Entry> {
    if lines == [] then []
    else
      (if Skipped(lines[0]) then [] else [Entry(LeadingBlanks(lines[0]), Strip(lines[0]))]) + Entries(lines[1..])
  }

  // ---------------------------------------------------------------- blocks

  /** Position of the first ": ". */
  function Colon(s: string): (i: Option<nat>)
    ensures i.Some? ==> i.value + 2 <= |s| && s[i.value] == ':' && s[i.value + 1] == ' '
    ensures i.Some? ==> forall k :: 0 <= k < i.value ==> !(s[k] == ':' && s[k + 1] == ' ')
    ensures i.None? ==> forall k :: 0 <= k < |s| - 1 ==> !(s[k] == ':' && s[k + 1] == ' ')
  {
    if |s| < 2 then None
    else if s[0] == ':' && s[1] == ' ' then Some(0)
    else match Colon(s[1..])
      case None => None
      case Some(i) => Some(i + 1)
  }

  predicate IsItem(e: Entry) { StartsWith(e.text, "- ") }

  predicate EndsWithColon(s: string) { s != [] && s[|s| - 1] == ':' }

  function Keys(fields: seq<Field>): set<string> {
    set f | f in fields :: f.key
  }

  type Block = Result<(Value, nat), ParseError>

  /** The value of the block at the front of `es`, and the number of entries it takes. */
  function ParseAt(es: seq<Entry>, indent: nat): (r: Block)
    ensures r.Ok? ==> r.value.1 <= |es|
    decreases |es|, 2
  {
    if es == [] then Ok((Mapping([]), 0))
    else if IsItem(es[0]) then
      match ItemsAt(es, indent)
      case Err(e) => Err(e)
      case Ok((items, n)) => Ok((List(items), n))
    else
      match FieldsAt(es, indent, [])
      case Err(e) => Err(e)
      case Ok((fields, n)) => Ok((Mapping(fields), n))
  }

  function ItemsAt(es: seq<Entry>, indent: nat): (r: Result<(seq<Value>, nat), ParseError>)
    ensures r.Ok? ==> r.value.1 <= |es|
    decreases |es|, 1
  {
    if es == [] || es[0].indent < indent then Ok(([], 0))
    else if es[0].indent > indent then Err(UnexpectedIndentation)
    else if !IsItem(es[0]) then Ok(([], 0))
    else match ItemAt(es, indent)
      case Err(e) => Err(e)
      case Ok((item, n)) =>
        match ItemsAt(es[n..], indent)
        case Err(e) => Err(e)
        case Ok((items, m)) => Ok(([item] + items, n + m))
  }

  function ItemAt(es: seq<Entry>, indent: nat): (r: Block)
    requires es != [] && IsItem(es[0])
    ensures r.Ok? ==> 1 <= r.value.1 <= |es|
    decreases |es|, 0
  {
    var item := es[0].text[2..];
    match Colon(item)
    case Some(c) =>
      var first := Field(item[..c], ParseScalar(item[c + 2..]));
      if |es| > 1 && es[1].indent > indent then
        match ParseAt(es[1..], indent + 2)
        case Err(e) => Err(e)
        case Ok((nested, n)) =>
          if !nested.Mapping? then Err(ListFieldsNotMapping)
          else if first.key in Keys(nested.fields) then Err(DuplicateKey)
          else Ok((Mapping([first] + nested.fields), 1 + n))
      else Ok((Mapping([first]), 1))
    case None =>
      if EndsWithColon(item) then
        match ParseAt(es[1..], indent + 2)
        case Err(e) => Err(e)
        case Ok((nested, n)) => Ok((Mapping([Field(item[..|item| - 1], nested)]), 1 + n))
      else Ok((ParseScalar(item), 1))
  }

  function FieldsAt(es: seq<Entry>, indent: nat, fields: seq<Field>): (r: Result<(seq<Field>, nat), ParseError>)
    ensures r.Ok? ==> r.value.1 <= |es|
    decreases |es|, 1
  {
    if es == [] || es[0].indent < indent then Ok((fields, 0))
    else if es[0].indent > indent then Err(UnexpectedIndentation)
    else if IsItem(es[0]) then Ok((fields, 0))
    else
      var text := es[0].text;
      match Colon(text)
      case Some(c) =>
        if text[..c] in Keys(fields) then Err(DuplicateKey)
        else More(1, FieldsAt(es[1..], indent, fields + [Field(text[..c], ParseScalar(text[c + 2..]))]))
      case None =>
        if !EndsWithColon(text) then Err(UnsupportedSyntax)
        else if text[..|text| - 1] in Keys(fields) then Err(DuplicateKey)
        else match ParseAt(es[1..], indent + 2)
          case Err(e) => Err(e)
          case Ok((nested, n)) =>
            More(1 + n, FieldsAt(es[1 + n..], indent, fields + [Field(text[..|text| - 1], nested)]))
  }

  function More<T>(n: nat, r: Result<(T, nat), ParseError>): Result<(T, nat), ParseError> {
    match r
    case Err(e) => Err(e)
    case Ok((value, m)) => Ok((value, n + m))
  }

  function Prepend(items: seq<Value>, n: nat, r: Result<(seq<Value>, nat), ParseError>)
    : Result<(seq<Value>, nat), ParseError>
  {
    match r
    case Err(e) => Err(e)
    case Ok((rest, m)) => Ok((items + rest, n + m))
  }

  function ParseDocument(lines: seq<string>): Result<Value, ParseError> {
    var entries := Entries(lines);
    match ParseAt(entries, 0)
    case Err(e) => Err(e)
    case Ok((value, next)) =>
      if next != |entries| || !value.Mapping? then Err(UnsupportedDocument) else Ok(value)
  }

  // ---------------------------------------------------------------- the parser as written

  /** One list item at `index`: the list branch of the block loop. */
  method ParseItem(entries: seq<Entry>, index: nat, indent: nat) returns (r: Block)
    requires index < |entries| && IsItem(entries[index])
    ensures r == More(index, ItemAt(entries[index..], indent))
    decreases |entries| - index, 0
  {
    hide ParseScalar, Colon, ParseAt;
    var itemText := entries[index].text[2..];
    assert entries[index..][1..] == entries[index + 1..];
    var colon := Colon(itemText);
    if colon.Some? {
      var key := itemText[..colon.value];
      var item := [Field(key, ParseScalar(itemText[colon.value + 2..]))];
      if index + 1 < |entries| && entries[index + 1].indent > indent {
        var nested := ParseBlock(entries, index + 1, indent + 2);
        if nested.Err? {
          return Err(nested.error);
        }
        if !nested.value.0.Mapping? {
          return Err(ListFieldsNotMapping);
        }
        var fields := nested.value.0.fields;
        for k := 0 to |fields|
          invariant item == [Field(key, ParseScalar(itemText[colon.value + 2..]))] + fields[..k]
          invariant key !in Keys(fields[..k])
        {
          assert fields[..k + 1] == fields[..k] + [fields[k]];
          if fields[k].key == key {
            assert fields[k] in fields;
            return Err(DuplicateKey);
          }
          item := item + [fields[k]];
        }
        assert fields[..|fields|] == fields;
        return Ok((Mapping(item), nested.value.1));
      }
      return Ok((Mapping(item), index + 1));
    }
    if EndsWithColon(itemText) {
      var nested := ParseBlock(entries, index + 1, indent + 2);
      if nested.Err? {
        return Err(nested.error);
      }
      return Ok((Mapping([Field(itemText[..|itemText| - 1], nested.value.0)]), nested.value.1));
    }
    return Ok((ParseScalar(itemText), index + 1));
  }

  lemma ItemsStep(entries: seq<Entry>, index: nat, indent: nat, items: seq<Value>, n: nat)
    requires index < |entries| && entries[index].indent == indent && IsItem(entries[index])
    ensures var item := ItemAt(entries[index..], indent);
            var tail := ItemsAt(entries[index..], indent);
            && (item.Err? ==> Prepend(items, n, tail) == Err(item.error))
            && (item.Ok? ==> index + item.value.1 <= |entries|)
            && (item.Ok? ==>
                  Prepend(items, n, tail)
                  == Prepend(items + [item.value.0], n + item.value.1, ItemsAt(entries[index + item.value.1..], indent)))
  {
    hide ItemAt;
    var rest := entries[index..];
    var item := ItemAt(rest, indent);
    if item.Ok? {
      var m := item.value.1;
      assert rest[m..] == entries[index + m..];
      var tail := ItemsAt(rest[m..], indent);
      assert ItemsAt(rest, indent) == Prepend([item.value.0], m, tail);
      PrependTwice(items, n, item.value.0, m, tail);
    }
  }

  lemma PrependNothing(r: Result<(seq<Value>, nat), ParseError>)
    ensures Prepend([], 0, r) == r
  {
    if r.Ok? {
      assert [] + r.value.0 == r.value.0;
    }
  }

  lemma ItemsEnd(entries: seq<Entry>, index: nat, indent: nat, items: seq<Value>, n: nat)
    requires index <= |entries|
    ensures index == |entries| || entries[index].indent < indent || (entries[index].indent == indent && !IsItem(entries[index]))
        ==> Prepend(items, n, ItemsAt(entries[index..], indent)) == Ok((items, n))
    ensures index < |entries| && entries[index].indent > indent
        ==> Prepend(items, n, ItemsAt(entries[index..], indent)) == Err(UnexpectedIndentation)
  {
    hide IsItem, ItemAt;
    assert items + [] == items;
  }

  lemma FieldsStep(entries: seq<Entry>, index: nat, indent: nat, fields: seq<Field>)
    requires index < |entries| && entries[index].indent == indent && !IsItem(entries[index])
    ensures var text := entries[index].text;
            var here := FieldsAt(entries[index..], indent, fields);
            match Colon(text)
            case Some(c) =>
              if text[..c] in Keys(fields) then here == Err(DuplicateKey)
              else here == More(1, FieldsAt(entries[index + 1..], indent,
                                            fields + [Field(text[..c], ParseScalar(text[c + 2..]))]))
            case None => EndsWithColon(text) || here == Err(UnsupportedSyntax)
  {
    hide Keys, ParseScalar, ParseAt;
    assert entries[index..][1..] == entries[index + 1..];
  }

  lemma FieldsNestedStep(entries: seq<Entry>, index: nat, indent: nat, fields: seq<Field>)
    requires index < |entries| && entries[index].indent == indent && !IsItem(entries[index])
    requires Colon(entries[index].text).None? && EndsWithColon(entries[index].text)
    ensures var text := entries[index].text;
            var nested := ParseAt(entries[index + 1..], indent + 2);
            var here := FieldsAt(entries[index..], indent, fields);
            if text[..|text| - 1] in Keys(fields) then here == Err(DuplicateKey)
            else if nested.Err? then here == Err(nested.error)
            else
              && index + 1 + nested.value.1 <= |entries|
              && here == More(1 + nested.value.1,
                              FieldsAt(entries[index + 1 + nested.value.1..], indent,
                                       fields + [Field(text[..|text| - 1], nested.value.0)]))
  {
    hide Keys, ParseAt;
    var rest := entries[index..];
    assert rest[1..] == entries[index + 1..];
    var nested := ParseAt(rest[1..], indent + 2);
    if nested.Ok? {
      assert rest[1 + nested.value.1..] == entries[index + 1 + nested.value.1..];
    }
  }

  lemma FieldsEnd(entries: seq<Entry>, index: nat, indent: nat, fields: seq<Field>)
    requires index <= |entries|
    ensures index == |entries| || entries[index].indent < indent || (entries[index].indent == indent && IsItem(entries[index]))
        ==> FieldsAt(entries[index..], indent, fields) == Ok((fields, 0))
    ensures index < |entries| && entries[index].indent > indent
        ==> FieldsAt(entries[index..], indent, fields) == Err(UnexpectedIndentation)
  {
  }

  /** The block loop on a list. */
  method ParseItems(entries: seq<Entry>, start: nat, indent: nat) returns (r: Result<(seq<Value>, nat), ParseError>)
    requires start <= |entries|
    ensures r == More(start, ItemsAt(entries[start..], indent))
    decreases |entries| - start, 1
  {
    hide ItemAt, ParseScalar, Colon, ParseAt, IsItem, FieldsAt, ItemsAt, Prepend;
    var items: seq<Value> := [];
    var index := start;
    ghost var es := entries[start..];
    PrependNothing(ItemsAt(es, indent));
    while index < |entries|
      invariant start <= index <= |entries|
      invariant ItemsAt(es, indent) == Prepend(items, index - start, ItemsAt(entries[index..], indent))
      decreases |entries| - index
    {
      ItemsEnd(entries, index, indent, items, index - start);
      if entries[index].indent < indent {
        break;
      }
      if entries[index].indent > indent {
        return Err(UnexpectedIndentation);
      }
      if !IsItem(entries[index]) {
        break;
      }
      ItemsStep(entries, index, indent, items, index - start);
      var item := ParseItem(entries, index, indent);
      if item.Err? {
        return Err(item.error);
      }
      items, index := items + [item.value.0], item.value.1;
    }
    ItemsEnd(entries, index, indent, items, index - start);
    return Ok((items, index));
  }

  /** The block loop on a mapping. */
  method ParseFields(entries: seq<Entry>, start: nat, indent: nat) returns (r: Result<(seq<Field>, nat), ParseError>)
    requires start <= |entries|
    ensures r == More(start, FieldsAt(entries[start..], indent, []))
    decreases |entries| - start, 1
  {
    hide ParseScalar, ParseAt, FieldsAt, Keys, Colon, IsItem, StartsWith;
    var fields: seq<Field> := [];
    var index := start;
    ghost var whole := FieldsAt(entries[start..], indent, []);
    while index < |entries|
      invariant start <= index <= |entries|
      invariant whole == More(index - start, FieldsAt(entries[index..], indent, fields))
      decreases |entries| - index
    {
      FieldsEnd(entries, index, indent, fields);
      var text := entries[index].text;
      if entries[index].indent < indent {
        break;
      }
      if entries[index].indent > indent {
        return Err(UnexpectedIndentation);
      }
      if IsItem(entries[index]) {
        break;
      }
      FieldsStep(entries, index, indent, fields);
      var colon := Colon(text);
      if colon.Some? {
        var key := text[..colon.value];
        if key in Keys(fields) {
          return Err(DuplicateKey);
        }
        fields, index := fields + [Field(key, ParseScalar(text[colon.value + 2..]))], index + 1;
        continue;
      }
      if !EndsWithColon(text) {
        return Err(UnsupportedSyntax);
      }
      FieldsNestedStep(entries, index, indent, fields);
      var key := text[..|text| - 1];
      if key in Keys(fields) {
        return Err(DuplicateKey);
      }
      var nested := ParseBlock(entries, index + 1, indent + 2);
      if nested.Err? {
        return Err(nested.error);
      }
      fields, index := fields + [Field(key, nested.value.0)], nested.value.1;
    }
    FieldsEnd(entries, index, indent, fields);
    return Ok((fields, index));
  }

  /** The value of the block starting at `start`, and the index just after it. */
  method ParseBlock(entries: seq<Entry>, start: nat, indent: nat) returns (r: Block)
    requires start <= |entries|
    ensures r == More(start, ParseAt(entries[start..], indent))
    decreases |entries| - start, 2
  {
    hide ItemsAt, FieldsAt;
    if start >= |entries| {
      return Ok((Mapping([]), start));
    }
    if IsItem(entries[start]) {
      var items := ParseItems(entries, start, indent);
      return if items.Err? then Err(items.error) else Ok((List(items.value.0), items.value.1));
    }
    var fields := ParseFields(entries, start, indent);
    return if fields.Err? then Err(fields.error) else Ok((Mapping(fields.value.0), fields.value.1));
  }

  lemma PrependTwice(items: seq<Value>, n: nat, item: Value, m: nat, r: Result<(seq<Value>, nat), ParseError>)
    ensures Prepend(items, n, Prepend([item], m, r)) == Prepend(items + [item], n + m, r)
  {
    if r.Ok? {
      assert items + ([item] + r.value.0) == (items + [item]) + r.value.0;
    }
  }

  lemma EntriesStep(lines: seq<string>, i: nat, entries: seq<Entry>)
    requires i < |lines|
    ensures entries + Entries(lines[i..])
         == (if Skipped(lines[i]) then entries else entries + [Entry(LeadingBlanks(lines[i]), Strip(lines[i]))])
            + Entries(lines[i + 1..])
  {
    hide Skipped, Strip, LeadingBlanks;
    assert lines[i..][0] == lines[i] && lines[i..][1..] == lines[i + 1..];
  }

  lemma NoEntries(entries: seq<Entry>)
    ensures entries + Entries([]) == entries
  {
  }

  method ParseYamlSubset(lines: seq<string>) returns (r: Result<Value, ParseError>)
    ensures r == ParseDocument(lines)
  {
    hide ParseAt, Skipped, Strip, LeadingBlanks, Entries;
    var entries: seq<Entry> := [];
    assert lines[0..] == lines && [] + Entries(lines) == Entries(lines);
    for i := 0 to |lines|
      invariant entries + Entries(lines[i..]) == Entries(lines)
    {
      EntriesStep(lines, i, entries);
      if Skipped(lines[i]) {
        continue;
      }
      entries := entries + [Entry(LeadingBlanks(lines[i]), Strip(lines[i]))];
    }
    assert lines[|lines|..] == [];
    NoEntries(entries);
    var parsed := ParseBlock(entries, 0, 0);
    assert entries[0..] == entries;
    if parsed.Err? {
      return Err(parsed.error);
    }
    if parsed.value.1 != |entries| || !parsed.value.0.Mapping? {
      return Err(UnsupportedDocument);
    }
    return Ok(parsed.value.0);
  }

  // ---------------------------------------------------------------- conservation

  /** Mapping keys plus scalar list items, at every depth. */
  function Size(v: Value): nat {
    match v
    case List(items) => ItemsSize(items)
    case Mapping(fields) => FieldsSize(fields)
    case _ => 0
  }

  function ItemsSize(items: seq<Value>): nat {
    if items == [] then 0
    else (if items[0].List? || items[0].Mapping? then Size(items[0]) else 1) + ItemsSize(items[1..])
  }

  function FieldsSize(fields: seq<Field>): nat {
    if fields == [] then 0 else 1 + Size(fields[0].value) + FieldsSize(fields[1..])
  }

  /** No mapping, at any depth, has two fields with one key. */
  predicate KeysDistinct(v: Value) {
    match v
    case List(items) => forall i :: 0 <= i < |items| ==> KeysDistinct(items[i])
    case Mapping(fields) => FieldsDistinct(fields)
    case _ => true
  }

  predicate FieldsDistinct(fields: seq<Field>) {
    && (forall i :: 0 <= i < |fields| ==> KeysDistinct(fields[i].value))
    && forall i, j :: 0 <= i < j < |fields| ==> fields[i].key != fields[j].key
  }

  lemma {:induction false} FieldsSizeSnoc(fields: seq<Field>, f: Field)
    ensures FieldsSize(fields + [f]) == FieldsSize(fields) + 1 + Size(f.value)
  {
    if fields == [] {
      assert [] + [f] == [f];
    } else {
      assert (fields + [f])[1..] == fields[1..] + [f];
      FieldsSizeSnoc(fields[1..], f);
    }
  }

  lemma DistinctSnoc(fields: seq<Field>, f: Field)
    requires FieldsDistinct(fields) && f.key !in Keys(fields) && KeysDistinct(f.value)
    ensures FieldsDistinct(fields + [f])
  {
    forall i | 0 <= i < |fields| ensures fields[i].key != f.key {
      assert fields[i] in fields;
    }
  }

  lemma DistinctCons(f: Field, fields: seq<Field>)
    requires FieldsDistinct(fields) && f.key !in Keys(fields) && KeysDistinct(f.value)
    ensures FieldsDistinct([f] + fields)
  {
    var all := [f] + fields;
    forall i, j | 0 <= i < j < |all| ensures all[i].key != all[j].key {
      assert all[j] == fields[j - 1] && fields[j - 1] in fields;
      if i > 0 {
        assert all[i] == fields[i - 1];
      }
    }
  }

  /** A block that parses takes one entry per mapping key and per scalar item it yields. */
  lemma {:induction false} BlockConserves(es: seq<Entry>, indent: nat)
    requires ParseAt(es, indent).Ok?
    ensures Size(ParseAt(es, indent).value.0) == ParseAt(es, indent).value.1
    ensures KeysDistinct(ParseAt(es, indent).value.0)
    decreases |es|, 2
  {
    if es != [] {
      if IsItem(es[0]) {
        ItemsConserve(es, indent);
      } else {
        FieldsConserve(es, indent, []);
      }
    }
  }

  lemma {:induction false} ItemsConserve(es: seq<Entry>, indent: nat)
    requires ItemsAt(es, indent).Ok?
    ensures var (items, n) := ItemsAt(es, indent).value;
            ItemsSize(items) == n && forall i :: 0 <= i < |items| ==> KeysDistinct(items[i])
    decreases |es|, 1
  {
    if es == [] || es[0].indent < indent || !IsItem(es[0]) {
    } else {
      ItemConserves(es, indent);
      var n := ItemAt(es, indent).value.1;
      ItemsConserve(es[n..], indent);
      var items := ItemsAt(es, indent).value.0;
      assert items[1..] == ItemsAt(es[n..], indent).value.0;
    }
  }

  lemma ConsSize(first: Field, fields: seq<Field>)
    requires !first.value.List? && !first.value.Mapping?
    ensures Size(Mapping([first] + fields)) == 1 + FieldsSize(fields)
  {
    var all := [first] + fields;
    assert all[1..] == fields;
    assert FieldsSize(all) == 1 + Size(first.value) + FieldsSize(fields);
    assert Size(Mapping(all)) == FieldsSize(all);
  }

  lemma SingleDistinct(f: Field)
    requires KeysDistinct(f.value)
    ensures KeysDistinct(Mapping([f]))
  {
  }

  lemma SingleSize(f: Field)
    ensures Size(Mapping([f])) == 1 + Size(f.value)
  {
    assert [f][1..] == [];
    assert FieldsSize([f]) == 1 + Size(f.value) + FieldsSize([]);
    assert Size(Mapping([f])) == FieldsSize([f]);
  }

  lemma {:induction false} ItemConserves(es: seq<Entry>, indent: nat)
    requires es != [] && IsItem(es[0]) && ItemAt(es, indent).Ok?
    ensures KeysDistinct(ItemAt(es, indent).value.0)
    ensures var (item, n) := ItemAt(es, indent).value;
            n == (if item.List? || item.Mapping? then Size(item) else 1)
    decreases |es|, 0
  {
    hide ParseScalar, Size, ParseAt, Keys;
    var text := es[0].text[2..];
    if Colon(text).Some? {
      var first := Field(text[..Colon(text).value], ParseScalar(text[Colon(text).value + 2..]));
      if |es| > 1 && es[1].indent > indent {
        BlockConserves(es[1..], indent + 2);
        var nested := ParseAt(es[1..], indent + 2).value.0;
        MappingFacts(nested);
        DistinctCons(first, nested.fields);
        ConsSize(first, nested.fields);
      } else {
        assert [first] + [] == [first];
        ConsSize(first, []);
        SingleDistinct(first);
      }
    } else if EndsWithColon(text) {
      BlockConserves(es[1..], indent + 2);
      SingleSize(Field(text[..|text| - 1], ParseAt(es[1..], indent + 2).value.0));
    }
  }

  lemma MappingFacts(v: Value)
    requires v.Mapping? && KeysDistinct(v)
    ensures Size(v) == FieldsSize(v.fields) && FieldsDistinct(v.fields)
  {
  }

  lemma {:induction false} FieldsConserve(es: seq<Entry>, indent: nat, fields: seq<Field>)
    requires FieldsAt(es, indent, fields).Ok? && FieldsDistinct(fields)
    ensures var (all, n) := FieldsAt(es, indent, fields).value;
            FieldsSize(all) == FieldsSize(fields) + n && FieldsDistinct(all)
    decreases |es|, 1
  {
    hide Keys, FieldsDistinct, ParseScalar, FieldsSize, ParseAt;
    if es == [] || es[0].indent < indent || IsItem(es[0]) {
    } else {
      var text := es[0].text;
      if Colon(text).Some? {
        var c := Colon(text).value;
        var field := Field(text[..c], ParseScalar(text[c + 2..]));
        assert Size(field.value) == 0 && KeysDistinct(field.value);
        FieldsSizeSnoc(fields, field);
        DistinctSnoc(fields, field);
        FieldsConserve(es[1..], indent, fields + [field]);
      } else {
        BlockConserves(es[1..], indent + 2);
        var (nested, n) := ParseAt(es[1..], indent + 2).value;
        var field := Field(text[..|text| - 1], nested);
        FieldsSizeSnoc(fields, field);
        DistinctSnoc(fields, field);
        FieldsConserve(es[1 + n..], indent, fields + [field]);
      }
    }
  }

  /** An accepted document uses every entry, once, and has no duplicate keys. */
  lemma DocumentConserves(lines: seq<string>)
    requires ParseDocument(lines).Ok?
    ensures ParseDocument(lines).value.Mapping?
    ensures Size(ParseDocument(lines).value) == |Entries(lines)|
    ensures KeysDistinct(ParseDocument(lines).value)
  {
    BlockConserves(Entries(lines), 0);
  }

  // ---------------------------------------------------------------- comments and blank lines

  lemma {:induction false} EntriesConcat(a: seq<string>, b: seq<string>)
    ensures Entries(a + b) == Entries(a) + Entries(b)
  {
    hide Skipped, Strip, LeadingBlanks;
    if a == [] {
      assert a + b == b;
    } else {
      assert (a + b)[1..] == a[1..] + b;
      EntriesConcat(a[1..], b);
    }
  }

  /** A blank or comment line changes nothing, wherever it stands and however it is indented. */
  lemma CommentsInvisible(before: seq<string>, line: string, after: seq<string>)
    requires Skipped(line)
    ensures ParseDocument(before + [line] + after) == ParseDocument(before + after)
  {
    hide ParseAt, Entries, Skipped;
    EntriesConcat(before + [line], after);
    EntriesConcat(before, [line]);
    EntriesConcat(before, after);
    SkippedEntries(line);
    assert Entries(before) + [] == Entries(before);
    assert Entries(before + [line] + after) == Entries(before + after);
  }

  lemma SkippedEntries(line: string)
    requires Skipped(line)
    ensures Entries([line]) == []
  {
    assert [line][1..] == [];
  }
}
