// The two SLSA Build L2 views of the checklist generator: the checks it selects row by row, and the coverage table
// it computes requirement by requirement, read back by the assessor.
module SlsaViews {
  import opened Wrappers
  import opened PyStrings
  import opened StableSort

  // ---------------------------------------------------------------- controls and registry

  datatype Mapping = Mapping(framework: string, id: string, appliesTo: seq<string>)

  /** A control, its check identifiers and its framework mappings. */
  datatype Control = Control(id: string, checks: seq<string>, mappings: seq<Mapping>)

  type Level = n: nat | n < 128

  /** A registry entry; `level` is its minimum level when it is a level requirement. */
  datatype Entry = Entry(id: string, title: string, track: string, responsibility: string, level: Option<Level>)

  datatype Registry = Registry(mappingVersion: string, entries: seq<Entry>)

  predicate Upper(c: char) { 'A' <= c <= 'Z' }

  /** `PSB-` letters `-` three digits. */
  predicate ControlIdFormat(s: string) {
    && |s| >= 9 && s[..4] == "PSB-"
    && (forall i :: 4 <= i < |s| - 4 ==> Upper(s[i]))
    && s[|s| - 4] == '-'
    && (forall i :: |s| - 3 <= i < |s| ==> Digit(s[i]))
  }

  /** Dash-separated groups of capitals and digits, beginning with a capital. */
  predicate CheckIdFormat(s: string) {
    && s != "" && Upper(s[0])
    && (forall i :: 0 <= i < |s| ==> Upper(s[i]) || Digit(s[i]) || s[i] == '-')
    && (forall i :: 0 <= i < |s| && s[i] == '-' ==> i + 1 < |s| && s[i + 1] != '-')
  }

  predicate ValidControl(c: Control) {
    && ControlIdFormat(c.id)
    && (forall i :: 0 <= i < |c.checks| ==> CheckIdFormat(c.checks[i]))
    && (forall i, j :: 0 <= i < j < |c.checks| ==> c.checks[i] != c.checks[j])
    && (forall i, k :: 0 <= i < |c.mappings| && 0 <= k < |c.mappings[i].appliesTo| ==>
          c.mappings[i].appliesTo[k] in c.checks)
  }

  function ControlId(c: Control): string { c.id }
  function EntryId(e: Entry): string { e.id }

  /** The controls that catalogue validation accepts. */
  ghost predicate ValidControls(controls: seq<Control>) {
    && (forall i :: 0 <= i < |controls| ==> ValidControl(controls[i]))
    && DistinctBy(ControlId, controls)
  }

  /** The SLSA registries that registry validation accepts. */
  ghost predicate ValidEntries(entries: seq<Entry>) {
    && (forall i :: 0 <= i < |entries| ==>
          entries[i].track == "build" && (entries[i].level.Some? ==> 1 <= entries[i].level.value <= 3))
    && DistinctBy(EntryId, entries)
  }

  function FullId(control: string, check: string): string { control + "-" + check }

  // ---------------------------------------------------------------- the checklist rows

  datatype Scope = Included | ExcludedHigherLevel | RelatedNoLevel | Unrelated

  datatype Row = Row(controlId: string, checkId: string, scope: Scope)

  /** The registry by identifier; a repeated identifier keeps its last entry. */
  function ById(entries: seq<Entry>): map<string, Entry> {
    if entries == [] then map[]
    else ById(entries[..|entries| - 1])[entries[|entries| - 1].id := entries[|entries| - 1]]
  }

  predicate Related(byId: map<string, Entry>, m: Mapping) {
    m.framework == "slsa" && m.id in byId
  }

  predicate Leveled(byId: map<string, Entry>, m: Mapping) {
    Related(byId, m) && byId[m.id].level.Some?
  }

  predicate AtMostTwo(byId: map<string, Entry>, m: Mapping) {
    Leveled(byId, m) && byId[m.id].level.value <= 2
  }

  function ScopeOf(byId: map<string, Entry>, mappings: seq<Mapping>): Scope {
    if exists i :: 0 <= i < |mappings| && Leveled(byId, mappings[i]) then
      if exists i :: 0 <= i < |mappings| && AtMostTwo(byId, mappings[i]) then Included else ExcludedHigherLevel
    else if exists i :: 0 <= i < |mappings| && Related(byId, mappings[i]) then RelatedNoLevel
    else Unrelated
  }

  /** `mappings_by_check[check]`: a mapping once for each time it names the check. */
  function Applications(m: Mapping, n: nat, check: string): seq<Mapping>
    requires n <= |m.appliesTo|
  {
    if n == 0 then [] else Applications(m, n - 1, check) + (if m.appliesTo[n - 1] == check then [m] else [])
  }

  function MappingsFor(mappings: seq<Mapping>, check: string): seq<Mapping> {
    if mappings == [] then []
    else
      var last := mappings[|mappings| - 1];
      MappingsFor(mappings[..|mappings| - 1], check) + Applications(last, |last.appliesTo|, check)
  }

  function RowOf(byId: map<string, Entry>, c: Control, check: string): Row {
    Row(c.id, FullId(c.id, check), ScopeOf(byId, MappingsFor(c.mappings, check)))
  }

  function RowsOf(byId: map<string, Entry>, c: Control): seq<Row> {
    seq(|c.checks|, i requires 0 <= i < |c.checks| => RowOf(byId, c, c.checks[i]))
  }

  function RowsOfAll(byId: map<string, Entry>, controls: seq<Control>): seq<Row> {
    if controls == [] then []
    else RowsOfAll(byId, controls[..|controls| - 1]) + RowsOf(byId, controls[|controls| - 1])
  }

  /** The checklist, in control order. */
  function Rows(controls: seq<Control>, entries: seq<Entry>): seq<Row> {
    RowsOfAll(ById(entries), Sort(ControlId, controls))
  }

  /** A lookup in a `defaultdict(list)`. */
  function At<T>(index: map<string, seq<T>>, key: string): seq<T> {
    if key in index then index[key] else []
  }

  ghost predicate GroupedByCheck(index: map<string, seq<Mapping>>, mappings: seq<Mapping>) {
    forall check :: At(index, check) == MappingsFor(mappings, check)
  }

  method GroupByCheck(c: Control) returns (index: map<string, seq<Mapping>>)
    ensures GroupedByCheck(index, c.mappings)
  {
    index := map[];
    assert c.mappings[..0] == [];
    for i := 0 to |c.mappings|
      invariant GroupedByCheck(index, c.mappings[..i])
    {
      index := AddApplications(index, c.mappings[..i], c.mappings[i]);
      assert c.mappings[..i + 1] == c.mappings[..i] + [c.mappings[i]];
    }
    assert c.mappings[..|c.mappings|] == c.mappings;
  }

  /** The index once `n` of the checks of `m` are filed. */
  ghost predicate PartlyGrouped(index: map<string, seq<Mapping>>, done: seq<Mapping>, m: Mapping, n: nat)
    requires n <= |m.appliesTo|
  {
    forall check :: At(index, check) == MappingsFor(done, check) + Applications(m, n, check)
  }

  lemma AppendAt<T>(index: map<string, seq<T>>, key: string, more: seq<T>, other: string)
    ensures At(index[key := At(index, key) + more], other) == At(index, other) + if other == key then more else []
  {
    assert At(index, other) + [] == At(index, other);
  }

  lemma FileMapping(index: map<string, seq<Mapping>>, done: seq<Mapping>, m: Mapping, n: nat)
    requires n < |m.appliesTo| && PartlyGrouped(index, done, m, n)
    ensures PartlyGrouped(index[m.appliesTo[n] := At(index, m.appliesTo[n]) + [m]], done, m, n + 1)
  {
    hide MappingsFor, At, Applications;
    var filed := index[m.appliesTo[n] := At(index, m.appliesTo[n]) + [m]];
    forall check ensures At(filed, check) == MappingsFor(done, check) + Applications(m, n + 1, check) {
      AppendAt(index, m.appliesTo[n], [m], check);
      OneApplication(m, n, check);
      assert At(index, check) == MappingsFor(done, check) + Applications(m, n, check);
    }
  }

  lemma OneApplication(m: Mapping, n: nat, check: string)
    requires n < |m.appliesTo|
    ensures Applications(m, n + 1, check) == Applications(m, n, check) + if check == m.appliesTo[n] then [m] else []
  {
  }

  lemma AllFiled(index: map<string, seq<Mapping>>, done: seq<Mapping>, m: Mapping)
    ensures PartlyGrouped(index, done, m, 0) <==> GroupedByCheck(index, done)
    ensures PartlyGrouped(index, done, m, |m.appliesTo|) <==> GroupedByCheck(index, done + [m])
  {
    assert (done + [m])[..|done|] == done;
    forall check ensures MappingsFor(done + [m], check)
                      == MappingsFor(done, check) + Applications(m, |m.appliesTo|, check)
      ensures Applications(m, 0, check) == []
    {
    }
  }

  method AddApplications(before: map<string, seq<Mapping>>, ghost done: seq<Mapping>, m: Mapping)
    returns (index: map<string, seq<Mapping>>)
    requires GroupedByCheck(before, done)
    ensures GroupedByCheck(index, done + [m])
  {
    hide PartlyGrouped, GroupedByCheck;
    index := before;
    AllFiled(index, done, m);
    for k := 0 to |m.appliesTo|
      invariant PartlyGrouped(index, done, m, k)
    {
      FileMapping(index, done, m, k);
      index := index[m.appliesTo[k] := At(index, m.appliesTo[k]) + [m]];
    }
    AllFiled(index, done, m);
  }

  /** The row loop of `build_rows`. */
  method BuildRows(controls: seq<Control>, entries: seq<Entry>) returns (rows: seq<Row>)
    ensures rows == Rows(controls, entries)
  {
    hide ScopeOf, MappingsFor;
    var byId := ById(entries);
    var ordered := Sort(ControlId, controls);
    rows := [];
    for n := 0 to |ordered|
      invariant rows == RowsOfAll(byId, ordered[..n])
    {
      var c := ordered[n];
      var index := GroupByCheck(c);
      var block: seq<Row> := [];
      for k := 0 to |c.checks|
        invariant block == RowsOf(byId, c)[..k]
      {
        assert At(index, c.checks[k]) == MappingsFor(c.mappings, c.checks[k]);
        block := block + [Row(c.id, FullId(c.id, c.checks[k]), ScopeOf(byId, At(index, c.checks[k])))];
      }
      rows := rows + block;
      assert ordered[..n + 1][..n] == ordered[..n];
    }
    assert ordered[..|ordered|] == ordered;
  }

  // ---------------------------------------------------------------- the coverage table

  datatype CoverageRow = CoverageRow(
    profile: string, version: string, track: string, targetLevel: string, requirementId: string,
    responsibility: string, title: string, status: string, mappedChecks: string)

  function FullIds(control: string, checks: seq<string>): seq<string> {
    seq(|checks|, i requires 0 <= i < |checks| => FullId(control, checks[i]))
  }

  function MappedIn(control: string, mappings: seq<Mapping>, requirement: string): seq<string> {
    if mappings == [] then []
    else
      var last := mappings[|mappings| - 1];
      MappedIn(control, mappings[..|mappings| - 1], requirement)
      + (if last.framework == "slsa" && last.id == requirement then FullIds(control, last.appliesTo) else [])
  }

  /** `mappings_by_requirement[requirement]`, in catalogue order. */
  function Mapped(controls: seq<Control>, requirement: string): seq<string> {
    if controls == [] then []
    else
      var last := controls[|controls| - 1];
      Mapped(controls[..|controls| - 1], requirement) + MappedIn(last.id, last.mappings, requirement)
  }

  /** The items of a list, each kept once. */
  function Distinct(items: seq<string>): seq<string> {
    if items == [] then []
    else
      var rest := Distinct(items[..|items| - 1]);
      if items[|items| - 1] in rest then rest else rest + [items[|items| - 1]]
  }

  /** `sorted({...})`. */
  function SortedSet(items: seq<string>): seq<string> { SortStrings(Distinct(items)) }

  function CoverageOf(version: string, e: Entry, mapped: seq<string>): CoverageRow {
    CoverageRow("slsa-build-l2", version, "build", "2", e.id, e.responsibility, e.title,
                if mapped == [] then "gap" else "mapped-evidence", Join("; ", SortedSet(mapped)))
  }

  predicate InProfile(e: Entry) {
    e.track == "build" && e.level.Some? && e.level.value <= 2
  }

  /** The order of `(minimum_level, id)` pairs, 99 standing for no level. */
  function EntryKey(e: Entry): string {
    var level: Level := match e.level case None => 99 case Some(l) => l;
    [level as char] + e.id
  }

  function CoverageRows(controls: seq<Control>, version: string, ordered: seq<Entry>): seq<CoverageRow> {
    if ordered == [] then []
    else
      var last := ordered[|ordered| - 1];
      CoverageRows(controls, version, ordered[..|ordered| - 1])
      + (if InProfile(last) then [CoverageOf(version, last, Mapped(controls, last.id))] else [])
  }

  function Coverage(controls: seq<Control>, registry: Registry): seq<CoverageRow> {
    CoverageRows(controls, registry.mappingVersion, Sort(EntryKey, registry.entries))
  }

  function Selected(rows: seq<Row>): seq<Row> {
    if rows == [] then []
    else Selected(rows[..|rows| - 1]) + (if rows[|rows| - 1].scope.Included? then [rows[|rows| - 1]] else [])
  }

  ghost predicate GroupedByRequirement(index: map<string, seq<string>>, controls: seq<Control>) {
    forall requirement :: At(index, requirement) == Mapped(controls, requirement)
  }

  method GroupByRequirement(controls: seq<Control>) returns (index: map<string, seq<string>>)
    ensures GroupedByRequirement(index, controls)
  {
    index := map[];
    assert controls[..0] == [];
    for i := 0 to |controls|
      invariant GroupedByRequirement(index, controls[..i])
    {
      index := AddControl(index, controls[..i], controls[i]);
      assert controls[..i + 1] == controls[..i] + [controls[i]];
    }
    assert controls[..|controls|] == controls;
  }

  /** The index once `n` mappings of `c` are filed. */
  ghost predicate PartlyIndexed(index: map<string, seq<string>>, done: seq<Control>, c: Control, n: nat)
    requires n <= |c.mappings|
  {
    forall requirement ::
      At(index, requirement) == Mapped(done, requirement) + MappedIn(c.id, c.mappings[..n], requirement)
  }

  lemma FileChecks(index: map<string, seq<string>>, filed: map<string, seq<string>>, done: seq<Control>, c: Control,
                   n: nat)
    requires n < |c.mappings| && PartlyIndexed(index, done, c, n)
    requires if c.mappings[n].framework == "slsa" then ChecksFiled(index, filed, c.id, c.mappings[n]) else filed == index
    ensures PartlyIndexed(filed, done, c, n + 1)
  {
    hide Mapped, At, MappedIn, FullIds;
    var m := c.mappings[n];
    forall r ensures At(filed, r) == Mapped(done, r) + MappedIn(c.id, c.mappings[..n + 1], r) {
      assert At(index, r) == Mapped(done, r) + MappedIn(c.id, c.mappings[..n], r);
      OneMapping(c, n, r);
      var added := if m.framework == "slsa" && m.id == r then FullIds(c.id, m.appliesTo) else [];
      assert At(filed, r) == At(index, r) + added;
    }
  }

  lemma OneMapping(c: Control, n: nat, requirement: string)
    requires n < |c.mappings|
    ensures MappedIn(c.id, c.mappings[..n + 1], requirement)
         == MappedIn(c.id, c.mappings[..n], requirement)
            + if c.mappings[n].framework == "slsa" && c.mappings[n].id == requirement
              then FullIds(c.id, c.mappings[n].appliesTo) else []
  {
    assert c.mappings[..n + 1][..n] == c.mappings[..n];
  }

  lemma AllIndexed(index: map<string, seq<string>>, done: seq<Control>, c: Control)
    ensures PartlyIndexed(index, done, c, 0) <==> GroupedByRequirement(index, done)
    ensures PartlyIndexed(index, done, c, |c.mappings|) <==> GroupedByRequirement(index, done + [c])
  {
    assert c.mappings[..|c.mappings|] == c.mappings && c.mappings[..0] == [];
    assert (done + [c])[..|done|] == done;
    forall r ensures Mapped(done + [c], r) == Mapped(done, r) + MappedIn(c.id, c.mappings, r)
      ensures MappedIn(c.id, [], r) == []
    {
    }
  }

  method AddControl(before: map<string, seq<string>>, ghost done: seq<Control>, c: Control)
    returns (index: map<string, seq<string>>)
    requires GroupedByRequirement(before, done)
    ensures GroupedByRequirement(index, done + [c])
  {
    hide PartlyIndexed, GroupedByRequirement, ChecksFiled;
    index := before;
    AllIndexed(index, done, c);
    for i := 0 to |c.mappings|
      invariant PartlyIndexed(index, done, c, i)
    {
      var m := c.mappings[i];
      ghost var was := index;
      if m.framework == "slsa" {
        index := AddChecks(index, c.id, m);
      }
      FileChecks(was, index, done, c, i);
    }
    AllIndexed(index, done, c);
  }

  ghost predicate ChecksFiled(before: map<string, seq<string>>, index: map<string, seq<string>>, control: string,
                              m: Mapping)
  {
    forall r :: At(index, r) == At(before, r) + if r == m.id then FullIds(control, m.appliesTo) else []
  }

  ghost predicate PartlyFiled(before: map<string, seq<string>>, index: map<string, seq<string>>, control: string,
                              m: Mapping, n: nat)
    requires n <= |m.appliesTo|
  {
    forall r :: At(index, r) == At(before, r) + if r == m.id then FullIds(control, m.appliesTo)[..n] else []
  }

  lemma FileCheck(before: map<string, seq<string>>, index: map<string, seq<string>>, control: string, m: Mapping, n: nat)
    requires n < |m.appliesTo| && PartlyFiled(before, index, control, m, n)
    ensures PartlyFiled(before, index[m.id := At(index, m.id) + [FullId(control, m.appliesTo[n])]], control, m, n + 1)
  {
    hide At, FullId;
    var full := FullId(control, m.appliesTo[n]);
    var fulls := FullIds(control, m.appliesTo);
    var filed := index[m.id := At(index, m.id) + [full]];
    assert fulls[..n + 1] == fulls[..n] + [full];
    forall r ensures At(filed, r) == At(before, r) + if r == m.id then fulls[..n + 1] else [] {
      AppendAt(index, m.id, [full], r);
      assert At(index, r) == At(before, r) + if r == m.id then fulls[..n] else [];
    }
  }

  lemma AllChecksFiled(before: map<string, seq<string>>, index: map<string, seq<string>>, control: string, m: Mapping)
    ensures PartlyFiled(before, before, control, m, 0)
    ensures PartlyFiled(before, index, control, m, |m.appliesTo|) ==> ChecksFiled(before, index, control, m)
  {
    var fulls := FullIds(control, m.appliesTo);
    assert fulls[..|fulls|] == fulls;
    forall r ensures At(before, r) + [] == At(before, r) {
    }
  }

  method AddChecks(before: map<string, seq<string>>, control: string, m: Mapping)
    returns (index: map<string, seq<string>>)
    ensures ChecksFiled(before, index, control, m)
  {
    hide PartlyFiled, ChecksFiled, At;
    index := before;
    AllChecksFiled(before, index, control, m);
    for k := 0 to |m.appliesTo|
      invariant PartlyFiled(before, index, control, m, k)
    {
      FileCheck(before, index, control, m, k);
      index := index[m.id := At(index, m.id) + [FullId(control, m.appliesTo[k])]];
    }
    AllChecksFiled(before, index, control, m);
  }

  /** `build_slsa_l2_profile`: the selected rows and the coverage table. */
  method BuildSlsaL2Profile(controls: seq<Control>, rows: seq<Row>, registry: Registry)
    returns (selected: seq<Row>, coverage: seq<CoverageRow>)
    ensures selected == Selected(rows)
    ensures coverage == Coverage(controls, registry)
  {
    hide Mapped, CoverageOf;
    selected := [];
    for i := 0 to |rows|
      invariant selected == Selected(rows[..i])
    {
      assert rows[..i + 1][..i] == rows[..i];
      if rows[i].scope.Included? {
        selected := selected + [rows[i]];
      }
    }
    assert rows[..|rows|] == rows;
    var index := GroupByRequirement(controls);
    var ordered := Sort(EntryKey, registry.entries);
    coverage := [];
    for i := 0 to |ordered|
      invariant coverage == CoverageRows(controls, registry.mappingVersion, ordered[..i])
    {
      assert ordered[..i + 1][..i] == ordered[..i];
      if ordered[i].track == "build" && ordered[i].level.Some? && ordered[i].level.value <= 2 {
        assert At(index, ordered[i].id) == Mapped(controls, ordered[i].id);
        coverage := coverage + [CoverageOf(registry.mappingVersion, ordered[i], At(index, ordered[i].id))];
      }
    }
    assert ordered[..|ordered|] == ordered;
  }

  /** How the assessor reads the Mapped Checks field back. */
  function LoadedChecks(field: string): seq<string> { NonBlank(Split(field, ';')) }
}

// The views agree, and the joined field survives the trip through the file.
module SlsaViewsAgree {
  import opened PyStrings
  import opened StableSort
  import opened SlsaViews

  // ---------------------------------------------------------------- identifiers

  lemma FirstDash(c: string, k: string)
    requires ControlIdFormat(c)
    ensures |c| >= 9 && FullId(c, k)[|c| - 4] == '-'
    ensures forall i :: 4 <= i < |c| - 4 ==> FullId(c, k)[i] != '-'
  {
    assert !Upper('-');
    assert forall i :: 0 <= i < |c| ==> FullId(c, k)[i] == c[i];
  }

  /** The control a full check identifier belongs to can be read off it. */
  lemma FullIdInjective(c1: string, k1: string, c2: string, k2: string)
    requires ControlIdFormat(c1) && ControlIdFormat(c2)
    ensures FullId(c1, k1) == FullId(c2, k2) <==> c1 == c2 && k1 == k2
  {
    hide ControlIdFormat;
    FirstDash(c1, k1);
    FirstDash(c2, k2);
    var f1, f2 := FullId(c1, k1), FullId(c2, k2);
    assert c1 == f1[..|c1|] && k1 == f1[|c1| + 1..];
    assert c2 == f2[..|c2|] && k2 == f2[|c2| + 1..];
  }

  /** Identifiers that pass through a `; `-joined field unharmed. */
  predicate Plain(s: string) { s != "" && Trimmed(s) && ';' !in s }

  lemma FullIdPlain(c: string, k: string)
    requires ControlIdFormat(c) && CheckIdFormat(k)
    ensures Plain(FullId(c, k))
  {
    var f := FullId(c, k);
    assert f[0] == "PSB-"[0] == 'P';
    assert f[|f| - 1] == k[|k| - 1];
    forall i | 0 <= i < |f| ensures f[i] != ';' {
      if i < 4 {
        assert f[i] == "PSB-"[i];
      } else if i < |c| {
        assert f[i] == c[i];
      } else if i > |c| {
        assert f[i] == k[i - |c| - 1];
      }
    }
  }

  lemma StripBlank(s: string)
    ensures Strip(" " + s) == Strip(s)
  {
    assert (" " + s)[1..] == s;
  }

  lemma LeadingBlank(s: string)
    ensures NonBlank(Split(" " + s, ';')) == NonBlank(Split(s, ';'))
  {
    var parts := Split(s, ';');
    assert (" " + s)[1..] == s;
    assert Split(" " + s, ';') == [" " + parts[0]] + parts[1..];
    StripBlank(parts[0]);
  }

  lemma OneLoaded(id: string)
    requires Plain(id)
    ensures LoadedChecks(id) == [id]
  {
    hide Strip;
    StripFixes(id);
    SplitSingle(id, ';');
    assert NonBlank([id]) == [Strip(id)] + NonBlank([id][1..]);
  }

  lemma OneMoreLoaded(id: string, rest: string)
    requires Plain(id)
    ensures LoadedChecks(id + "; " + rest) == [id] + LoadedChecks(rest)
  {
    hide Strip;
    StripFixes(id);
    assert id + "; " + rest == id + [';'] + (" " + rest);
    SplitConcat(id, " " + rest, ';');
    LeadingBlank(rest);
    var parts := [id] + Split(" " + rest, ';');
    assert parts[1..] == Split(" " + rest, ';');
    assert NonBlank(parts) == [Strip(id)] + NonBlank(parts[1..]);
  }

  /** `load_coverage` recovers exactly the list that was joined. */
  lemma {:induction false} JoinedRoundTrip(ids: seq<string>)
    requires forall i :: 0 <= i < |ids| ==> Plain(ids[i])
    ensures LoadedChecks(Join("; ", ids)) == ids
  {
    hide Plain, LoadedChecks;
    if ids == [] {
      NothingLoaded();
    } else if |ids| == 1 {
      OneLoaded(ids[0]);
    } else {
      JoinedRoundTrip(ids[1..]);
      OneMoreLoaded(ids[0], Join("; ", ids[1..]));
      assert ids == [ids[0]] + ids[1..];
    }
  }

  lemma NothingLoaded()
    ensures LoadedChecks("") == []
  {
    assert Split("", ';') == [""] && Strip("") == "";
  }

  lemma {:induction false} DistinctKeeps(items: seq<string>)
    ensures forall x :: x in Distinct(items) <==> x in items
    ensures DistinctBy(Identity, Distinct(items))
  {
    if items != [] {
      DistinctKeeps(items[..|items| - 1]);
      assert items == items[..|items| - 1] + [items[|items| - 1]];
    }
  }

  /** `sorted({...})`: the same members, strictly ascending. */
  lemma SortedSetSorts(items: seq<string>)
    ensures forall x :: x in SortedSet(items) <==> x in items
    ensures forall i, j :: 0 <= i < j < |SortedSet(items)| ==> Less(SortedSet(items)[i], SortedSet(items)[j])
  {
    hide Less;
    var once, sorted := Distinct(items), SortedSet(items);
    DistinctKeeps(items);
    SameMembers(once, sorted);
    SortSorts(Identity, once);
    DistinctSpread(Identity, once, sorted);
    forall i, j | 0 <= i < j < |sorted| ensures Less(sorted[i], sorted[j]) {
      assert !Less(Identity(sorted[j]), Identity(sorted[i])) && Identity(sorted[i]) != Identity(sorted[j]);
      LessTotal(sorted[i], sorted[j]);
    }
  }

  // ---------------------------------------------------------------- what each view contains

  /** Some mapping of the control assigns the check to the requirement. */
  ghost predicate Assigns(c: Control, check: string, requirement: string) {
    exists m :: m in c.mappings && m.framework == "slsa" && m.id == requirement && check in m.appliesTo
  }

  lemma {:induction false} ApplicationsMembers(m: Mapping, n: nat, check: string)
    requires n <= |m.appliesTo|
    ensures forall x :: x in Applications(m, n, check) <==> x == m && check in m.appliesTo[..n]
  {
    if n > 0 {
      ApplicationsMembers(m, n - 1, check);
      assert m.appliesTo[..n] == m.appliesTo[..n - 1] + [m.appliesTo[n - 1]];
    }
  }

  lemma {:induction false} MappingsForMembers(mappings: seq<Mapping>, check: string)
    ensures forall m :: m in MappingsFor(mappings, check) <==> m in mappings && check in m.appliesTo
  {
    hide Applications;
    if mappings != [] {
      var init, last := mappings[..|mappings| - 1], mappings[|mappings| - 1];
      assert mappings == init + [last];
      MappingsForMembers(init, check);
      ApplicationsMembers(last, |last.appliesTo|, check);
      assert last.appliesTo[..|last.appliesTo|] == last.appliesTo;
    }
  }

  lemma {:induction false} ByIdFinds(entries: seq<Entry>)
    requires DistinctBy(EntryId, entries)
    ensures forall id :: id in ById(entries) ==> ById(entries)[id] in entries && ById(entries)[id].id == id
    ensures forall e :: e in entries ==> e.id in ById(entries) && ById(entries)[e.id] == e
  {
    if entries != [] {
      var init, last := entries[..|entries| - 1], entries[|entries| - 1];
      assert entries == init + [last];
      ByIdFinds(init);
      forall e | e in init ensures e.id != last.id {
        var i :| 0 <= i < |init| && init[i] == e;
        assert EntryId(entries[i]) != EntryId(entries[|init|]);
      }
    }
  }

  lemma IncludedMeans(entries: seq<Entry>, c: Control, check: string)
    requires ValidEntries(entries)
    ensures RowOf(ById(entries), c, check).scope.Included?
            <==> exists e :: e in entries && InProfile(e) && Assigns(c, check, e.id)
  {
    hide MappingsFor, ById, DistinctBy;
    var byId, mappings := ById(entries), MappingsFor(c.mappings, check);
    ByIdFinds(entries);
    MappingsForMembers(c.mappings, check);
    if i :| 0 <= i < |mappings| && AtMostTwo(byId, mappings[i]) {
      assert mappings[i] in mappings;
      var e := byId[mappings[i].id];
      assert InProfile(e) && Assigns(c, check, e.id);
    }
    if e :| e in entries && InProfile(e) && Assigns(c, check, e.id) {
      var m :| m in c.mappings && m.framework == "slsa" && m.id == e.id && check in m.appliesTo;
      assert m in mappings;
      var i :| 0 <= i < |mappings| && mappings[i] == m;
      assert AtMostTwo(byId, mappings[i]);
    }
  }

  ghost predicate IsRow(row: Row, byId: map<string, Entry>, c: Control, check: string) {
    check in c.checks && row == RowOf(byId, c, check)
  }

  lemma {:induction false} RowsMembers(byId: map<string, Entry>, controls: seq<Control>, row: Row)
    ensures row in RowsOfAll(byId, controls)
            <==> exists c, check :: c in controls && IsRow(row, byId, c, check)
  {
    hide RowOf;
    if controls != [] {
      var init, last := controls[..|controls| - 1], controls[|controls| - 1];
      assert controls == init + [last];
      RowsMembers(byId, init, row);
      var block := RowsOf(byId, last);
      if row in block {
        var i :| 0 <= i < |block| && block[i] == row;
        assert IsRow(row, byId, last, last.checks[i]);
      }
      if check :| IsRow(row, byId, last, check) {
        var i :| 0 <= i < |last.checks| && last.checks[i] == check;
        assert block[i] == row;
      }
    }
  }

  lemma {:induction false} SelectedMembers(rows: seq<Row>)
    ensures forall r :: r in Selected(rows) <==> r in rows && r.scope.Included?
  {
    if rows != [] {
      SelectedMembers(rows[..|rows| - 1]);
      assert rows == rows[..|rows| - 1] + [rows[|rows| - 1]];
    }
  }

  lemma {:induction false} MappedInMembers(control: string, mappings: seq<Mapping>, requirement: string, full: string)
    ensures full in MappedIn(control, mappings, requirement)
            <==> exists check :: full == FullId(control, check)
                                 && Assigns(Control(control, [], mappings), check, requirement)
  {
    if mappings != [] {
      var init, last := mappings[..|mappings| - 1], mappings[|mappings| - 1];
      assert mappings == init + [last];
      MappedInMembers(control, init, requirement, full);
      var fulls := FullIds(control, last.appliesTo);
      var before, all := Control(control, [], init), Control(control, [], mappings);
      forall check ensures Assigns(all, check, requirement)
                           <==> Assigns(before, check, requirement)
                                || (last.framework == "slsa" && last.id == requirement && check in last.appliesTo)
      {
      }
      if full in fulls {
        var i :| 0 <= i < |fulls| && fulls[i] == full;
        assert full == FullId(control, last.appliesTo[i]);
      }
      if check :| full == FullId(control, check) && check in last.appliesTo {
        var i :| 0 <= i < |last.appliesTo| && last.appliesTo[i] == check;
        assert fulls[i] == full;
      }
    }
  }

  lemma {:induction false} MappedMembers(controls: seq<Control>, requirement: string, full: string)
    ensures full in Mapped(controls, requirement)
            <==> exists c, check :: c in controls && full == FullId(c.id, check) && Assigns(c, check, requirement)
  {
    hide MappedIn, FullId;
    if controls != [] {
      var init, last := controls[..|controls| - 1], controls[|controls| - 1];
      assert controls == init + [last];
      MappedMembers(init, requirement, full);
      MappedInMembers(last.id, last.mappings, requirement, full);
      forall check ensures Assigns(last, check, requirement)
                           <==> Assigns(Control(last.id, [], last.mappings), check, requirement)
      {
      }
    }
  }

  lemma {:induction false} CoverageMembers(controls: seq<Control>, version: string, ordered: seq<Entry>, r: CoverageRow)
    ensures r in CoverageRows(controls, version, ordered)
            <==> exists e :: e in ordered && InProfile(e) && r == CoverageOf(version, e, Mapped(controls, e.id))
  {
    hide Mapped, CoverageOf;
    if ordered != [] {
      var init, last := ordered[..|ordered| - 1], ordered[|ordered| - 1];
      assert ordered == init + [last];
      CoverageMembers(controls, version, init, r);
    }
  }

  // ---------------------------------------------------------------- agreement

  lemma AssignedIsValid(controls: seq<Control>, c: Control, check: string, requirement: string)
    requires ValidControls(controls) && c in controls && Assigns(c, check, requirement)
    ensures ControlIdFormat(c.id) && check in c.checks && CheckIdFormat(check)
  {
    var m :| m in c.mappings && m.framework == "slsa" && m.id == requirement && check in m.appliesTo;
    assert ValidControl(c);
    var i :| 0 <= i < |c.mappings| && c.mappings[i] == m;
    var k :| 0 <= k < |m.appliesTo| && c.mappings[i].appliesTo[k] == check;
  }

  /** The checks read back from a coverage row: those some control assigns to its requirement, sorted. */
  lemma CoverageReadsBack(controls: seq<Control>, version: string, e: Entry)
    requires ValidControls(controls)
    ensures var mapped := Mapped(controls, e.id);
            LoadedChecks(CoverageOf(version, e, mapped).mappedChecks) == SortedSet(mapped)
  {
    hide Mapped, ValidControls, LoadedChecks, ControlIdFormat, CheckIdFormat, Plain, FullId;
    var mapped := Mapped(controls, e.id);
    var ids := SortedSet(mapped);
    SortedSetSorts(mapped);
    forall i | 0 <= i < |ids| ensures Plain(ids[i]) {
      assert ids[i] in mapped;
      MappedMembers(controls, e.id, ids[i]);
      var c, check :| c in controls && ids[i] == FullId(c.id, check) && Assigns(c, check, e.id);
      AssignedIsValid(controls, c, check, e.id);
      FullIdPlain(c.id, check);
    }
    JoinedRoundTrip(ids);
  }

  /** A control assigns the check with this full identifier to a requirement of the profile. */
  ghost predicate Assigned(controls: seq<Control>, entries: seq<Entry>, full: string) {
    exists c, check, e :: c in controls && e in entries && InProfile(e) && full == FullId(c.id, check)
                          && Assigns(c, check, e.id)
  }

  lemma CoverageMentions(controls: seq<Control>, registry: Registry, full: string)
    requires ValidControls(controls)
    ensures (exists r :: r in Coverage(controls, registry) && full in LoadedChecks(r.mappedChecks))
            <==> Assigned(controls, registry.entries, full)
  {
    hide Mapped, ValidControls, CoverageOf, LoadedChecks, Sort, Assigns, FullId, SortedSet, CoverageRows, InProfile;
    var ordered, version := Sort(EntryKey, registry.entries), registry.mappingVersion;
    SameMembers(ordered, registry.entries);
    if r :| r in Coverage(controls, registry) && full in LoadedChecks(r.mappedChecks) {
      CoverageMembers(controls, version, ordered, r);
      var e :| e in ordered && InProfile(e) && r == CoverageOf(version, e, Mapped(controls, e.id));
      CoverageReadsBack(controls, version, e);
      SortedSetSorts(Mapped(controls, e.id));
      MappedMembers(controls, e.id, full);
    }
    if Assigned(controls, registry.entries, full) {
      var c, check, e :| c in controls && e in registry.entries && InProfile(e) && full == FullId(c.id, check)
                         && Assigns(c, check, e.id);
      MappedMembers(controls, e.id, full);
      CoverageReadsBack(controls, version, e);
      SortedSetSorts(Mapped(controls, e.id));
      var r := CoverageOf(version, e, Mapped(controls, e.id));
      CoverageMembers(controls, version, ordered, r);
      assert r in Coverage(controls, registry) && full in LoadedChecks(r.mappedChecks);
    }
  }

  lemma SameControl(controls: seq<Control>, c: Control, d: Control)
    requires ValidControls(controls) && c in controls && d in controls && c.id == d.id
    ensures c == d && ControlIdFormat(c.id)
  {
    DistinctCounts(ControlId, controls);
    assert ControlId(c) == ControlId(d);
    assert ValidControl(c);
  }

  lemma ControlFormat(controls: seq<Control>, c: Control)
    requires ValidControls(controls) && c in controls
    ensures ControlIdFormat(c.id)
  {
    assert ValidControl(c);
  }

  /** One row's scope, in terms of the whole catalogue. */
  lemma RowScope(controls: seq<Control>, entries: seq<Entry>, row: Row)
    requires ValidControls(controls) && ValidEntries(entries) && row in Rows(controls, entries)
    ensures row.scope.Included? <==> Assigned(controls, entries, row.checkId)
  {
    hide ValidControls, ValidEntries, Sort, ScopeOf, Assigns, RowsOfAll, ById, ControlIdFormat, InProfile;
    SameMembers(Sort(ControlId, controls), controls);
    RowsMembers(ById(entries), Sort(ControlId, controls), row);
    var c, check :| c in controls && IsRow(row, ById(entries), c, check);
    IncludedMeans(entries, c, check);
    ControlFormat(controls, c);
    if Assigned(controls, entries, row.checkId) {
      var d, other, e :| d in controls && e in entries && InProfile(e) && row.checkId == FullId(d.id, other)
                         && Assigns(d, other, e.id);
      ControlFormat(controls, d);
      FullIdInjective(c.id, check, d.id, other);
      SameControl(controls, c, d);
    }
  }

  /** Every assigned check has its row. */
  lemma AssignedHasRow(controls: seq<Control>, entries: seq<Entry>, full: string)
    requires ValidControls(controls) && Assigned(controls, entries, full)
    ensures exists row :: row in Rows(controls, entries) && row.checkId == full
  {
    hide ValidControls, Sort, ScopeOf, RowsOfAll, ById, ControlIdFormat, InProfile, Assigns;
    var c, check, e :| c in controls && e in entries && InProfile(e) && full == FullId(c.id, check)
                       && Assigns(c, check, e.id);
    AssignedIsValid(controls, c, check, e.id);
    SameMembers(Sort(ControlId, controls), controls);
    var row := RowOf(ById(entries), c, check);
    assert IsRow(row, ById(entries), c, check);
    RowsMembers(ById(entries), Sort(ControlId, controls), row);
  }

  /** The two views select the same checks. */
  lemma ViewsAgree(controls: seq<Control>, registry: Registry)
    requires ValidControls(controls) && ValidEntries(registry.entries)
    ensures forall row :: row in Rows(controls, registry.entries) ==>
              (row in Selected(Rows(controls, registry.entries))
               <==> exists r :: r in Coverage(controls, registry) && row.checkId in LoadedChecks(r.mappedChecks))
    ensures forall r, full :: r in Coverage(controls, registry) && full in LoadedChecks(r.mappedChecks) ==>
              exists row :: row in Selected(Rows(controls, registry.entries)) && row.checkId == full
  {
    hide ValidControls, ValidEntries, Rows, Coverage, LoadedChecks, Assigned, Selected;
    var rows := Rows(controls, registry.entries);
    SelectedMembers(rows);
    forall row | row in rows
      ensures row in Selected(rows)
              <==> exists r :: r in Coverage(controls, registry) && row.checkId in LoadedChecks(r.mappedChecks)
    {
      RowScope(controls, registry.entries, row);
      CoverageMentions(controls, registry, row.checkId);
    }
    forall r, full | r in Coverage(controls, registry) && full in LoadedChecks(r.mappedChecks)
      ensures exists row :: row in Selected(rows) && row.checkId == full
    {
      CoverageMentions(controls, registry, full);
      AssignedHasRow(controls, registry.entries, full);
      var row :| row in rows && row.checkId == full;
      RowScope(controls, registry.entries, row);
    }
  }
}
