// The SITF coverage profile and attack flows: validators that collect errors, and renderers that
// look the same identifiers up again.
module SitfCoverage {
  import opened Wrappers
  import opened Json
  import opened PyStrings
  import SlsaViews

  // ---------------------------------------------------------------- inputs

  datatype RegistryEntry = RegistryEntry(id: string, title: Json, component: Json, stage: Json, sourceUrl: Json)

  /** The pinned registry, indexed by technique identifier. */
  datatype Registry = Registry(mappingVersion: Json, entries: map<string, RegistryEntry>)

  datatype Boundary = NoBoundary | Boundary(owner: Json, limitation: Json)

  /** An absent list or remaining-work field holds its default. */
  datatype Technique =
    | NoTechnique
    | Technique(extra: bool, techniqueId: Json, disposition: Json, checkRefs: Json, planned: Json, remaining: Json,
                rationale: Json)

  datatype Coverage = Coverage(
    schema: Json, profileId: Json, registryName: Json, mappingVersion: Json, title: Json, claimBoundary: Json,
    boundaries: Option<map<string, Boundary>>, techniques: Option<seq<Technique>>)

  datatype Step = NoStep | Step(exact: bool, techniqueId: Json, objective: Json)

  datatype Flow = NoFlow | Flow(id: Json, title: Json, scenario: Json, steps: Option<seq<Step>>)

  datatype Flows = Flows(
    schema: Json, profileId: Json, sourceProfileId: Json, mappingVersion: Json, title: Json, claimBoundary: Json,
    flows: Option<seq<Flow>>)

  /** Case-insensitive searches for a disclaimer and for a compliance claim. */
  datatype World = World(disclaims: string -> bool, claims: string -> bool)

  const COMPONENTS := {"endpoint", "vcs", "cicd", "registry", "production"}
  const DISPOSITIONS := {"implemented", "planned", "gap", "out-of-scope"}
  const TECHNIQUE_COUNT := 81

  predicate TechniqueIdFormat(s: string) {
    |s| == 6 && s[..2] == "T-" && s[2] in "EVCRP" && Digits(s[3..])
  }

  predicate FlowIdFormat(s: string) {
    |s| == 13 && s[..10] == "SITF-FLOW-" && Digits(s[10..])
  }

  /** The stripped text of a field; empty when the field is not a non-blank string. */
  function Text(value: Json): string {
    if value.Str? then Strip(value.s) else ""
  }

  /** A list of strings. */
  function Texts(value: Json): Option<seq<string>> {
    if value.Arr? && forall i :: 0 <= i < |value.items| ==> value.items[i].Str?
    then Some(seq(|value.items|, i requires 0 <= i < |value.items| => value.items[i].s))
    else None
  }

  /** `{entry["id"]: entry ...}`. */
  ghost predicate Registered(entries: map<string, RegistryEntry>) {
    forall id :: id in entries ==> entries[id].id == id
  }

  // ---------------------------------------------------------------- a valid coverage profile

  predicate EntryOk(id: string, e: RegistryEntry) {
    && TechniqueIdFormat(id) && e.component.Str? && e.component.s in COMPONENTS && Text(e.stage) != ""
  }

  predicate BoundaryOk(b: Boundary) {
    b.Boundary? && Text(b.owner) != "" && Text(b.limitation) != ""
  }

  predicate BoundariesOk(boundaries: Option<map<string, Boundary>>) {
    && boundaries.Some? && boundaries.value.Keys == COMPONENTS
    && forall c :: c in boundaries.value ==> BoundaryOk(boundaries.value[c])
  }

  predicate DispositionRule(disposition: Json, refs: seq<string>, planned: seq<string>, work: string) {
    && disposition.Str? && disposition.s in DISPOSITIONS
    && (disposition.s == "implemented" ==> refs != [] && planned == [] && work == "")
    && (disposition.s == "planned" ==> planned != [] && work != "")
    && (disposition.s == "gap" ==> planned == [] && work != "")
    && (disposition.s == "out-of-scope" ==> refs == [] && planned == [] && work != "")
  }

  predicate TechniqueOk(w: World, entries: map<string, RegistryEntry>, known: set<string>, t: Technique) {
    && t.Technique? && !t.extra
    && Text(t.techniqueId) != "" && Text(t.techniqueId) in entries
    && Text(t.rationale) != "" && !w.claims(Text(t.rationale))
    && Texts(t.checkRefs).Some? && NoRepeats(Texts(t.checkRefs).value)
    && (forall i :: 0 <= i < |Texts(t.checkRefs).value| ==> Texts(t.checkRefs).value[i] in known)
    && Texts(t.planned).Some? && NoRepeats(Texts(t.planned).value)
    && (forall i :: 0 <= i < |Texts(t.planned).value| ==> SlsaViews.ControlIdFormat(Texts(t.planned).value[i]))
    && t.remaining.Str?
    && DispositionRule(t.disposition, Texts(t.checkRefs).value, Texts(t.planned).value, Strip(t.remaining.s))
  }

  function IdOf(t: Technique): string {
    if t.Technique? then Text(t.techniqueId) else ""
  }

  predicate DistinctIds(techniques: seq<Technique>) {
    forall i, j :: 0 <= i < j < |techniques| && techniques[i].Technique? && techniques[j].Technique? ==>
      IdOf(techniques[i]) != IdOf(techniques[j])
  }

  function Seen(techniques: seq<Technique>): set<string> {
    set i | 0 <= i < |techniques| && techniques[i].Technique? :: IdOf(techniques[i])
  }

  predicate CoverageHeader(w: World, data: Coverage, registry: Registry) {
    && data.schema == Str("psb-sitf-coverage/v1") && data.profileId == Str("sitf-technique-coverage")
    && data.registryName == Str("sitf") && Same(data.mappingVersion, registry.mappingVersion)
    && Text(data.title) != "" && Text(data.claimBoundary) != "" && w.disclaims(Text(data.claimBoundary))
  }

  /** The profiles that `validate_coverage` finds no error in. */
  predicate ValidCoverage(w: World, data: Coverage, registry: Registry, known: set<string>) {
    && CoverageHeader(w, data, registry)
    && |registry.entries| == TECHNIQUE_COUNT
    && (forall id :: id in registry.entries ==> EntryOk(id, registry.entries[id]))
    && BoundariesOk(data.boundaries)
    && data.techniques.Some? && data.techniques.value != []
    && (forall i :: 0 <= i < |data.techniques.value| ==>
          TechniqueOk(w, registry.entries, known, data.techniques.value[i]))
    && DistinctIds(data.techniques.value)
    && Seen(data.techniques.value) == registry.entries.Keys
    && |data.techniques.value| == |registry.entries|
  }

  // ---------------------------------------------------------------- valid attack flows

  /** Technique identifiers as the coverage profile spells them, with their dispositions. */
  function Dispositions(techniques: seq<Technique>): map<string, Json> {
    if techniques == [] then map[]
    else
      var last := techniques[|techniques| - 1];
      var before := Dispositions(techniques[..|techniques| - 1]);
      if last.Technique? && last.techniqueId.Str? then before[last.techniqueId.s := last.disposition] else before
  }

  predicate StepOk(entries: map<string, RegistryEntry>, dispositions: map<string, Json>, s: Step) {
    && s.Step? && s.exact
    && Text(s.techniqueId) != "" && Text(s.objective) != ""
    && Text(s.techniqueId) in entries && Text(s.techniqueId) in dispositions
  }

  /** The components that the known steps cross. */
  function Crossed(entries: map<string, RegistryEntry>, steps: seq<Step>): set<Json> {
    set i | 0 <= i < |steps| && steps[i].Step? && Text(steps[i].techniqueId) in entries
      :: entries[Text(steps[i].techniqueId)].component
  }

  predicate FlowOk(entries: map<string, RegistryEntry>, dispositions: map<string, Json>, f: Flow) {
    && f.Flow?
    && FlowIdFormat(Text(f.id)) && Text(f.title) != "" && Text(f.scenario) != ""
    && f.steps.Some? && |f.steps.value| >= 3
    && (forall i :: 0 <= i < |f.steps.value| ==> StepOk(entries, dispositions, f.steps.value[i]))
    && |Crossed(entries, f.steps.value)| >= 3
  }

  predicate DistinctFlows(flows: seq<Flow>) {
    forall i, j :: 0 <= i < j < |flows| && flows[i].Flow? && flows[j].Flow? ==> Text(flows[i].id) != Text(flows[j].id)
  }

  predicate FlowsHeader(data: Flows, registry: Registry, coverage: Coverage) {
    && data.schema == Str("psb-sitf-attack-flows/v1") && data.profileId == Str("sitf-attack-flows")
    && Same(data.sourceProfileId, coverage.profileId) && Same(data.mappingVersion, registry.mappingVersion)
    && Text(data.title) != "" && Text(data.claimBoundary) != ""
  }

  /** The flows that `validate_attack_flows` finds no error in. */
  predicate ValidFlows(data: Flows, registry: Registry, coverage: Coverage) {
    && FlowsHeader(data, registry, coverage)
    && data.flows.Some? && data.flows.value != []
    && coverage.techniques.Some?
    && (forall i :: 0 <= i < |data.flows.value| ==>
          FlowOk(registry.entries, Dispositions(coverage.techniques.value), data.flows.value[i]))
    && DistinctFlows(data.flows.value)
  }

  // ---------------------------------------------------------------- the validators as written

  lemma SeenSnoc(techniques: seq<Technique>, last: Technique)
    ensures Seen(techniques + [last]) == Seen(techniques) + if last.Technique? then {IdOf(last)} else {}
    ensures DistinctIds(techniques + [last])
            <==> DistinctIds(techniques) && (last.Technique? ==> IdOf(last) !in Seen(techniques))
  {
    hide IdOf;
    var all := techniques + [last];
    assert forall i :: 0 <= i < |techniques| ==> all[i] == techniques[i];
    assert all[|techniques|] == last;
    forall id | id in Seen(techniques) ensures id in Seen(all) {
      var i :| 0 <= i < |techniques| && techniques[i].Technique? && IdOf(techniques[i]) == id;
      assert IdOf(all[i]) == id;
    }
    if last.Technique? {
      assert IdOf(all[|techniques|]) in Seen(all);
    }
    if DistinctIds(all) && last.Technique? {
      forall i | 0 <= i < |techniques| && techniques[i].Technique? ensures IdOf(techniques[i]) != IdOf(last) {
        assert IdOf(all[i]) != IdOf(all[|techniques|]);
      }
    }
  }

  lemma NothingSeen()
    ensures Seen([]) == {} && DistinctIds([])
  {
  }

  /** The technique loop: how many problems, and which identifiers were seen. */
  method CheckTechniques(w: World, entries: map<string, RegistryEntry>, known: set<string>, techniques: seq<Technique>)
    returns (errors: nat, seen: set<string>)
    ensures errors == 0 <==> (forall i :: 0 <= i < |techniques| ==> TechniqueOk(w, entries, known, techniques[i]))
                             && DistinctIds(techniques)
    ensures seen == Seen(techniques)
  {
    hide TechniqueOk, Seen, DistinctIds, IdOf;
    errors, seen := 0, {};
    NothingSeen();
    assert techniques[..0] == [];
    for i := 0 to |techniques|
      invariant errors == 0 <==> (forall k :: 0 <= k < i ==> TechniqueOk(w, entries, known, techniques[k]))
                                 && DistinctIds(techniques[..i])
      invariant seen == Seen(techniques[..i])
    {
      var t := techniques[i];
      assert techniques[..i + 1] == techniques[..i] + [t];
      SeenSnoc(techniques[..i], t);
      if !TechniqueOk(w, entries, known, t) {
        errors := errors + 1;
      }
      if t.Technique? {
        if IdOf(t) in seen {
          errors := errors + 1;
        }
        seen := seen + {IdOf(t)};
      }
    }
    assert techniques[..|techniques|] == techniques;
  }

  method ValidateCoverage(w: World, data: Coverage, registry: Registry, known: set<string>) returns (errors: nat)
    ensures errors == 0 <==> ValidCoverage(w, data, registry, known)
  {
    hide CoverageHeader, EntryOk, BoundariesOk, TechniqueOk, DistinctIds, Seen;
    errors := if CoverageHeader(w, data, registry) then 0 else 1;
    if |registry.entries| != TECHNIQUE_COUNT {
      errors := errors + 1;
    }
    if exists id :: id in registry.entries && !EntryOk(id, registry.entries[id]) {
      errors := errors + 1;
    }
    if !BoundariesOk(data.boundaries) {
      errors := errors + 1;
    }
    if data.techniques.None? || data.techniques.value == [] {
      return errors + 1;
    }
    var rows := data.techniques.value;
    var problems, seen := CheckTechniques(w, registry.entries, known, rows);
    errors := errors + problems;
    if registry.entries.Keys - seen != {} {
      errors := errors + 1;
    }
    if seen - registry.entries.Keys != {} {
      errors := errors + 1;
    }
    SameSets(seen, registry.entries.Keys);
    if |rows| != |registry.entries| {
      errors := errors + 1;
    }
  }

  lemma SameSets(a: set<string>, b: set<string>)
    ensures a == b <==> a - b == {} && b - a == {}
  {
    if a - b == {} && b - a == {} {
      forall x ensures x in a <==> x in b {
        assert x !in a - b && x !in b - a;
      }
    }
  }

  lemma CrossedSnoc(entries: map<string, RegistryEntry>, steps: seq<Step>, n: nat)
    requires n < |steps|
    ensures Crossed(entries, steps[..n + 1])
         == Crossed(entries, steps[..n])
            + if steps[n].Step? && Text(steps[n].techniqueId) in entries
              then {entries[Text(steps[n].techniqueId)].component} else {}
  {
    hide Text;
    var before, now := steps[..n], steps[..n + 1];
    assert forall i :: 0 <= i < n ==> before[i] == now[i];
    assert now[n] == steps[n];
    forall c | c in Crossed(entries, before) ensures c in Crossed(entries, now) {
      var i :| 0 <= i < n && before[i].Step? && Text(before[i].techniqueId) in entries
               && entries[Text(before[i].techniqueId)].component == c;
      assert entries[Text(now[i].techniqueId)].component == c;
    }
    assert now[n].Step? && Text(now[n].techniqueId) in entries ==>
        entries[Text(now[n].techniqueId)].component in Crossed(entries, now);
  }

  /** The loop over the steps of one flow. */
  method CheckSteps(entries: map<string, RegistryEntry>, dispositions: map<string, Json>, steps: seq<Step>)
    returns (errors: nat, components: set<Json>)
    ensures errors == 0 <==> forall i :: 0 <= i < |steps| ==> StepOk(entries, dispositions, steps[i])
    ensures components == Crossed(entries, steps)
  {
    hide Text, Crossed;
    errors, components := 0, {};
    assert Crossed(entries, steps[..0]) == {} by { NothingCrossed(entries); assert steps[..0] == []; }
    for i := 0 to |steps|
      invariant errors == 0 <==> forall k :: 0 <= k < i ==> StepOk(entries, dispositions, steps[k])
      invariant components == Crossed(entries, steps[..i])
    {
      CrossedSnoc(entries, steps, i);
      var step := steps[i];
      if !StepOk(entries, dispositions, step) {
        errors := errors + 1;
      }
      if step.Step? && Text(step.techniqueId) in entries {
        components := components + {entries[Text(step.techniqueId)].component};
      }
    }
    assert steps[..|steps|] == steps;
  }

  lemma NothingCrossed(entries: map<string, RegistryEntry>)
    ensures Crossed(entries, []) == {}
  {
  }

  method CheckFlow(entries: map<string, RegistryEntry>, dispositions: map<string, Json>, f: Flow) returns (errors: nat)
    ensures errors == 0 <==> FlowOk(entries, dispositions, f)
  {
    hide StepOk, Crossed, Text, FlowIdFormat;
    if f.NoFlow? {
      return 1;
    }
    errors := 0;
    if !FlowIdFormat(Text(f.id)) {
      errors := errors + 1;
    }
    if Text(f.title) == "" || Text(f.scenario) == "" {
      errors := errors + 1;
    }
    if f.steps.None? || |f.steps.value| < 3 {
      return errors + 1;
    }
    var problems, components := CheckSteps(entries, dispositions, f.steps.value);
    errors := errors + problems;
    if |components| < 3 {
      errors := errors + 1;
    }
  }

  function FlowIds(flows: seq<Flow>): set<string> {
    set i | 0 <= i < |flows| && flows[i].Flow? :: Text(flows[i].id)
  }

  lemma FlowSnoc(flows: seq<Flow>, last: Flow)
    ensures FlowIds(flows + [last]) == FlowIds(flows) + if last.Flow? then {Text(last.id)} else {}
    ensures DistinctFlows(flows + [last])
            <==> DistinctFlows(flows) && (last.Flow? ==> Text(last.id) !in FlowIds(flows))
  {
    hide Text;
    var all := flows + [last];
    assert forall i :: 0 <= i < |flows| ==> all[i] == flows[i];
    assert all[|flows|] == last;
    forall id | id in FlowIds(flows) ensures id in FlowIds(all) {
      var i :| 0 <= i < |flows| && flows[i].Flow? && Text(flows[i].id) == id;
      assert Text(all[i].id) == id;
    }
    if last.Flow? {
      assert Text(all[|flows|].id) in FlowIds(all);
    }
    if DistinctFlows(all) && last.Flow? {
      forall i | 0 <= i < |flows| && flows[i].Flow? ensures Text(flows[i].id) != Text(last.id) {
        assert Text(all[i].id) != Text(all[|flows|].id);
      }
    }
  }

  lemma NoFlows()
    ensures FlowIds([]) == {} && DistinctFlows([])
  {
  }

  /** `load_profiles` calls this only with a coverage profile that has passed. */
  method ValidateAttackFlows(data: Flows, registry: Registry, coverage: Coverage) returns (errors: nat)
    requires coverage.techniques.Some?
    ensures errors == 0 <==> ValidFlows(data, registry, coverage)
  {
    hide FlowOk, FlowsHeader, Dispositions, FlowIds, DistinctFlows, Text;
    errors := if FlowsHeader(data, registry, coverage) then 0 else 1;
    var dispositions := Dispositions(coverage.techniques.value);
    if data.flows.None? || data.flows.value == [] {
      return errors + 1;
    }
    var flows, seen, problems := data.flows.value, {}, 0;
    NoFlows();
    assert flows[..0] == [];
    for i := 0 to |flows|
      invariant problems == 0 <==> (forall k :: 0 <= k < i ==> FlowOk(registry.entries, dispositions, flows[k]))
                                   && DistinctFlows(flows[..i])
      invariant seen == FlowIds(flows[..i])
    {
      var f := flows[i];
      assert flows[..i + 1] == flows[..i] + [f];
      FlowSnoc(flows[..i], f);
      if f.Flow? && Text(f.id) in seen {
        problems := problems + 1;
      }
      if f.Flow? {
        seen := seen + {Text(f.id)};
      }
      var more := CheckFlow(registry.entries, dispositions, f);
      problems := problems + more;
    }
    assert flows[..|flows|] == flows;
    errors := errors + problems;
  }

  // ---------------------------------------------------------------- the renderers

  datatype CoverageRow = CoverageRow(
    techniqueId: string, technique: Json, component: Json, stage: Json, disposition: Json, checks: string,
    planned: string, owner: Json, remaining: Json, rationale: Json, limitation: Json, version: Json, source: Json,
    claimBoundary: Json)

  datatype FlowRow = FlowRow(
    flowId: Json, flow: Json, scenario: Json, sequence: nat, techniqueId: string, technique: Json, component: Json,
    objective: Json, disposition: Json, claimBoundary: Json)

  /** A lookup that raises. */
  datatype KeyError = KeyError

  function RenderTechnique(coverage: Coverage, registry: Registry, item: Technique): Result<CoverageRow, KeyError> {
    if || item.NoTechnique? || !item.techniqueId.Str? || item.techniqueId.s !in registry.entries
       || coverage.boundaries.None? || Texts(item.checkRefs).None? || Texts(item.planned).None?
    then Err(KeyError)
    else
      var entry, boundaries := registry.entries[item.techniqueId.s], coverage.boundaries.value;
      if !entry.component.Str? || entry.component.s !in boundaries || boundaries[entry.component.s].NoBoundary?
      then Err(KeyError)
      else
        var boundary := boundaries[entry.component.s];
        Ok(CoverageRow(entry.id, entry.title, entry.component, entry.stage, item.disposition,
                       Join("; ", Texts(item.checkRefs).value), Join("; ", Texts(item.planned).value), boundary.owner,
                       item.remaining, item.rationale, boundary.limitation, registry.mappingVersion, entry.sourceUrl,
                       coverage.claimBoundary))
  }

  /** `build_coverage_rows`. */
  method BuildCoverageRows(coverage: Coverage, registry: Registry) returns (r: Result<seq<CoverageRow>, KeyError>)
    requires coverage.techniques.Some?
    ensures r.Ok? <==> forall i :: 0 <= i < |coverage.techniques.value| ==>
              RenderTechnique(coverage, registry, coverage.techniques.value[i]).Ok?
    ensures r.Ok? ==>
              |r.value| == |coverage.techniques.value|
              && forall i :: 0 <= i < |r.value| ==>
                  RenderTechnique(coverage, registry, coverage.techniques.value[i]) == Ok(r.value[i])
  {
    hide RenderTechnique;
    var items, rows := coverage.techniques.value, [];
    for i := 0 to |items|
      invariant |rows| == i
      invariant forall k :: 0 <= k < i ==> RenderTechnique(coverage, registry, items[k]) == Ok(rows[k])
    {
      var row := RenderTechnique(coverage, registry, items[i]);
      if row.Err? {
        return Err(KeyError);
      }
      rows := rows + [row.value];
    }
    return Ok(rows);
  }

  function RenderStep(data: Flows, f: Flow, k: nat, entries: map<string, RegistryEntry>, dispositions: map<string, Json>)
    : Result<FlowRow, KeyError>
    requires f.Flow? && f.steps.Some? && k < |f.steps.value|
  {
    var step := f.steps.value[k];
    if step.NoStep? || !step.techniqueId.Str? || step.techniqueId.s !in entries then Err(KeyError)
    else
      var entry := entries[step.techniqueId.s];
      if entry.id !in dispositions then Err(KeyError)
      else Ok(FlowRow(f.id, f.title, f.scenario, k + 1, entry.id, entry.title, entry.component, step.objective,
                      dispositions[entry.id], data.claimBoundary))
  }

  /** The rows of the first `n` steps of a flow. */
  function StepRows(data: Flows, f: Flow, n: nat, entries: map<string, RegistryEntry>, dispositions: map<string, Json>)
    : Result<seq<FlowRow>, KeyError>
    requires f.Flow? && f.steps.Some? && n <= |f.steps.value|
  {
    if n == 0 then Ok([])
    else match StepRows(data, f, n - 1, entries, dispositions)
      case Err(e) => Err(e)
      case Ok(rows) =>
        match RenderStep(data, f, n - 1, entries, dispositions)
        case Err(e) => Err(e)
        case Ok(row) => Ok(rows + [row])
  }

  /** The rows of the first `n` flows. */
  function FlowRows(data: Flows, n: nat, entries: map<string, RegistryEntry>, dispositions: map<string, Json>)
    : Result<seq<FlowRow>, KeyError>
    requires data.flows.Some? && n <= |data.flows.value|
  {
    if n == 0 then Ok([])
    else match FlowRows(data, n - 1, entries, dispositions)
      case Err(e) => Err(e)
      case Ok(rows) =>
        var f := data.flows.value[n - 1];
        if f.NoFlow? || f.steps.None? then Err(KeyError)
        else match StepRows(data, f, |f.steps.value|, entries, dispositions)
          case Err(e) => Err(e)
          case Ok(more) => Ok(rows + more)
  }

  /** `build_attack_flow_rows`; every technique of the coverage profile must be an object with a text identifier. */
  method BuildAttackFlowRows(data: Flows, coverage: Coverage, registry: Registry)
    returns (r: Result<seq<FlowRow>, KeyError>)
    requires data.flows.Some? && coverage.techniques.Some?
    ensures r == FlowRows(data, |data.flows.value|, registry.entries, Dispositions(coverage.techniques.value))
  {
    hide RenderStep, Dispositions;
    var dispositions, flows := Dispositions(coverage.techniques.value), data.flows.value;
    var rows := [];
    for n := 0 to |flows|
      invariant FlowRows(data, n, registry.entries, dispositions) == Ok(rows)
    {
      var f := flows[n];
      if f.NoFlow? || f.steps.None? {
        FirstFailure(data, n + 1, registry.entries, dispositions);
        return Err(KeyError);
      }
      var block := RenderFlow(data, f, registry.entries, dispositions);
      if block.Err? {
        FirstFailure(data, n + 1, registry.entries, dispositions);
        return Err(KeyError);
      }
      rows := rows + block.value;
    }
    return Ok(rows);
  }

  method RenderFlow(data: Flows, f: Flow, entries: map<string, RegistryEntry>, dispositions: map<string, Json>)
    returns (r: Result<seq<FlowRow>, KeyError>)
    requires f.Flow? && f.steps.Some?
    ensures r == StepRows(data, f, |f.steps.value|, entries, dispositions)
  {
    hide RenderStep;
    var rows := [];
    for k := 0 to |f.steps.value|
      invariant StepRows(data, f, k, entries, dispositions) == Ok(rows)
    {
      var row := RenderStep(data, f, k, entries, dispositions);
      if row.Err? {
        FirstStepFailure(data, f, k + 1, entries, dispositions);
        return Err(KeyError);
      }
      rows := rows + [row.value];
    }
    return Ok(rows);
  }

  lemma {:induction false} FirstStepFailure(data: Flows, f: Flow, n: nat, entries: map<string, RegistryEntry>,
                                            dispositions: map<string, Json>)
    requires f.Flow? && f.steps.Some? && n <= |f.steps.value|
    requires StepRows(data, f, n, entries, dispositions).Err?
    ensures StepRows(data, f, |f.steps.value|, entries, dispositions) == Err(KeyError)
    decreases |f.steps.value| - n
  {
    hide RenderStep;
    assert StepRows(data, f, n, entries, dispositions).error.KeyError?;
    if n < |f.steps.value| {
      FirstStepFailure(data, f, n + 1, entries, dispositions);
    }
  }

  lemma {:induction false} FirstFailure(data: Flows, n: nat, entries: map<string, RegistryEntry>,
                                        dispositions: map<string, Json>)
    requires data.flows.Some? && n <= |data.flows.value|
    requires FlowRows(data, n, entries, dispositions).Err?
    ensures FlowRows(data, |data.flows.value|, entries, dispositions) == Err(KeyError)
    decreases |data.flows.value| - n
  {
    hide StepRows;
    assert FlowRows(data, n, entries, dispositions).error.KeyError?;
    if n < |data.flows.value| {
      FirstFailure(data, n + 1, entries, dispositions);
    }
  }
}

// Validators against renderers.
module SitfAgreement {
  import opened Wrappers
  import opened Json
  import opened PyStrings
  import opened SitfCoverage

  /** Technique identifiers as written, before any stripping. */
  predicate RawTrimmed(id: Json) { id.Str? && Trimmed(id.s) }

  lemma FormatTrimmed(s: string)
    requires TechniqueIdFormat(s)
    ensures Trimmed(s)
  {
    assert s[0] == s[..2][0] == 'T';
    assert s[5] == s[3..][2];
  }

  /** A text that strips to a technique identifier is one of the registry's keys exactly when it has no padding. */
  lemma KeyMeansTrimmed(entries: map<string, RegistryEntry>, raw: string)
    requires forall id :: id in entries ==> TechniqueIdFormat(id)
    requires Strip(raw) in entries
    ensures raw in entries <==> Trimmed(raw)
  {
    StripFixes(raw);
    if raw in entries {
      FormatTrimmed(raw);
    }
  }

  lemma EntryFormats(entries: map<string, RegistryEntry>)
    requires forall id :: id in entries ==> EntryOk(id, entries[id])
    ensures forall id :: id in entries ==> TechniqueIdFormat(id) && entries[id].component.Str?
                                           && entries[id].component.s in COMPONENTS
  {
  }

  lemma TechniqueRenders(w: World, coverage: Coverage, registry: Registry, known: set<string>, i: nat)
    requires ValidCoverage(w, coverage, registry, known) && i < |coverage.techniques.value|
    ensures RenderTechnique(coverage, registry, coverage.techniques.value[i]).Ok?
            <==> RawTrimmed(coverage.techniques.value[i].techniqueId)
  {
    hide EntryOk, TechniqueIdFormat, Texts, Trimmed, Strip, DistinctIds, Seen, CoverageHeader;
    var item := coverage.techniques.value[i];
    EntryFormats(registry.entries);
    assert TechniqueOk(w, registry.entries, known, item);
    KeyMeansTrimmed(registry.entries, item.techniqueId.s);
  }

  predicate AllRender(coverage: Coverage, registry: Registry, items: seq<Technique>) {
    forall i :: 0 <= i < |items| ==> RenderTechnique(coverage, registry, items[i]).Ok?
  }

  predicate AllTrimmed(items: seq<Technique>) {
    forall i :: 0 <= i < |items| ==> items[i].Technique? && RawTrimmed(items[i].techniqueId)
  }

  /** A valid profile renders completely exactly when no technique identifier is padded with whitespace. */
  lemma CoverageRenders(w: World, coverage: Coverage, registry: Registry, known: set<string>)
    requires ValidCoverage(w, coverage, registry, known)
    ensures AllRender(coverage, registry, coverage.techniques.value) <==> AllTrimmed(coverage.techniques.value)
  {
    hide ValidCoverage, RenderTechnique, RawTrimmed;
    AreTechniques(w, coverage, registry, known);
    forall i | 0 <= i < |coverage.techniques.value|
      ensures RenderTechnique(coverage, registry, coverage.techniques.value[i]).Ok?
              <==> RawTrimmed(coverage.techniques.value[i].techniqueId)
    {
      TechniqueRenders(w, coverage, registry, known, i);
    }
  }

  lemma AreTechniques(w: World, coverage: Coverage, registry: Registry, known: set<string>)
    requires ValidCoverage(w, coverage, registry, known)
    ensures coverage.techniques.Some?
    ensures forall i :: 0 <= i < |coverage.techniques.value| ==> coverage.techniques.value[i].Technique?
  {
    hide Texts, Text, EntryOk, DistinctIds, Seen, CoverageHeader;
    forall i | 0 <= i < |coverage.techniques.value| ensures coverage.techniques.value[i].Technique? {
      assert TechniqueOk(w, registry.entries, known, coverage.techniques.value[i]);
    }
  }

  lemma RenderedId(coverage: Coverage, registry: Registry, item: Technique)
    requires Registered(registry.entries) && RenderTechnique(coverage, registry, item).Ok?
    requires RawTrimmed(item.techniqueId)
    ensures RenderTechnique(coverage, registry, item).value.techniqueId == IdOf(item)
  {
    StripFixes(item.techniqueId.s);
  }

  /** The `i`-th rendered row stands for the `i`-th technique. */
  ghost predicate Stands(items: seq<Technique>, rows: seq<CoverageRow>) {
    && |rows| == |items|
    && forall i :: 0 <= i < |rows| ==> items[i].Technique? && rows[i].techniqueId == IdOf(items[i])
  }

  lemma RowsStand(w: World, coverage: Coverage, registry: Registry, known: set<string>, rows: seq<CoverageRow>)
    requires ValidCoverage(w, coverage, registry, known) && Registered(registry.entries)
    requires |rows| == |coverage.techniques.value|
    requires forall i :: 0 <= i < |rows| ==>
               RenderTechnique(coverage, registry, coverage.techniques.value[i]) == Ok(rows[i])
    ensures coverage.techniques.Some? && Stands(coverage.techniques.value, rows)
  {
    hide RenderTechnique, ValidCoverage, IdOf, RawTrimmed, Registered;
    AreTechniques(w, coverage, registry, known);
    var items := coverage.techniques.value;
    forall i | 0 <= i < |rows| ensures items[i].Technique? && rows[i].techniqueId == IdOf(items[i]) {
      assert RenderTechnique(coverage, registry, items[i]) == Ok(rows[i]);
      TechniqueRenders(w, coverage, registry, known, i);
      RenderedId(coverage, registry, items[i]);
    }
  }

  lemma StandingIds(items: seq<Technique>, rows: seq<CoverageRow>)
    requires Stands(items, rows) && DistinctIds(items)
    ensures forall i, j :: 0 <= i < j < |rows| ==> rows[i].techniqueId != rows[j].techniqueId
    ensures forall id :: id in Seen(items) <==> exists i :: 0 <= i < |rows| && rows[i].techniqueId == id
  {
    hide IdOf;
    forall id | id in Seen(items) ensures exists i :: 0 <= i < |rows| && rows[i].techniqueId == id {
      var i :| 0 <= i < |items| && items[i].Technique? && IdOf(items[i]) == id;
      assert rows[i].techniqueId == id;
    }
  }

  /** The rendered rows are in bijection with the registry: one row per technique and no other. */
  lemma OneRowPerTechnique(w: World, coverage: Coverage, registry: Registry, known: set<string>, rows: seq<CoverageRow>)
    requires ValidCoverage(w, coverage, registry, known) && Registered(registry.entries)
    requires |rows| == |coverage.techniques.value|
    requires forall i :: 0 <= i < |rows| ==>
               RenderTechnique(coverage, registry, coverage.techniques.value[i]) == Ok(rows[i])
    ensures |rows| == TECHNIQUE_COUNT
    ensures forall i, j :: 0 <= i < j < |rows| ==> rows[i].techniqueId != rows[j].techniqueId
    ensures forall id :: id in registry.entries <==> exists i :: 0 <= i < |rows| && rows[i].techniqueId == id
  {
    hide RenderTechnique, TechniqueOk, EntryOk, CoverageHeader, Stands, Seen, DistinctIds, Registered, BoundariesOk;
    RowsStand(w, coverage, registry, known, rows);
    StandingIds(coverage.techniques.value, rows);
    assert forall id :: id in registry.entries <==> id in Seen(coverage.techniques.value);
  }

  // ---------------------------------------------------------------- flows

  lemma StepRenders(data: Flows, f: Flow, k: nat, entries: map<string, RegistryEntry>, dispositions: map<string, Json>)
    requires FlowOk(entries, dispositions, f) && k < |f.steps.value|
    requires Registered(entries) && forall id :: id in entries ==> TechniqueIdFormat(id)
    ensures RenderStep(data, f, k, entries, dispositions).Ok? <==> RawTrimmed(f.steps.value[k].techniqueId)
  {
    hide TechniqueIdFormat, FlowIdFormat, Trimmed, Strip, Crossed;
    var step := f.steps.value[k];
    assert StepOk(entries, dispositions, step);
    KeyMeansTrimmed(entries, step.techniqueId.s);
    StripFixes(step.techniqueId.s);
  }

  lemma {:induction false} StepRowsRender(data: Flows, f: Flow, n: nat, entries: map<string, RegistryEntry>,
                                          dispositions: map<string, Json>)
    requires FlowOk(entries, dispositions, f) && n <= |f.steps.value|
    requires Registered(entries) && forall id :: id in entries ==> TechniqueIdFormat(id)
    ensures StepRows(data, f, n, entries, dispositions).Ok?
            <==> forall k :: 0 <= k < n ==> f.steps.value[k].Step? && RawTrimmed(f.steps.value[k].techniqueId)
    ensures StepRows(data, f, n, entries, dispositions).Ok? ==>
              |StepRows(data, f, n, entries, dispositions).value| == n
  {
    hide TechniqueIdFormat, RawTrimmed, RenderStep, Crossed, FlowIdFormat, Text;
    if n > 0 {
      StepRowsRender(data, f, n - 1, entries, dispositions);
      assert StepOk(entries, dispositions, f.steps.value[n - 1]);
      StepRenders(data, f, n - 1, entries, dispositions);
    }
  }

  function StepCount(flows: seq<Flow>, n: nat): nat
    requires n <= |flows|
  {
    if n == 0 then 0
    else StepCount(flows, n - 1)
         + if flows[n - 1].Flow? && flows[n - 1].steps.Some? then |flows[n - 1].steps.value| else 0
  }

  predicate StepsTrimmed(f: Flow) {
    && f.Flow? && f.steps.Some?
    && forall k :: 0 <= k < |f.steps.value| ==> f.steps.value[k].Step? && RawTrimmed(f.steps.value[k].techniqueId)
  }

  lemma {:induction false} FlowRowsRender(data: Flows, n: nat, entries: map<string, RegistryEntry>,
                                          dispositions: map<string, Json>)
    requires data.flows.Some? && n <= |data.flows.value|
    requires forall i :: 0 <= i < n ==> FlowOk(entries, dispositions, data.flows.value[i])
    requires Registered(entries) && forall id :: id in entries ==> TechniqueIdFormat(id)
    ensures FlowRows(data, n, entries, dispositions).Ok?
            <==> forall i :: 0 <= i < n ==> StepsTrimmed(data.flows.value[i])
    ensures FlowRows(data, n, entries, dispositions).Ok? ==>
              |FlowRows(data, n, entries, dispositions).value| == StepCount(data.flows.value, n)
  {
    hide TechniqueIdFormat, FlowOk, StepRows, RawTrimmed, Registered;
    if n > 0 {
      var f := data.flows.value[n - 1];
      FlowRowsRender(data, n - 1, entries, dispositions);
      assert f.Flow? && f.steps.Some? by { FlowHasSteps(entries, dispositions, f); }
      StepRowsRender(data, f, |f.steps.value|, entries, dispositions);
    }
  }

  lemma FlowHasSteps(entries: map<string, RegistryEntry>, dispositions: map<string, Json>, f: Flow)
    requires FlowOk(entries, dispositions, f)
    ensures f.Flow? && f.steps.Some?
  {
  }

  /** Valid flows render completely, one row per step, exactly when no step pads its technique identifier. */
  lemma FlowsRender(w: World, data: Flows, coverage: Coverage, registry: Registry, known: set<string>)
    requires ValidCoverage(w, coverage, registry, known) && ValidFlows(data, registry, coverage)
    requires Registered(registry.entries)
    ensures var rows := FlowRows(data, |data.flows.value|, registry.entries, Dispositions(coverage.techniques.value));
            && (rows.Ok? <==> forall i :: 0 <= i < |data.flows.value| ==> StepsTrimmed(data.flows.value[i]))
            && (rows.Ok? ==> |rows.value| == StepCount(data.flows.value, |data.flows.value|))
  {
    hide FlowOk, FlowRows, EntryOk, TechniqueOk, TechniqueIdFormat, Dispositions, DistinctFlows, StepsTrimmed,
         FlowsHeader, Registered;
    EntryFormats(registry.entries);
    FlowRowsRender(data, |data.flows.value|, registry.entries, Dispositions(coverage.techniques.value));
  }

  // ---------------------------------------------------------------- the two renderings agree

  lemma {:induction false} DispositionsFind(techniques: seq<Technique>, i: nat)
    requires i < |techniques| && DistinctIds(techniques) && AllTrimmed(techniques)
    ensures techniques[i].Technique? && techniques[i].techniqueId.Str?
    ensures techniques[i].techniqueId.s in Dispositions(techniques)
    ensures Dispositions(techniques)[techniques[i].techniqueId.s] == techniques[i].disposition
    decreases |techniques|
  {
    hide IdOf, Trimmed;
    var n := |techniques| - 1;
    assert RawTrimmed(techniques[i].techniqueId) && RawTrimmed(techniques[n].techniqueId);
    if i < n {
      assert forall k :: 0 <= k < n ==> techniques[..n][k] == techniques[k];
      DispositionsFind(techniques[..n], i);
      assert IdOf(techniques[i]) != IdOf(techniques[n]);
      TrimmedId(techniques[i]);
      TrimmedId(techniques[n]);
    }
  }

  lemma TrimmedId(t: Technique)
    requires t.Technique? && RawTrimmed(t.techniqueId)
    ensures IdOf(t) == t.techniqueId.s
  {
    StripFixes(t.techniqueId.s);
  }

  /** A rendered step shows its technique exactly as the coverage table does: name, component and disposition. */
  lemma StepAgreesWithCoverage(w: World, data: Flows, f: Flow, k: nat, coverage: Coverage, registry: Registry,
                               known: set<string>, rows: seq<CoverageRow>) returns (i: nat)
    requires ValidCoverage(w, coverage, registry, known) && Registered(registry.entries)
    requires |rows| == |coverage.techniques.value|
    requires forall j :: 0 <= j < |rows| ==>
               RenderTechnique(coverage, registry, coverage.techniques.value[j]) == Ok(rows[j])
    requires f.Flow? && f.steps.Some? && k < |f.steps.value|
    requires RenderStep(data, f, k, registry.entries, Dispositions(coverage.techniques.value)).Ok?
    ensures i < |rows|
    ensures var step := RenderStep(data, f, k, registry.entries, Dispositions(coverage.techniques.value)).value;
            && rows[i].techniqueId == step.techniqueId && rows[i].technique == step.technique
            && rows[i].component == step.component && rows[i].disposition == step.disposition
            && step.sequence == k + 1
  {
    hide ValidCoverage, DistinctIds, Seen, RawTrimmed, Dispositions;
    AreTechniques(w, coverage, registry, known);
    var items, row := coverage.techniques.value, f.steps.value[k].techniqueId.s;
    OneRowPerTechnique(w, coverage, registry, known, rows);
    assert row in registry.entries;
    i :| 0 <= i < |rows| && rows[i].techniqueId == row;
    forall j | 0 <= j < |items| ensures RawTrimmed(items[j].techniqueId) {
      assert RenderTechnique(coverage, registry, items[j]) == Ok(rows[j]);
      TechniqueRenders(w, coverage, registry, known, j);
    }
    assert DistinctIds(items) by { IdsAreDistinct(w, coverage, registry, known); }
    DispositionsFind(items, i);
    assert RenderTechnique(coverage, registry, items[i]) == Ok(rows[i]);
  }

  lemma IdsAreDistinct(w: World, coverage: Coverage, registry: Registry, known: set<string>)
    requires ValidCoverage(w, coverage, registry, known)
    ensures coverage.techniques.Some? && DistinctIds(coverage.techniques.value)
  {
    hide TechniqueOk, EntryOk, DistinctIds, Seen;
  }

  // ---------------------------------------------------------------- padding slips through validation

  function Padded(t: Technique): Technique
    requires t.Technique? && t.techniqueId.Str?
  {
    t.(techniqueId := Str(" " + t.techniqueId.s))
  }

  lemma PaddedText(t: Technique)
    requires t.Technique? && t.techniqueId.Str?
    ensures IdOf(Padded(t)) == IdOf(t) && !RawTrimmed(Padded(t).techniqueId)
  {
    assert (" " + t.techniqueId.s)[1..] == t.techniqueId.s;
    assert (" " + t.techniqueId.s)[0] == ' ' && IsSpace(' ');
  }

  /** The profile with the identifier of technique `i` padded. */
  function PadOne(coverage: Coverage, i: nat): Coverage
    requires coverage.techniques.Some? && i < |coverage.techniques.value|
    requires coverage.techniques.value[i].Technique? && coverage.techniques.value[i].techniqueId.Str?
  {
    var items := coverage.techniques.value;
    coverage.(techniques := Some(items[i := Padded(items[i])]))
  }

  lemma PaddedStaysValid(w: World, coverage: Coverage, registry: Registry, known: set<string>, i: nat)
    requires ValidCoverage(w, coverage, registry, known) && i < |coverage.techniques.value|
    requires coverage.techniques.value[i].Technique? && coverage.techniques.value[i].techniqueId.Str?
    ensures ValidCoverage(w, PadOne(coverage, i), registry, known)
  {
    hide EntryOk, BoundariesOk, DistinctIds, Seen, TechniqueOk, IdOf, Text, Padded;
    var items := coverage.techniques.value;
    var now := items[i := Padded(items[i])];
    AreTechniques(w, coverage, registry, known);
    PaddedText(items[i]);
    PaddedOk(w, registry.entries, known, items[i]);
    assert Padded(items[i]).Technique? by { PaddedIsOne(items[i]); }
    SameIds(items, now);
  }

  lemma PaddedIsOne(t: Technique)
    requires t.Technique? && t.techniqueId.Str?
    ensures Padded(t).Technique?
  {
  }

  /** Padding one identifier keeps any valid profile valid and makes the renderer raise. */
  lemma PaddingSlipsThrough(w: World, coverage: Coverage, registry: Registry, known: set<string>, i: nat)
    requires ValidCoverage(w, coverage, registry, known) && i < |coverage.techniques.value|
    ensures coverage.techniques.value[i].Technique? && coverage.techniques.value[i].techniqueId.Str?
    ensures ValidCoverage(w, PadOne(coverage, i), registry, known)
    ensures !RenderTechnique(PadOne(coverage, i), registry, PadOne(coverage, i).techniques.value[i]).Ok?
  {
    hide ValidCoverage, RenderTechnique, RawTrimmed, IdOf, Padded;
    AreTechniques(w, coverage, registry, known);
    HasText(w, coverage, registry, known, i);
    PaddedText(coverage.techniques.value[i]);
    PaddedStaysValid(w, coverage, registry, known, i);
    TechniqueRenders(w, PadOne(coverage, i), registry, known, i);
  }

  lemma HasText(w: World, coverage: Coverage, registry: Registry, known: set<string>, i: nat)
    requires ValidCoverage(w, coverage, registry, known) && i < |coverage.techniques.value|
    ensures coverage.techniques.value[i].Technique? && coverage.techniques.value[i].techniqueId.Str?
  {
    hide EntryOk, BoundariesOk, DistinctIds, Seen, Texts, CoverageHeader;
    assert TechniqueOk(w, registry.entries, known, coverage.techniques.value[i]);
  }

  lemma PaddedOk(w: World, entries: map<string, RegistryEntry>, known: set<string>, t: Technique)
    requires TechniqueOk(w, entries, known, t) && t.techniqueId.Str?
    ensures TechniqueOk(w, entries, known, Padded(t))
  {
    hide Texts, DispositionRule, NoRepeats, SlsaViews.ControlIdFormat;
    PaddedText(t);
  }

  lemma SameIds(items: seq<Technique>, now: seq<Technique>)
    requires |items| == |now| && DistinctIds(items)
    requires forall k :: 0 <= k < |items| ==> items[k].Technique? && now[k].Technique? && IdOf(now[k]) == IdOf(items[k])
    ensures DistinctIds(now) && Seen(now) == Seen(items)
  {
    hide IdOf;
    forall id | id in Seen(items) ensures id in Seen(now) {
      var k :| 0 <= k < |items| && items[k].Technique? && IdOf(items[k]) == id;
      assert IdOf(now[k]) == id;
    }
  }
}
