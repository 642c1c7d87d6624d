// Evaluation of one approval: request digest, action classification, binding, time, replay and issuer.
module ApprovalCore {
  import opened Wrappers
  import opened Json
  import opened PyStrings
  import opened Times

  /** SHA-256 of the canonical JSON text, timestamp parsing, and the UTF-8 length of a text. */
  datatype World = World(digest: Json -> string, time: Json -> Option<int>, utf8: string -> nat)

  /** Evidence that cannot be evaluated safely. */
  datatype Unevaluable = Unevaluable

  /** Integers as Python sees them: True and False count. */
  function IntOf(j: Json): Option<int> {
    match j case Num(n) => Some(n) case Bool(b) => Some(if b then 1 else 0) case _ => None
  }

  predicate Has(value: Json, key: string) { value.Obj? && key in value.fields }

  predicate TextList(j: Json) {
    j.Arr? && forall i :: 0 <= i < |j.items| ==> j.items[i].Str?
  }

  // ---------------------------------------------------------------- request digest

  const BINDING_FIELDS := [
    "actor_id", "agent_id", "action_class", "tool", "operation", "target", "parameters", "policy_id", "policy_revision"]

  predicate Digestible(request: Json) {
    && (forall i :: 0 <= i < |BINDING_FIELDS| ==> Has(request, BINDING_FIELDS[i]))
    && Get(request, "target").Obj? && Get(request, "parameters").Obj?
  }

  /** The bound part of a request. */
  function Payload(request: Json): Json {
    Obj(map f | f in BINDING_FIELDS :: Get(request, f))
  }

  function RequestDigest(w: World, request: Json): Result<string, Unevaluable> {
    if Digestible(request) then Ok(w.digest(Payload(request))) else Err(Unevaluable)
  }

  /** The loop over the binding fields. */
  method Collect(request: Json, fields: seq<string>) returns (r: Result<map<string, Json>, Unevaluable>)
    ensures r.Ok? <==> forall i :: 0 <= i < |fields| ==> Has(request, fields[i])
    ensures r.Ok? ==> r.value == map f | f in fields :: Get(request, f)
  {
    hide Has, Get;
    var payload: map<string, Json> := map[];
    for i := 0 to |fields|
      invariant forall k :: 0 <= k < i ==> Has(request, fields[k])
      invariant payload == map f | f in fields[..i] :: Get(request, f)
    {
      if !Has(request, fields[i]) {
        return Err(Unevaluable);
      }
      payload := payload[fields[i] := Get(request, fields[i])];
    }
    assert fields[..|fields|] == fields;
    return Ok(payload);
  }

  /** `canonical_request_digest`. */
  method CanonicalRequestDigest(w: World, request: Json) returns (r: Result<string, Unevaluable>)
    ensures r == RequestDigest(w, request)
  {
    hide Has, Get;
    var payload := Collect(request, BINDING_FIELDS);
    if payload.Err? || !Get(request, "target").Obj? || !Get(request, "parameters").Obj? {
      return Err(Unevaluable);
    }
    return Ok(w.digest(Obj(payload.value)));
  }

  /** The digests of these two values are equal only if the values are. */
  predicate NoCollision(w: World, a: Json, b: Json) { w.digest(a) == w.digest(b) ==> a == b }

  /** Without a collision, equal digests mean equal bound fields. */
  lemma DigestBinds(w: World, request: Json, other: Json)
    requires NoCollision(w, Payload(request), Payload(other))
    requires RequestDigest(w, request).Ok? && RequestDigest(w, request) == RequestDigest(w, other)
    ensures forall f :: f in BINDING_FIELDS ==> Get(request, f) == Get(other, f)
  {
    forall f | f in BINDING_FIELDS ensures Get(request, f) == Get(other, f) {
      assert Payload(request).fields[f] == Payload(other).fields[f];
    }
  }

  // ---------------------------------------------------------------- action classes

  const REQUIRED_CLASSES := {
    "dependency-installation", "source-commit", "source-publication", "source-history-rewrite",
    "package-publication", "database-mutation", "infrastructure-change", "cloud-administration", "deployment"}

  type Pair = (string, string)

  predicate MatcherOk(m: Json) {
    && NonEmptyText(Get(m, "tool"))
    && Get(m, "operations").Arr? && Get(m, "operations").items != []
    && (forall i :: 0 <= i < |Get(m, "operations").items| ==> NonEmptyText(Get(m, "operations").items[i]))
    && NoRepeats(Get(m, "operations").items)
  }

  /** The (tool, operation) pairs of the first `n` operations of a matcher. */
  function OperationPairs(m: Json, n: nat): seq<Pair>
    requires MatcherOk(m) && n <= |Get(m, "operations").items|
  {
    seq(n, i requires 0 <= i < n => (Get(m, "tool").s, Get(m, "operations").items[i].s))
  }

  function MatcherPairs(m: Json): seq<Pair> {
    if MatcherOk(m) then OperationPairs(m, |Get(m, "operations").items|) else []
  }

  /** All pairs of a class, in order. */
  function ClassPairs(matchers: seq<Json>): seq<Pair> {
    if matchers == [] then []
    else ClassPairs(matchers[..|matchers| - 1]) + MatcherPairs(matchers[|matchers| - 1])
  }

  predicate ClassOk(name: string, matchers: Json) {
    && name != "" && matchers.Arr? && matchers.items != []
    && (forall i :: 0 <= i < |matchers.items| ==> MatcherOk(matchers.items[i]))
    && NoRepeats(ClassPairs(matchers.items))
  }

  predicate Lists(classes: map<string, Json>, name: string, pair: Pair) {
    name in classes && classes[name].Arr? && pair in ClassPairs(classes[name].items)
  }

  /** No pair belongs to two classes. */
  ghost predicate Separate(classes: map<string, Json>) {
    forall a, b, pair :: Lists(classes, a, pair) && Lists(classes, b, pair) ==> a == b
  }

  /** The action classes from which an index can be built. */
  ghost predicate ClassesOk(policy: Json) {
    && Get(policy, "action_classes").Obj?
    && REQUIRED_CLASSES <= Get(policy, "action_classes").fields.Keys
    && (forall c :: c in Get(policy, "action_classes").fields ==> ClassOk(c, Get(policy, "action_classes").fields[c]))
    && Separate(Get(policy, "action_classes").fields)
  }

  /** The index holds the pairs of the named classes, each under its class. */
  ghost predicate Indexes(index: map<Pair, string>, classes: map<string, Json>, names: set<string>) {
    && (forall pair :: pair in index ==> index[pair] in names && Lists(classes, index[pair], pair))
    && forall c, pair :: c in names && Lists(classes, c, pair) ==> pair in index && index[pair] == c
  }

  /** Part of one class filed under its name, on top of what was there. */
  ghost predicate Filed(before: map<Pair, string>, index: map<Pair, string>, name: string, pairs: seq<Pair>) {
    && (forall pair :: pair in index <==> pair in before || pair in pairs)
    && forall pair :: pair in index ==> index[pair] == if pair in pairs then name else before[pair]
  }

  lemma FileOne(before: map<Pair, string>, index: map<Pair, string>, name: string, pairs: seq<Pair>, pair: Pair)
    requires Filed(before, index, name, pairs)
    ensures Filed(before, index[pair := name], name, pairs + [pair])
  {
  }

  lemma FiledNothing(before: map<Pair, string>, name: string)
    ensures Filed(before, before, name, [])
  {
  }

  ghost predicate New(before: map<Pair, string>, pairs: seq<Pair>) {
    NoRepeats(pairs) && forall i :: 0 <= i < |pairs| ==> pairs[i] !in before
  }

  lemma NewPrefix(before: map<Pair, string>, pairs: seq<Pair>, rest: seq<Pair>)
    ensures New(before, pairs + rest) ==> New(before, pairs)
  {
    if New(before, pairs + rest) {
      assert forall i :: 0 <= i < |pairs| ==> (pairs + rest)[i] == pairs[i];
    }
  }

  lemma NewSnoc(before: map<Pair, string>, index: map<Pair, string>, name: string, pairs: seq<Pair>, pair: Pair)
    requires Filed(before, index, name, pairs) && New(before, pairs)
    ensures New(before, pairs + [pair]) <==> pair !in index
  {
    var all := pairs + [pair];
    assert forall i :: 0 <= i < |pairs| ==> all[i] == pairs[i];
    assert all[|pairs|] == pair;
  }

  /** The loop over the operations of one matcher. */
  method AddMatcher(before: map<Pair, string>, now: map<Pair, string>, name: string, ghost pairs: seq<Pair>, m: Json)
    returns (r: Result<map<Pair, string>, Unevaluable>)
    requires Filed(before, now, name, pairs) && New(before, pairs) && MatcherOk(m)
    ensures r.Ok? <==> New(before, pairs + MatcherPairs(m))
    ensures r.Ok? ==> Filed(before, r.value, name, pairs + MatcherPairs(m))
  {
    hide *;
    MatcherParts(m);
    var operations, index := Get(m, "operations").items, now;
    ghost var mine := MatcherPairs(m);
    assert pairs + mine[..0] == pairs;
    for i := 0 to |operations|
      invariant Filed(before, index, name, pairs + mine[..i]) && New(before, pairs + mine[..i])
    {
      var pair := (Get(m, "tool").s, operations[i].s);
      assert pairs + mine[..i + 1] == pairs + mine[..i] + [pair];
      assert pairs + mine == pairs + mine[..i + 1] + mine[i + 1..];
      NewSnoc(before, index, name, pairs + mine[..i], pair);
      NewPrefix(before, pairs + mine[..i + 1], mine[i + 1..]);
      if pair in index {
        return Err(Unevaluable);
      }
      FileOne(before, index, name, pairs + mine[..i], pair);
      index := index[pair := name];
    }
    assert mine[..|operations|] == mine;
    return Ok(index);
  }

  lemma MatcherParts(m: Json)
    requires MatcherOk(m)
    ensures Get(m, "tool").Str? && Get(m, "operations").Arr?
    ensures forall i :: 0 <= i < |Get(m, "operations").items| ==> Get(m, "operations").items[i].Str?
    ensures |MatcherPairs(m)| == |Get(m, "operations").items|
    ensures forall i :: 0 <= i < |Get(m, "operations").items| ==>
              MatcherPairs(m)[i] == (Get(m, "tool").s, Get(m, "operations").items[i].s)
  {
    hide NoRepeats;
  }

  lemma {:induction false} ClassPairsPrefix(matchers: seq<Json>, n: nat)
    requires n <= |matchers|
    ensures ClassPairs(matchers[..n]) <= ClassPairs(matchers)
    decreases |matchers| - n
  {
    hide MatcherPairs;
    if n == |matchers| {
      assert matchers[..n] == matchers;
    } else {
      assert matchers[..n + 1][..n] == matchers[..n];
      ClassPairsPrefix(matchers, n + 1);
    }
  }

  /** The loop over the matchers of one class. */
  method AddClass(before: map<Pair, string>, name: string, value: Json)
    returns (r: Result<map<Pair, string>, Unevaluable>)
    ensures r.Ok? <==> ClassOk(name, value) && New(before, ClassPairs(value.items))
    ensures r.Ok? ==> Filed(before, r.value, name, ClassPairs(value.items))
  {
    hide Filed, New, MatcherOk, NoRepeats, MatcherPairs;
    if name == "" || !value.Arr? || value.items == [] {
      return Err(Unevaluable);
    }
    var matchers, index := value.items, before;
    FiledNothing(before, name);
    assert matchers[..0] == [] && New(before, []) by { NothingNew(before); }
    for i := 0 to |matchers|
      invariant forall k :: 0 <= k < i ==> MatcherOk(matchers[k])
      invariant Filed(before, index, name, ClassPairs(matchers[..i])) && New(before, ClassPairs(matchers[..i]))
    {
      if !MatcherOk(matchers[i]) {
        return Err(Unevaluable);
      }
      assert matchers[..i + 1][..i] == matchers[..i];
      var added := AddMatcher(before, index, name, ClassPairs(matchers[..i]), matchers[i]);
      if added.Err? {
        ClassPairsPrefix(matchers, i + 1);
        var part, all := ClassPairs(matchers[..i + 1]), ClassPairs(matchers);
        assert all == part + all[|part|..];
        NewPrefix(before, part, all[|part|..]);
        return Err(Unevaluable);
      }
      index := added.value;
    }
    assert matchers[..|matchers|] == matchers;
    NewNoRepeats(before, ClassPairs(matchers));
    return Ok(index);
  }

  lemma NothingNew(before: map<Pair, string>)
    ensures New(before, [])
  {
  }

  lemma NewNoRepeats(before: map<Pair, string>, pairs: seq<Pair>)
    requires New(before, pairs)
    ensures NoRepeats(pairs)
  {
  }

  lemma IndexClass(before: map<Pair, string>, index: map<Pair, string>, classes: map<string, Json>, names: set<string>,
                   name: string)
    requires Indexes(before, classes, names) && name in classes && name !in names && classes[name].Arr?
    requires Filed(before, index, name, ClassPairs(classes[name].items))
    requires New(before, ClassPairs(classes[name].items))
    ensures Indexes(index, classes, names + {name})
  {
    hide ClassPairs, NoRepeats;
    var pairs := ClassPairs(classes[name].items);
    assert forall pair :: pair in pairs <==> Lists(classes, name, pair);
  }

  lemma ClashMeansShared(before: map<Pair, string>, classes: map<string, Json>, names: set<string>, name: string)
    requires Indexes(before, classes, names) && name in classes && name !in names && classes[name].Arr?
    requires Separate(classes) && NoRepeats(ClassPairs(classes[name].items))
    ensures New(before, ClassPairs(classes[name].items))
  {
    hide ClassPairs;
    var pairs := ClassPairs(classes[name].items);
    forall i | 0 <= i < |pairs| ensures pairs[i] !in before {
      assert Lists(classes, name, pairs[i]);
    }
  }

  /** `action_class_index`: every pair under its one class, or an error. */
  method ActionClassIndex(policy: Json) returns (r: Result<map<Pair, string>, Unevaluable>)
    ensures r.Ok? <==> ClassesOk(policy)
    ensures r.Ok? ==>
              Indexes(r.value, Get(policy, "action_classes").fields, Get(policy, "action_classes").fields.Keys)
  {
    hide ClassOk, Indexes, Filed, New, Separate, ClassPairs;
    var value := Get(policy, "action_classes");
    if !value.Obj? || !(REQUIRED_CLASSES <= value.fields.Keys) {
      return Err(Unevaluable);
    }
    var classes := value.fields;
    var index: map<Pair, string>, left := map[], classes.Keys;
    assert Indexes(index, classes, classes.Keys - left) by { NothingIndexed(classes, classes.Keys - left); }
    while left != {}
      invariant left <= classes.Keys
      invariant forall c :: c in classes.Keys - left ==> ClassOk(c, classes[c])
      invariant Indexes(index, classes, classes.Keys - left)
      decreases |left|
    {
      var c :| c in left;
      var added := AddClass(index, c, classes[c]);
      if added.Err? {
        RefusedClass(index, classes, classes.Keys - left, c);
        return Err(Unevaluable);
      }
      assert classes[c].Arr? by { ClassParts(c, classes[c]); }
      IndexClass(index, added.value, classes, classes.Keys - left, c);
      assert classes.Keys - left + {c} == classes.Keys - (left - {c});
      index, left := added.value, left - {c};
    }
    assert classes.Keys - left == classes.Keys;
    IndexedSeparate(index, classes);
    return Ok(index);
  }

  lemma NothingIndexed(classes: map<string, Json>, names: set<string>)
    requires names == {}
    ensures Indexes(map[], classes, names)
  {
  }

  lemma ClassParts(name: string, value: Json)
    requires ClassOk(name, value)
    ensures value.Arr? && NoRepeats(ClassPairs(value.items))
  {
  }

  lemma RefusedClass(index: map<Pair, string>, classes: map<string, Json>, names: set<string>, name: string)
    requires Indexes(index, classes, names) && name in classes && name !in names
    requires !(ClassOk(name, classes[name]) && New(index, ClassPairs(classes[name].items)))
    ensures ClassOk(name, classes[name]) ==> !Separate(classes)
  {
    hide Indexes, New, ClassPairs, NoRepeats, Separate;
    if ClassOk(name, classes[name]) && Separate(classes) {
      ClashMeansShared(index, classes, names, name);
    }
  }

  lemma IndexedSeparate(index: map<Pair, string>, classes: map<string, Json>)
    requires Indexes(index, classes, classes.Keys)
    ensures Separate(classes)
  {
    hide ClassPairs;
  }

  /** The class a pair is listed under, if any. */
  ghost predicate ResolvesTo(policy: Json, pair: Pair, name: string) {
    Get(policy, "action_classes").Obj? && Lists(Get(policy, "action_classes").fields, name, pair)
  }

  /** Looking a pair up in the index finds its class, and only its class. */
  lemma LookupIsExact(policy: Json, index: map<Pair, string>, pair: Pair, name: string)
    requires ClassesOk(policy)
    requires Indexes(index, Get(policy, "action_classes").fields, Get(policy, "action_classes").fields.Keys)
    ensures ResolvesTo(policy, pair, name) <==> pair in index && index[pair] == name
  {
    hide ClassPairs, Separate, ClassOk;
  }

  // ---------------------------------------------------------------- evaluation

  datatype Evaluation = Evaluation(
    requestId: string, approvalId: string, requestDigest: string, actionClass: string,
    classified: bool, bindingOk: bool, timeOk: bool, replayOk: bool, issuerOk: bool)

  predicate Passed(e: Evaluation) {
    e.classified && e.bindingOk && e.timeOk && e.replayOk && e.issuerOk
  }

  predicate PolicyIdentity(policy: Json, request: Json) {
    && Get(policy, "schema_version") == Str("psb-ai-high-impact-policy/v1")
    && NonEmptyText(Get(policy, "policy_id")) && NonEmptyText(Get(policy, "policy_revision"))
    && Get(request, "policy_id") == Get(policy, "policy_id")
    && Get(request, "policy_revision") == Get(policy, "policy_revision")
  }

  predicate Schemas(request: Json, approval: Json, replay: Json, validation: Json) {
    && Get(request, "schema_version") == Str("psb-ai-action-request/v1")
    && Get(approval, "schema_version") == Str("psb-ai-action-approval/v1")
    && Get(replay, "schema_version") == Str("psb-ai-approval-replay-state/v1")
    && Get(validation, "schema_version") == Str("psb-ai-approval-validation-state/v1")
  }

  predicate Texts(request: Json, approval: Json) {
    && NonEmptyText(Get(request, "request_id")) && NonEmptyText(Get(approval, "approval_id"))
    && NonEmptyText(Get(approval, "approver_id")) && NonEmptyText(Get(approval, "issuer"))
    && NonEmptyText(Get(request, "tool")) && NonEmptyText(Get(request, "operation"))
    && NonEmptyText(Get(request, "action_class"))
  }

  predicate TimesOk(w: World, policy: Json, approval: Json, now: Json) {
    && w.time(Get(approval, "issued_at")).Some? && w.time(Get(approval, "expires_at")).Some? && w.time(now).Some?
    && IntOf(Get(policy, "maximum_ttl_seconds")).Some? && IntOf(Get(policy, "maximum_ttl_seconds")).value > 0
  }

  function ApprovalPolicy(runtimePolicy: Json): Json { Get(runtimePolicy, "high_impact_approval") }

  predicate ValidatorReady(validation: Json) {
    Get(validation, "available") == Bool(true) && TextList(Get(validation, "trusted_issuers"))
  }

  predicate ReplayLists(replay: Json) {
    TextList(Get(replay, "used_approval_ids")) && TextList(Get(replay, "used_request_digests"))
  }

  predicate BindingList(policy: Json) { TextList(Get(policy, "required_binding_fields")) }

  function TextOf(j: Json): string { if j.Str? then j.s else "" }

  function RequestId(request: Json): string { TextOf(Get(request, "request_id")) }
  function ApprovalId(approval: Json): string { TextOf(Get(approval, "approval_id")) }
  function DeclaredClass(request: Json): string { TextOf(Get(request, "action_class")) }
  function ActionPair(request: Json): Pair { (TextOf(Get(request, "tool")), TextOf(Get(request, "operation"))) }

  predicate IssuerTrusted(approval: Json, validation: Json) {
    Get(validation, "trusted_issuers").Arr? && Get(approval, "issuer") in Get(validation, "trusted_issuers").items
  }

  /** Everything that must hold before any verdict; otherwise the evaluation raises. */
  ghost predicate Evaluable(w: World, runtimePolicy: Json, request: Json, approval: Json, replay: Json, validation: Json,
                            now: Json)
  {
    var policy := ApprovalPolicy(runtimePolicy);
    && policy.Obj?
    && Schemas(request, approval, replay, validation) && PolicyIdentity(policy, request)
    && ValidatorReady(validation)
    && Texts(request, approval) && Digestible(request) && ClassesOk(policy)
    && BindingList(policy) && TimesOk(w, policy, approval, now) && ReplayLists(replay)
  }

  predicate Bound(w: World, policy: Json, request: Json, approval: Json) {
    && Get(policy, "required_binding_fields").Arr?
    && (forall i :: 0 <= i < |Get(policy, "required_binding_fields").items| ==>
          Get(policy, "required_binding_fields").items[i].Str?
          && Has(approval, Get(policy, "required_binding_fields").items[i].s))
    && (forall i :: 0 <= i < |BINDING_FIELDS| ==> Same(Get(approval, BINDING_FIELDS[i]), Get(request, BINDING_FIELDS[i])))
    && Get(approval, "request_digest") == Str(w.digest(Payload(request)))
    && Get(policy, "require_independent_approver") == Bool(true)
    && !Same(Get(approval, "approver_id"), Get(request, "actor_id"))
  }

  predicate InTime(w: World, policy: Json, approval: Json, now: Json)
    requires TimesOk(w, policy, approval, now)
  {
    var issued, expires := w.time(Get(approval, "issued_at")).value, w.time(Get(approval, "expires_at")).value;
    && Get(approval, "decision") == Str("approved")
    && 0 < expires - issued <= IntOf(Get(policy, "maximum_ttl_seconds")).value * SECOND
    && issued <= w.time(now).value < expires
  }

  predicate Unused(replay: Json, approvalId: string, digest: string) {
    && Get(replay, "used_approval_ids").Arr? && Str(approvalId) !in Get(replay, "used_approval_ids").items
    && Get(replay, "used_request_digests").Arr? && Str(digest) !in Get(replay, "used_request_digests").items
  }

  function Verdict(w: World, policy: Json, request: Json, approval: Json, replay: Json, validation: Json, now: Json,
                   digest: string, classified: bool): Evaluation
    requires TimesOk(w, policy, approval, now)
  {
    Evaluation(RequestId(request), ApprovalId(approval), digest, DeclaredClass(request), classified,
               Bound(w, policy, request, approval), InTime(w, policy, approval, now),
               Unused(replay, ApprovalId(approval), digest), IssuerTrusted(approval, validation))
  }

  ghost function EvaluateApproval(w: World, runtimePolicy: Json, request: Json, approval: Json, replay: Json,
                                  validation: Json, now: Json): Result<Evaluation, Unevaluable>
  {
    if !Evaluable(w, runtimePolicy, request, approval, replay, validation, now) then Err(Unevaluable)
    else
      var policy := ApprovalPolicy(runtimePolicy);
      Ok(Verdict(w, policy, request, approval, replay, validation, now, w.digest(Payload(request)),
                 ResolvesTo(policy, ActionPair(request), DeclaredClass(request))))
  }

  /** `classify_action`: whether the index resolves the request's pair to the class it declares. */
  method ClassifyAction(policy: Json, request: Json) returns (r: Result<bool, Unevaluable>)
    ensures r.Ok? <==> ClassesOk(policy)
    ensures r.Ok? ==> (r.value <==> ResolvesTo(policy, ActionPair(request), DeclaredClass(request)))
  {
    hide ClassesOk, Indexes, ResolvesTo, ActionPair, DeclaredClass;
    var index := ActionClassIndex(policy);
    if index.Err? {
      return Err(Unevaluable);
    }
    LookupIsExact(policy, index.value, ActionPair(request), DeclaredClass(request));
    var pair := ActionPair(request);
    return Ok(pair in index.value && index.value[pair] == DeclaredClass(request));
  }

  lemma EvaluationCases(w: World, runtimePolicy: Json, request: Json, approval: Json, replay: Json, validation: Json,
                        now: Json)
    ensures EvaluateApproval(w, runtimePolicy, request, approval, replay, validation, now)
         == (var policy := ApprovalPolicy(runtimePolicy);
             if && policy.Obj? && Schemas(request, approval, replay, validation) && PolicyIdentity(policy, request)
                && ValidatorReady(validation) && Texts(request, approval) && Digestible(request) && ClassesOk(policy)
                && BindingList(policy) && TimesOk(w, policy, approval, now) && ReplayLists(replay)
             then Ok(Verdict(w, policy, request, approval, replay, validation, now, w.digest(Payload(request)),
                             ResolvesTo(policy, ActionPair(request), DeclaredClass(request))))
             else Err(Unevaluable))
  {
  }

  lemma DigestCases(w: World, request: Json)
    ensures RequestDigest(w, request) == if Digestible(request) then Ok(w.digest(Payload(request))) else Err(Unevaluable)
  {
  }

  /** `evaluate_approval` as written. */
  method Evaluate(w: World, runtimePolicy: Json, request: Json, approval: Json, replay: Json, validation: Json, now: Json)
    returns (r: Result<Evaluation, Unevaluable>)
    ensures r == EvaluateApproval(w, runtimePolicy, request, approval, replay, validation, now)
  {
    hide *;
    EvaluationCases(w, runtimePolicy, request, approval, replay, validation, now);
    DigestCases(w, request);
    var policy := ApprovalPolicy(runtimePolicy);
    if !policy.Obj? || !Schemas(request, approval, replay, validation) || !PolicyIdentity(policy, request) {
      return Err(Unevaluable);
    }
    if !ValidatorReady(validation) || !Texts(request, approval) {
      return Err(Unevaluable);
    }
    var digest := CanonicalRequestDigest(w, request);
    if digest.Err? {
      return Err(Unevaluable);
    }
    var classified := ClassifyAction(policy, request);
    if classified.Err? {
      return Err(Unevaluable);
    }
    if !BindingList(policy) || !TimesOk(w, policy, approval, now) || !ReplayLists(replay) {
      return Err(Unevaluable);
    }
    return Ok(Verdict(w, policy, request, approval, replay, validation, now, digest.value, classified.value));
  }
}
