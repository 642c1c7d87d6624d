// The dual-control signature loop that authorizes recovery of a contained agent.
module DualControl {
  import opened Wrappers

  datatype Operator = Operator(
    role: Option<string>,
    authorities: set<string>,
    keyId: Option<string>,
    keyPath: string)

  /** A signature entry of the authorization; `Malformed` is a list item that is not an object. */
  datatype Signature =
    | Malformed
    | Signature(operatorId: Option<string>, keyId: Option<string>, algorithm: Option<string>, value: string)

  datatype VerifierError = VerifierError

  /**
    * Who may sign, for which roles, and the external verifier: given a key path, the payload of
    * the authorization and a signature value it accepts, rejects, or fails.
    */
  datatype Setting = Setting(
    operators: map<string, Operator>,
    requiredRoles: set<string>,
    payload: string,
    verify: (string, string, string) -> Result<bool, VerifierError>)

  function AuthorityFor(role: string): string {
    if role == "incident-commander" then "agent-session.recover.propose"
    else "agent-session.recover.approve"
  }

  /** The signer of an entry, when it is a known operator with a required role. */
  function Signer(st: Setting, s: Signature): Option<Operator> {
    if s.Malformed? || s.operatorId.None? || s.operatorId.value !in st.operators then None
    else
      var operator := st.operators[s.operatorId.value];
      if operator.role.None? || operator.role.value !in st.requiredRoles then None else Some(operator)
  }

  /** Authority and key binding of an entry, checked before the verifier runs. */
  predicate Bound(st: Setting, s: Signature) {
    && Signer(st, s).Some?
    && var operator := Signer(st, s).value;
       && AuthorityFor(operator.role.value) in operator.authorities
       && s.keyId == operator.keyId
       && s.algorithm == Some("Ed25519")
  }

  function Verdict(st: Setting, s: Signature): Result<bool, VerifierError>
    requires Bound(st, s)
  {
    st.verify(Signer(st, s).value.keyPath, st.payload, s.value)
  }

  predicate Valid(st: Setting, s: Signature) {
    Bound(st, s) && Verdict(st, s) == Ok(true)
  }

  function Id(s: Signature): string {
    if s.Signature? && s.operatorId.Some? then s.operatorId.value else ""
  }

  function Role(st: Setting, s: Signature): string {
    if Signer(st, s).Some? then Signer(st, s).value.role.value else ""
  }

  function Ids(signatures: seq<Signature>): set<string> {
    set s | s in signatures :: Id(s)
  }

  function Roles(st: Setting, signatures: seq<Signature>): set<string> {
    set s | s in signatures :: Role(st, s)
  }

  /** What the loop reports of each entry in turn; None while all entries so far are good. */
  function FirstProblem(st: Setting, signatures: seq<Signature>, seen: set<string>): Option<Result<bool, VerifierError>>
    decreases signatures
  {
    if signatures == [] then None
    else
      var s := signatures[0];
      if Signer(st, s).None? || Id(s) in seen || !Bound(st, s) then Some(Ok(false))
      else match Verdict(st, s)
        case Err(e) => Some(Err(e))
        case Ok(false) => Some(Ok(false))
        case Ok(true) => FirstProblem(st, signatures[1..], seen + {Id(s)})
  }

  function Outcome(st: Setting, signatures: seq<Signature>): Result<bool, VerifierError> {
    match FirstProblem(st, signatures, {})
    case Some(problem) => problem
    case None => Ok(Roles(st, signatures) == st.requiredRoles && |Ids(signatures)| == |st.requiredRoles|)
  }

  method RecoverySignaturesValid(st: Setting, signatures: Option<seq<Signature>>)
    returns (r: Result<bool, VerifierError>)
    ensures r == if signatures.None? then Ok(false) else Outcome(st, signatures.value)
  {
    if signatures.None? {
      return Ok(false);
    }
    var entries := signatures.value;
    var observedIds: set<string>, observedRoles: set<string> := {}, {};
    for i := 0 to |entries|
      invariant observedIds == Ids(entries[..i]) && observedRoles == Roles(st, entries[..i])
      invariant FirstProblem(st, entries, {}) == FirstProblem(st, entries[i..], observedIds)
    {
      var signature := entries[i];
      assert entries[i..][0] == signature && entries[i..][1..] == entries[i + 1..];
      assert entries[..i + 1] == entries[..i] + [signature];
      if signature.Malformed? || signature.operatorId.None? || signature.operatorId.value !in st.operators {
        return Ok(false);
      }
      var operatorId := signature.operatorId.value;
      var operator := st.operators[operatorId];
      if operatorId in observedIds {
        return Ok(false);
      }
      if operator.role.None? || operator.role.value !in st.requiredRoles {
        return Ok(false);
      }
      var role := operator.role.value;
      if AuthorityFor(role) !in operator.authorities {
        return Ok(false);
      }
      if signature.keyId != operator.keyId || signature.algorithm != Some("Ed25519") {
        return Ok(false);
      }
      var verified := st.verify(operator.keyPath, st.payload, signature.value);
      if verified != Ok(true) {
        return verified;
      }
      observedIds := observedIds + {operatorId};
      observedRoles := observedRoles + {role};
      assert observedIds == Ids(entries[..i + 1]) && observedRoles == Roles(st, entries[..i + 1]);
    }
    assert entries[..|entries|] == entries && entries[|entries|..] == [];
    return Ok(observedRoles == st.requiredRoles && |observedIds| == |st.requiredRoles|);
  }

  // ---------------------------------------------------------------- what acceptance means

  predicate Distinct(xs: seq<string>) {
    forall i, j :: 0 <= i < j < |xs| ==> xs[i] != xs[j]
  }

  function Elements(xs: seq<string>): set<string> {
    set x | x in xs
  }

  function RoleList(st: Setting, signatures: seq<Signature>): seq<string> {
    seq(|signatures|, i requires 0 <= i < |signatures| => Role(st, signatures[i]))
  }

  function IdList(signatures: seq<Signature>): seq<string> {
    seq(|signatures|, i requires 0 <= i < |signatures| => Id(signatures[i]))
  }

  /** Every entry verifies, no operator signs twice. */
  ghost predicate AllValidDistinct(st: Setting, signatures: seq<Signature>) {
    (forall s :: s in signatures ==> Valid(st, s)) && Distinct(IdList(signatures))
  }

  /** The roles acted in are the required ones, each by exactly one entry. */
  ghost predicate OneSignaturePerRole(st: Setting, signatures: seq<Signature>) {
    Elements(RoleList(st, signatures)) == st.requiredRoles && Distinct(RoleList(st, signatures))
  }

  ghost predicate DualControlled(st: Setting, signatures: seq<Signature>) {
    AllValidDistinct(st, signatures) && OneSignaturePerRole(st, signatures)
  }

  lemma {:induction false} NoProblemMeansValid(st: Setting, signatures: seq<Signature>, seen: set<string>)
    ensures FirstProblem(st, signatures, seen) != Some(Ok(true))
    ensures FirstProblem(st, signatures, seen) == None
       <==> AllValidDistinct(st, signatures) && Elements(IdList(signatures)) !! seen
  {
    hide Id, Signer, Distinct, Elements;
    if signatures == [] {
      NoElements();
      assert IdList(signatures) == [];
    } else {
      var s, rest := signatures[0], signatures[1..];
      assert signatures == [s] + rest;
      assert IdList(signatures) == [Id(s)] + IdList(rest);
      HeadElements(Id(s), IdList(rest));
      ElementsMembers(IdList(rest), Id(s));
      NoProblemMeansValid(st, rest, seen + {Id(s)});
      var others := Elements(IdList(rest));
      assert others + {Id(s)} !! seen <==> others !! seen && Id(s) !in seen;
      assert others !! seen + {Id(s)} <==> others !! seen && Id(s) !in others;
      assert (forall t :: t in signatures ==> Valid(st, t)) <==> Valid(st, s) && forall t :: t in rest ==> Valid(st, t);
    }
  }

  lemma NoElements()
    ensures Distinct([]) && Elements([]) == {}
  {
  }

  lemma HeadElements(x: string, rest: seq<string>)
    ensures Elements([x] + rest) == Elements(rest) + {x}
    ensures Distinct([x] + rest) <==> Distinct(rest) && x !in rest
  {
    var xs := [x] + rest;
    assert forall i :: 0 <= i < |rest| ==> rest[i] == xs[i + 1];
    if Distinct(rest) && x !in rest {
      forall i, j | 0 <= i < j < |xs| ensures xs[i] != xs[j] {
        assert xs[j] == rest[j - 1];
      }
    }
    if x in rest {
      var k :| 0 <= k < |rest| && rest[k] == x;
      assert xs[k + 1] == xs[0];
    }
    if Distinct(xs) {
      forall i, j | 0 <= i < j < |rest| ensures rest[i] != rest[j] {
        assert xs[i + 1] != xs[j + 1];
      }
    }
  }

  /** As many values as positions exactly when no two positions share a value. */
  lemma {:induction false} CountDistinct(xs: seq<string>)
    ensures |Elements(xs)| <= |xs|
    ensures |Elements(xs)| == |xs| <==> Distinct(xs)
  {
    if xs != [] {
      hide Distinct, Elements;
      assert xs == [xs[0]] + xs[1..];
      HeadElements(xs[0], xs[1..]);
      CountDistinct(xs[1..]);
      ElementsMembers(xs[1..], xs[0]);
      if xs[0] in xs[1..] {
        assert Elements(xs) == Elements(xs[1..]);
      } else {
        assert |Elements(xs)| == |Elements(xs[1..])| + 1;
      }
    }
  }

  lemma ElementsMembers(xs: seq<string>, x: string)
    ensures x in Elements(xs) <==> x in xs
  {
  }

  lemma ListsAndSets(st: Setting, signatures: seq<Signature>)
    ensures Elements(RoleList(st, signatures)) == Roles(st, signatures)
    ensures Elements(IdList(signatures)) == Ids(signatures)
  {
    forall s | s in signatures ensures Role(st, s) in RoleList(st, signatures) && Id(s) in IdList(signatures) {
      var i :| 0 <= i < |signatures| && signatures[i] == s;
      assert RoleList(st, signatures)[i] == Role(st, s) && IdList(signatures)[i] == Id(s);
    }
  }

  /**
    * Recovery is authorized exactly under dual control: valid signatures, distinct operators and
    * required roles correspond one to one.
    */
  lemma AuthorizedExactlyUnderDualControl(st: Setting, signatures: seq<Signature>)
    ensures Outcome(st, signatures) == Ok(true) <==> DualControlled(st, signatures)
    ensures Outcome(st, signatures) == Ok(true) ==> |signatures| == |st.requiredRoles|
  {
    NoProblemMeansValid(st, signatures, {});
    if AllValidDistinct(st, signatures) {
      ListsAndSets(st, signatures);
      CountDistinct(IdList(signatures));
      CountDistinct(RoleList(st, signatures));
    }
  }

  // ---------------------------------------------------------------- order

  lemma SamePerms(a: seq<Signature>, b: seq<Signature>)
    requires multiset(a) == multiset(b)
    ensures forall s :: s in a <==> s in b
    ensures |a| == |b|
  {
    assert |multiset(a)| == |multiset(b)|;
    forall s ensures s in a <==> s in b {
      assert s in multiset(a) <==> s in multiset(b);
    }
  }

  /** Acceptance never depends on the order of the signatures. */
  lemma AcceptanceIgnoresOrder(st: Setting, a: seq<Signature>, b: seq<Signature>)
    requires multiset(a) == multiset(b)
    ensures Outcome(st, a) == Ok(true) <==> Outcome(st, b) == Ok(true)
  {
    SamePerms(a, b);
    assert Ids(a) == Ids(b) && Roles(st, a) == Roles(st, b);
    ListsAndSets(st, a);
    ListsAndSets(st, b);
    CountDistinct(IdList(a));
    CountDistinct(IdList(b));
    NoProblemMeansValid(st, a, {});
    NoProblemMeansValid(st, b, {});
  }

  predicate Fails(st: Setting, s: Signature) { Bound(st, s) && Verdict(st, s).Err? }

  /** Refused by itself, whatever stands before it. */
  predicate Refused(st: Setting, s: Signature) { !Bound(st, s) || Verdict(st, s) == Ok(false) }

  /** A valid entry whose operator signs again. */
  ghost predicate SignsTwice(st: Setting, signatures: seq<Signature>) {
    exists s, t :: s in signatures && t in signatures && Valid(st, s) && Id(s) == Id(t)
                   && (s != t || multiset(signatures)[s] > 1)
  }

  /** The verifier fails on some entry, and something else is wrong that could be noticed first. */
  ghost predicate OrderSensitive(st: Setting, signatures: seq<Signature>) {
    && (exists s :: s in signatures && Fails(st, s))
    && ((exists s :: s in signatures && Refused(st, s)) || SignsTwice(st, signatures))
  }

  lemma {:induction false} NoFailureNoError(st: Setting, signatures: seq<Signature>, seen: set<string>)
    requires forall s :: s in signatures ==> !Fails(st, s)
    ensures FirstProblem(st, signatures, seen).Some? ==> FirstProblem(st, signatures, seen).value.Ok?
    decreases signatures
  {
    hide Bound, Signer, Id;
    if signatures != [] {
      assert signatures[0] in signatures;
      NoFailureNoError(st, signatures[1..], seen + {Id(signatures[0])});
    }
  }

  /** Valid entries of distinct operators and at least one failing one: the failure is what the loop meets. */
  lemma {:induction false} FailureIsMet(st: Setting, signatures: seq<Signature>, seen: set<string>)
    requires exists s :: s in signatures && Fails(st, s)
    requires forall s :: s in signatures ==> !Refused(st, s) && Id(s) !in seen
    requires !SignsTwice(st, signatures)
    ensures FirstProblem(st, signatures, seen) == Some(Err(VerifierError))
    decreases signatures
  {
    hide Bound, Signer, Id, SignsTwice;
    var first, rest := signatures[0], signatures[1..];
    assert signatures == [first] + rest;
    BoundHasSigner(st, first);
    if Fails(st, first) {
      assert Verdict(st, first) == Err(Verdict(st, first).error) && Verdict(st, first).error == VerifierError;
    } else {
      OkOrNot(Verdict(st, first));
      assert Valid(st, first);
      LaterSignOnce(st, first, rest);
      FailureIsMet(st, rest, seen + {Id(first)});
    }
  }

  lemma BoundHasSigner(st: Setting, s: Signature)
    ensures Bound(st, s) ==> Signer(st, s).Some?
  {
  }

  lemma LaterSignOnce(st: Setting, first: Signature, rest: seq<Signature>)
    requires !SignsTwice(st, [first] + rest) && Valid(st, first)
    ensures !SignsTwice(st, rest)
    ensures forall s :: s in rest ==> Id(s) != Id(first)
  {
    hide Bound, Signer, Id;
    var all := [first] + rest;
    assert multiset(all) == multiset{first} + multiset(rest);
    forall s | s in rest ensures Id(s) != Id(first) {
      assert s in all && first in all;
      assert s in multiset(rest);
    }
    assert forall s :: multiset(rest)[s] <= multiset(all)[s];
  }

  lemma SensitivityIgnoresOrder(st: Setting, a: seq<Signature>, b: seq<Signature>)
    requires multiset(a) == multiset(b)
    ensures OrderSensitive(st, a) <==> OrderSensitive(st, b)
    ensures SignsTwice(st, a) <==> SignsTwice(st, b)
  {
    hide Bound, Signer, Id, Valid, Fails, Refused;
    SamePerms(a, b);
  }

  /** Nor does the whole answer, unless the list is sensitive to its order. */
  lemma AnswerIgnoresOrder(st: Setting, a: seq<Signature>, b: seq<Signature>)
    requires multiset(a) == multiset(b) && !OrderSensitive(st, a)
    ensures Outcome(st, a) == Outcome(st, b)
  {
    hide Fails, Refused, SignsTwice, FirstProblem, Roles, Ids;
    SamePerms(a, b);
    SensitivityIgnoresOrder(st, a, b);
    if exists s :: s in a && Fails(st, s) {
      var s :| s in a && Fails(st, s);
      assert s in b;
      FailureIsMet(st, a, {});
      FailureIsMet(st, b, {});
    } else {
      NoFailureNoError(st, a, {});
      NoFailureNoError(st, b, {});
      AcceptanceIgnoresOrder(st, a, b);
      OkOrNot(Outcome(st, a));
      OkOrNot(Outcome(st, b));
    }
  }

  lemma OkOrNot(r: Result<bool, VerifierError>)
    ensures r.Ok? ==> r == Ok(true) || r == Ok(false)
  {
    if r.Ok? {
      assert if r.value then r == Ok(true) else r == Ok(false);
    }
  }

  lemma ToFront(signatures: seq<Signature>, s: Signature) returns (rest: seq<Signature>)
    requires s in signatures
    ensures multiset([s] + rest) == multiset(signatures)
  {
    var i :| 0 <= i < |signatures| && signatures[i] == s;
    rest := signatures[..i] + signatures[i + 1..];
    assert signatures == signatures[..i] + [s] + signatures[i + 1..];
  }

  lemma FailureFirst(st: Setting, s: Signature, rest: seq<Signature>)
    requires Fails(st, s)
    ensures Outcome(st, [s] + rest) == Err(VerifierError)
  {
    assert Verdict(st, s) == Err(Verdict(st, s).error) && Verdict(st, s).error == VerifierError;
    assert FirstProblem(st, [s] + rest, {}) == Some(Err(VerifierError));
  }

  lemma RefusalFirst(st: Setting, s: Signature, rest: seq<Signature>)
    requires Refused(st, s)
    ensures Outcome(st, [s] + rest) == Ok(false)
  {
    assert FirstProblem(st, [s] + rest, {}) == Some(Ok(false));
  }

  lemma RepetitionFirst(st: Setting, s: Signature, t: Signature, rest: seq<Signature>)
    requires Valid(st, s) && Id(s) == Id(t)
    ensures Outcome(st, [s] + ([t] + rest)) == Ok(false)
  {
    hide Id, Bound, Signer, Roles, Ids;
    BoundHasSigner(st, s);
    var all := [s] + ([t] + rest);
    assert all[0] == s && all[1..] == [t] + rest && ([t] + rest)[0] == t;
    assert FirstProblem(st, [t] + rest, {} + {Id(s)}) == Some(Ok(false));
    assert FirstProblem(st, all, {}) == Some(Ok(false));
  }

  /** The order can decide the answer exactly for the sensitive lists. */
  lemma OrderMattersExactly(st: Setting, a: seq<Signature>)
    ensures (exists b, c :: multiset(b) == multiset(a) && multiset(c) == multiset(a) && Outcome(st, b) != Outcome(st, c))
            <==> OrderSensitive(st, a)
  {
    hide Fails, Refused, SignsTwice, Outcome;
    if OrderSensitive(st, a) {
      var bad :| bad in a && Fails(st, bad);
      var rest := ToFront(a, bad);
      FailureFirst(st, bad, rest);
      var refused := RefusedOrder(st, a);
      assert Outcome(st, [bad] + rest) != Outcome(st, refused);
    } else {
      forall b, c | multiset(b) == multiset(a) && multiset(c) == multiset(a) ensures Outcome(st, b) == Outcome(st, c) {
        SensitivityIgnoresOrder(st, a, b);
        AnswerIgnoresOrder(st, b, c);
      }
    }
  }

  lemma RefusedOrder(st: Setting, a: seq<Signature>) returns (b: seq<Signature>)
    requires OrderSensitive(st, a)
    ensures multiset(b) == multiset(a) && Outcome(st, b) == Ok(false)
  {
    hide Fails, Refused, Outcome, Id, Valid;
    if s :| s in a && Refused(st, s) {
      var rest := ToFront(a, s);
      RefusalFirst(st, s, rest);
      b := [s] + rest;
    } else {
      var s, t :| s in a && t in a && Valid(st, s) && Id(s) == Id(t) && (s != t || multiset(a)[s] > 1);
      var rest := ToFront(a, s);
      assert multiset([s] + rest) == multiset{s} + multiset(rest);
      assert t in multiset(a) && multiset(rest)[t] > 0;
      assert t in rest;
      var others := ToFront(rest, t);
      RepetitionFirst(st, s, t, others);
      b := [s] + ([t] + others);
      assert multiset(b) == multiset{s} + multiset([t] + others);
    }
  }

  /** With a failing verifier the order can decide between a refusal and an error. */
  lemma OrderDecidesError(st: Setting, bad: Signature)
    requires Bound(st, bad) && Verdict(st, bad) == Err(VerifierError)
    ensures Outcome(st, [Malformed, bad]) == Ok(false)
    ensures Outcome(st, [bad, Malformed]) == Err(VerifierError)
  {
    var first, last := [bad, Malformed], [Malformed, bad];
    assert FirstProblem(st, first, {}) == Some(Err(VerifierError));
    assert FirstProblem(st, last, {}) == Some(Ok(false));
    assert Outcome(st, first) == Err(VerifierError);
    assert Outcome(st, last) == Ok(false);
  }
}
