// The adapter: issuer bundles, pinned and reviewed, become one evidence catalog.
module SlsaAdapter {
  import opened Wrappers
  import opened Json
  import opened PyStrings
  import opened StableSort
  import opened SlsaContract

  // ---------------------------------------------------------------- what the adapter accepts

  /** Every evidence type that some requirement names. */
  function Referenced(requirements: seq<Requirement>): set<Json> {
    set i, k | 0 <= i < |requirements| && requirements[i].types.Arr? && 0 <= k < |requirements[i].types.items|
      :: requirements[i].types.items[k]
  }

  function TypeNames(issuers: map<string, Json>): set<Json> {
    set t | t in issuers :: Str(t)
  }

  predicate AdapterAccepts(w: World, p: Policy) {
    && HeaderOk(p) && p.issuers.Some? && p.requirements.Some? && |p.requirements.value| == 7
    && (forall i :: 0 <= i < |p.requirements.value| ==> ListsTypes(p.requirements.value[i]))
    && IssuersOk(w, p.issuers.value)
    && Referenced(p.requirements.value) == TypeNames(p.issuers.value)
  }

  /** Evidence types with the role that issues them. */
  function Issuers(p: Policy): map<string, string> {
    if p.issuers.None? then map[]
    else map t | t in p.issuers.value && p.issuers.value[t].Str? :: p.issuers.value[t].s
  }

  function Roles(issuers: map<string, string>): set<string> {
    set t | t in issuers :: issuers[t]
  }

  function Expected(issuers: map<string, string>, role: string): set<string> {
    set t | t in issuers && issuers[t] == role
  }

  predicate TrustOk(w: World, roles: set<string>, t: TrustedBundle, assessedAt: int) {
    && t.exact
    && NonEmptyText(t.issuerRole) && t.issuerRole.s in roles
    && NonEmptyText(t.reviewedBy) && t.reviewedBy != t.issuerRole
    && SafeText(t.sha256, w.sha256)
    && w.time(t.reviewedAt).Some? && w.time(t.reviewedAt).value <= assessedAt
  }

  predicate DistinctRoles(trusted: seq<TrustedBundle>) {
    forall i, j :: 0 <= i < j < |trusted| ==> trusted[i].issuerRole != trusted[j].issuerRole
  }

  function TrustedRoles(trusted: seq<TrustedBundle>): set<Json> {
    set i | 0 <= i < |trusted| :: trusted[i].issuerRole
  }

  /** Each required role is trusted exactly once. */
  predicate TrustAccepted(w: World, roles: set<string>, trusted: seq<TrustedBundle>, assessedAt: int) {
    && (forall i :: 0 <= i < |trusted| ==> TrustOk(w, roles, trusted[i], assessedAt))
    && DistinctRoles(trusted)
    && forall role :: role in roles ==> Str(role) in TrustedRoles(trusted)
  }

  predicate ItemOk(w: World, item: Item, expected: set<string>) {
    && item.exact
    && NonEmptyText(item.evidenceType) && item.evidenceType.s in expected
    && item.code == item.evidenceType && w.code(item.evidenceType.s)
    && SafeText(item.uri, w.uri) && SafeText(item.sha256, w.sha256)
    && ResultOk(item.result) && item.immutable.Bool?
  }

  predicate DistinctTypes(items: seq<Item>) {
    forall i, j :: 0 <= i < j < |items| ==> items[i].evidenceType != items[j].evidenceType
  }

  function ItemTypes(items: seq<Item>): set<Json> {
    set i | 0 <= i < |items| :: items[i].evidenceType
  }

  predicate BundleHeader(w: World, digest: string, role: string, b: Bundle) {
    && b.exact
    && b.schema == Str("psb-slsa-build-l2-issuer-bundle/v1") && b.profileId == Str("slsa-build-l2")
    && b.issuerRole == Str(role) && b.scopeSha256 == Str(digest)
    && w.time(b.observedAt).Some?
    && b.evidence.Some? && b.evidence.value != []
  }

  predicate ItemsAccepted(w: World, items: seq<Item>, expected: set<string>) {
    && (forall i :: 0 <= i < |items| ==> ItemOk(w, items[i], expected))
    && DistinctTypes(items)
  }

  /** The bundle of a role: exactly one item for each evidence type the role issues. */
  predicate BundleOk(w: World, issuers: map<string, string>, digest: string, role: string, b: Bundle) {
    && BundleHeader(w, digest, role, b)
    && ItemsAccepted(w, b.evidence.value, Expected(issuers, role))
    && forall t :: t in Expected(issuers, role) ==> Str(t) in ItemTypes(b.evidence.value)
  }

  /** The trust entry of a role. */
  function TrustOf(trusted: seq<TrustedBundle>, role: string): Option<TrustedBundle> {
    if trusted == [] then None
    else if trusted[|trusted| - 1].issuerRole == Str(role) then Some(trusted[|trusted| - 1])
    else TrustOf(trusted[..|trusted| - 1], role)
  }

  /** The pinned bundle of a role, when its file is there, has the pinned digest, and is an object. */
  function BundleOf(w: World, trusted: seq<TrustedBundle>, role: string): Option<Bundle> {
    match TrustOf(trusted, role)
    case None => None
    case Some(t) => if NonEmptyText(t.path) && t.sha256.Str? then w.bundle(t.path.s, t.sha256.s, role) else None
  }

  predicate AdapterHeader(w: World, a: AdapterPolicy) {
    && a.exact
    && a.schema == Str("psb-slsa-build-l2-evidence-adapter-policy/v1") && a.profileId == Str("slsa-build-l2")
    && SourceOk(a.source) && ScopeOk(w, a.scope) && SafeText(a.bundleRoot, w.root) && a.trusted.Some?
  }

  predicate BundlesOk(w: World, issuers: map<string, string>, digest: string, trusted: seq<TrustedBundle>) {
    forall role :: role in Roles(issuers) ==>
      BundleOf(w, trusted, role).Some? && BundleOk(w, issuers, digest, role, BundleOf(w, trusted, role).value)
  }

  /** The inputs from which a catalog is assembled. */
  predicate BuildAccepted(w: World, p: Policy, a: AdapterPolicy, assessedAt: int) {
    && AdapterAccepts(w, p) && AdapterHeader(w, a)
    && TrustAccepted(w, Roles(Issuers(p)), a.trusted.value, assessedAt)
    && BundlesOk(w, Issuers(p), w.digest(a.scope.value), a.trusted.value)
  }

  // ---------------------------------------------------------------- what it produces

  function ItemOf(items: seq<Item>, t: string): Option<Item> {
    if items == [] then None
    else if items[|items| - 1].evidenceType == Str(t) then Some(items[|items| - 1])
    else ItemOf(items[..|items| - 1], t)
  }

  function EntryOf(w: World, digest: string, role: string, b: Bundle, item: Item): Entry
    requires w.time(b.observedAt).Some?
  {
    Entry(true, item.code, item.evidenceType, Str(role), item.uri, item.sha256, Str(digest),
          Str(w.stamp(w.time(b.observedAt).value)), item.result, item.immutable, YES, YES)
  }

  /** The bundle item that answers for an evidence type. */
  function Evidence(w: World, p: Policy, a: AdapterPolicy, t: string): Option<(Bundle, Item)> {
    if a.trusted.None? || t !in Issuers(p) then None
    else match BundleOf(w, a.trusted.value, Issuers(p)[t])
      case None => None
      case Some(b) =>
        if b.evidence.None? || ItemOf(b.evidence.value, t).None? then None
        else Some((b, ItemOf(b.evidence.value, t).value))
  }

  function CatalogEntry(w: World, p: Policy, a: AdapterPolicy, t: string): Option<Entry> {
    match Evidence(w, p, a, t)
    case None => None
    case Some((b, item)) =>
      if a.scope.None? || w.time(b.observedAt).None? then None
      else Some(EntryOf(w, w.digest(a.scope.value), Issuers(p)[t], b, item))
  }

  /** One entry per evidence type, in type order. */
  predicate IsCatalog(w: World, p: Policy, a: AdapterPolicy, catalog: seq<Entry>) {
    var types := SortedOf(Issuers(p).Keys);
    |catalog| == |types| && forall k :: 0 <= k < |types| ==> CatalogEntry(w, p, a, types[k]) == Some(catalog[k])
  }

  predicate IsInput(w: World, p: Policy, a: AdapterPolicy, assessedAt: int, doc: Document) {
    && doc.exact && doc.schema == Str("psb-slsa-build-l2-assessment-input/v1") && doc.source == a.source
    && doc.assessedAt == Str(w.stamp(assessedAt)) && doc.scope == a.scope
    && doc.catalog.Some? && IsCatalog(w, p, a, doc.catalog.value)
  }

  // ---------------------------------------------------------------- the adapter as written

  method NormalizeIssuers(w: World, issuers: map<string, Json>) returns (r: Result<map<string, string>, Refused>)
    ensures r.Ok? <==> IssuersOk(w, issuers)
    ensures r.Ok? ==> r.value.Keys == issuers.Keys && forall t :: t in issuers ==> issuers[t] == Str(r.value[t])
  {
    var normalized: map<string, string>, left := map[], issuers.Keys;
    while left != {}
      invariant left <= issuers.Keys
      invariant forall t :: t in issuers && t !in left ==> w.code(t) && NonEmptyText(issuers[t])
      invariant normalized.Keys == issuers.Keys - left
      invariant forall t :: t in normalized ==> issuers[t] == Str(normalized[t])
      decreases |left|
    {
      var t :| t in left;
      if !w.code(t) || !NonEmptyText(issuers[t]) {
        return Err(Refused);
      }
      normalized, left := normalized[t := issuers[t].s], left - {t};
    }
    return Ok(normalized);
  }

  lemma NormalizedIssuers(p: Policy, normalized: map<string, string>)
    requires p.issuers.Some? && normalized.Keys == p.issuers.value.Keys
    requires forall t :: t in p.issuers.value ==> p.issuers.value[t] == Str(normalized[t])
    ensures normalized == Issuers(p)
    ensures TypeNames(p.issuers.value) == (set t | t in normalized :: Str(t))
  {
    var issuers := p.issuers.value;
    forall t ensures t in normalized <==> t in Issuers(p) {
      assert t in normalized <==> t in normalized.Keys;
      assert t in issuers <==> t in issuers.Keys;
    }
  }

  /** `require_assessment_policy`. */
  method RequireAssessmentPolicy(w: World, p: Policy) returns (r: Result<map<string, string>, Refused>)
    ensures r.Ok? <==> AdapterAccepts(w, p)
    ensures r.Ok? ==> r.value == Issuers(p)
  {
    hide HeaderOk, IssuersOk, ListsTypes, Referenced, TypeNames, Issuers;
    if !HeaderOk(p) || p.issuers.None? || p.requirements.None? || |p.requirements.value| != 7 {
      return Err(Refused);
    }
    var requirements := p.requirements.value;
    if exists i :: 0 <= i < |requirements| && !ListsTypes(requirements[i]) {
      return Err(Refused);
    }
    r := NormalizeIssuers(w, p.issuers.value);
    if r.Err? {
      return;
    }
    NormalizedIssuers(p, r.value);
    if Referenced(requirements) != (set t | t in r.value :: Str(t)) {
      return Err(Refused);
    }
  }

  ghost predicate TrustIndexed(index: map<string, TrustedBundle>, trusted: seq<TrustedBundle>) {
    && (forall role :: role in index <==> TrustOf(trusted, role).Some?)
    && forall role :: role in index ==> TrustOf(trusted, role) == Some(index[role])
  }

  lemma TrustStep(index: map<string, TrustedBundle>, trusted: seq<TrustedBundle>, t: TrustedBundle)
    requires TrustIndexed(index, trusted) && t.issuerRole.Str?
    ensures TrustIndexed(index[t.issuerRole.s := t], trusted + [t])
  {
    assert (trusted + [t])[..|trusted|] == trusted;
  }

  lemma {:induction false} TrustOfFinds(trusted: seq<TrustedBundle>, role: string)
    ensures TrustOf(trusted, role).Some? <==> Str(role) in TrustedRoles(trusted)
  {
    if trusted != [] {
      var init, last := trusted[..|trusted| - 1], trusted[|trusted| - 1];
      assert trusted == init + [last];
      TrustOfFinds(init, role);
      assert TrustedRoles(trusted) == TrustedRoles(init) + {last.issuerRole} by {
        forall x | x in TrustedRoles(trusted) ensures x in TrustedRoles(init) + {last.issuerRole} {
          var i :| 0 <= i < |trusted| && trusted[i].issuerRole == x;
          if i < |init| {
            assert init[i].issuerRole == x;
          }
        }
        forall x | x in TrustedRoles(init) ensures x in TrustedRoles(trusted) {
          var i :| 0 <= i < |init| && init[i].issuerRole == x;
          assert trusted[i].issuerRole == x;
        }
        assert trusted[|init|].issuerRole == last.issuerRole;
      }
    }
  }

  lemma DistinctRolesStep(trusted: seq<TrustedBundle>, n: nat)
    requires n < |trusted|
    ensures DistinctRoles(trusted[..n + 1])
            <==> DistinctRoles(trusted[..n]) && trusted[n].issuerRole !in TrustedRoles(trusted[..n])
  {
    var before, now := trusted[..n], trusted[..n + 1];
    assert forall i :: 0 <= i < n ==> before[i] == now[i];
    if DistinctRoles(now) {
      forall i | 0 <= i < n ensures before[i].issuerRole != trusted[n].issuerRole {
        assert now[i].issuerRole != now[n].issuerRole;
      }
    }
  }

  lemma DistinctRolesPrefix(trusted: seq<TrustedBundle>, n: nat)
    requires n <= |trusted|
    ensures DistinctRoles(trusted) ==> DistinctRoles(trusted[..n])
  {
  }

  /** The trust loop. */
  method IndexTrust(w: World, roles: set<string>, trusted: seq<TrustedBundle>, assessedAt: int)
    returns (r: Result<map<string, TrustedBundle>, Refused>)
    ensures r.Ok? <==> TrustAccepted(w, roles, trusted, assessedAt)
    ensures r.Ok? ==> TrustIndexed(r.value, trusted)
  {
    hide TrustOk, DistinctRoles, TrustIndexed, TrustOf, TrustedRoles;
    var index: map<string, TrustedBundle> := map[];
    assert TrustIndexed(map[], []) && DistinctRoles([]) by { NoTrust(); }
    assert trusted[..0] == [];
    for i := 0 to |trusted|
      invariant forall k :: 0 <= k < i ==> TrustOk(w, roles, trusted[k], assessedAt)
      invariant TrustIndexed(index, trusted[..i]) && DistinctRoles(trusted[..i])
    {
      var t := trusted[i];
      DistinctRolesStep(trusted, i);
      DistinctRolesPrefix(trusted, i + 1);
      assert trusted[..i + 1] == trusted[..i] + [t];
      if !TrustOk(w, roles, t, assessedAt) {
        return Err(Refused);
      }
      TrustOkRole(w, roles, t, assessedAt);
      IndexedRole(index, trusted[..i], t.issuerRole.s);
      if t.issuerRole.s in index {
        return Err(Refused);
      }
      TrustStep(index, trusted[..i], t);
      index := index[t.issuerRole.s := t];
    }
    assert trusted[..|trusted|] == trusted;
    forall role ensures role in index <==> Str(role) in TrustedRoles(trusted) {
      IndexedRole(index, trusted, role);
    }
    if exists role :: role in roles && role !in index {
      return Err(Refused);
    }
    return Ok(index);
  }

  lemma NoTrust()
    ensures TrustIndexed(map[], []) && DistinctRoles([])
  {
  }

  lemma TrustOkRole(w: World, roles: set<string>, t: TrustedBundle, assessedAt: int)
    requires TrustOk(w, roles, t, assessedAt)
    ensures t.issuerRole.Str?
  {
  }

  lemma IndexedRole(index: map<string, TrustedBundle>, trusted: seq<TrustedBundle>, role: string)
    requires TrustIndexed(index, trusted)
    ensures role in index <==> Str(role) in TrustedRoles(trusted)
  {
    TrustOfFinds(trusted, role);
  }

  // ---------------------------------------------------------------- one bundle

  lemma ItemTypesSnoc(items: seq<Item>, last: Item)
    ensures ItemTypes(items + [last]) == ItemTypes(items) + {last.evidenceType}
  {
    var all := items + [last];
    assert forall i :: 0 <= i < |items| ==> all[i] == items[i];
    forall x | x in ItemTypes(items) ensures x in ItemTypes(all) {
      var i :| 0 <= i < |items| && items[i].evidenceType == x;
      assert all[i].evidenceType == x;
    }
    assert all[|items|].evidenceType == last.evidenceType;
  }

  lemma {:induction false} ItemOfFinds(items: seq<Item>, t: string)
    ensures ItemOf(items, t).Some? <==> Str(t) in ItemTypes(items)
    ensures ItemOf(items, t).Some? ==> exists i :: 0 <= i < |items| && items[i] == ItemOf(items, t).value
                                                   && items[i].evidenceType == Str(t)
  {
    if items != [] {
      var init, last := items[..|items| - 1], items[|items| - 1];
      assert items == init + [last];
      ItemTypesSnoc(init, last);
      ItemOfFinds(init, t);
      if last.evidenceType == Str(t) {
        assert items[|init|].evidenceType == Str(t);
      } else if ItemOf(init, t).Some? {
        var i :| 0 <= i < |init| && init[i] == ItemOf(init, t).value && init[i].evidenceType == Str(t);
        assert items[i] == init[i];
      }
    }
  }

  lemma DistinctTypesStep(items: seq<Item>, n: nat)
    requires n < |items|
    ensures DistinctTypes(items[..n + 1])
            <==> DistinctTypes(items[..n]) && items[n].evidenceType !in ItemTypes(items[..n])
  {
    var before, now := items[..n], items[..n + 1];
    assert forall i :: 0 <= i < n ==> before[i] == now[i];
    if DistinctTypes(now) {
      forall i | 0 <= i < n ensures before[i].evidenceType != items[n].evidenceType {
        assert now[i].evidenceType != now[n].evidenceType;
      }
    }
  }

  lemma DistinctTypesPrefix(items: seq<Item>, n: nat)
    requires n <= |items|
    ensures DistinctTypes(items) ==> DistinctTypes(items[..n])
  {
  }

  /** The catalog so far: what was there before, and an entry for each of the bundle's items. */
  ghost predicate Added(w: World, before: map<string, Entry>, catalog: map<string, Entry>, digest: string, role: string,
                        b: Bundle, items: seq<Item>)
  {
    && w.time(b.observedAt).Some?
    && (forall t :: t in catalog <==> t in before || ItemOf(items, t).Some?)
    && forall t :: t in catalog ==>
        catalog[t] == if ItemOf(items, t).Some? then EntryOf(w, digest, role, b, ItemOf(items, t).value)
                      else if t in before then before[t] else catalog[t]
  }

  lemma AddStep(w: World, before: map<string, Entry>, catalog: map<string, Entry>, digest: string, role: string,
                b: Bundle, items: seq<Item>, item: Item)
    requires Added(w, before, catalog, digest, role, b, items) && item.evidenceType.Str?
    ensures w.time(b.observedAt).Some?
    ensures Added(w, before, catalog[item.evidenceType.s := EntryOf(w, digest, role, b, item)], digest, role, b,
                  items + [item])
  {
    hide EntryOf;
    assert (items + [item])[..|items|] == items;
  }

  lemma AddNothing(w: World, before: map<string, Entry>, digest: string, role: string, b: Bundle)
    requires w.time(b.observedAt).Some?
    ensures Added(w, before, before, digest, role, b, []) && DistinctTypes([])
  {
  }

  lemma ItemOkText(w: World, item: Item, expected: set<string>)
    requires ItemOk(w, item, expected)
    ensures item.evidenceType.Str? && item.evidenceType.s in expected
  {
  }

  lemma InCatalog(w: World, before: map<string, Entry>, catalog: map<string, Entry>, digest: string, role: string,
                  b: Bundle, items: seq<Item>, t: string)
    requires Added(w, before, catalog, digest, role, b, items)
    ensures t in catalog <==> t in before || Str(t) in ItemTypes(items)
  {
    ItemOfFinds(items, t);
  }

  /** The item loop: `catalog_by_type` and `codes` grow; a role's types are new to both. */
  method AddItems(w: World, expected: set<string>, digest: string, role: string, b: Bundle, before: map<string, Entry>)
    returns (r: Result<map<string, Entry>, Refused>)
    requires BundleHeader(w, digest, role, b)
    requires expected * before.Keys == {}
    ensures r.Ok? <==> ItemsAccepted(w, b.evidence.value, expected)
                       && forall t :: t in expected ==> Str(t) in ItemTypes(b.evidence.value)
    ensures r.Ok? ==> Added(w, before, r.value, digest, role, b, b.evidence.value)
  {
    hide ItemOk, DistinctTypes, Added, ItemTypes, EntryOf;
    var items := b.evidence.value;
    var catalog, actual, codes := before, {}, before.Keys;
    AddNothing(w, before, digest, role, b);
    assert items[..0] == [];
    for i := 0 to |items|
      invariant forall k :: 0 <= k < i ==> ItemOk(w, items[k], expected)
      invariant Added(w, before, catalog, digest, role, b, items[..i]) && DistinctTypes(items[..i])
      invariant actual <= expected && codes == catalog.Keys == before.Keys + actual
    {
      var item := items[i];
      assert items[..i + 1] == items[..i] + [item];
      DistinctTypesStep(items, i);
      DistinctTypesPrefix(items, i + 1);
      if !ItemOk(w, item, expected) {
        return Err(Refused);
      }
      ItemOkText(w, item, expected);
      var t := item.evidenceType.s;
      InCatalog(w, before, catalog, digest, role, b, items[..i], t);
      if t in actual || t in catalog || t in codes {
        assert t !in before.Keys by {
          assert t in expected * before.Keys ==> t in {};
        }
        return Err(Refused);
      }
      AddStep(w, before, catalog, digest, role, b, items[..i], item);
      actual, codes := actual + {t}, codes + {t};
      catalog := catalog[t := EntryOf(w, digest, role, b, item)];
    }
    assert items[..|items|] == items;
    forall t | t in expected ensures t in actual <==> Str(t) in ItemTypes(items) {
      InCatalog(w, before, catalog, digest, role, b, items, t);
      assert t in before.Keys ==> t in expected * before.Keys;
    }
    if actual != expected {
      return Err(Refused);
    }
    return Ok(catalog);
  }

  // ---------------------------------------------------------------- the whole catalog

  /** The entries of the roles handled so far. */
  ghost predicate Assembled(w: World, p: Policy, a: AdapterPolicy, roles: seq<string>, catalog: map<string, Entry>) {
    && (forall t :: t in catalog <==> t in Issuers(p) && Issuers(p)[t] in roles)
    && forall t :: t in catalog ==> CatalogEntry(w, p, a, t) == Some(catalog[t])
  }

  lemma NothingAssembled(w: World, p: Policy, a: AdapterPolicy)
    ensures Assembled(w, p, a, [], map[])
  {
  }

  lemma RoleIsNew(w: World, p: Policy, a: AdapterPolicy, roles: seq<string>, catalog: map<string, Entry>, role: string)
    requires Assembled(w, p, a, roles, catalog) && role !in roles
    ensures Expected(Issuers(p), role) * catalog.Keys == {}
  {
  }

  lemma AssembleRole(w: World, p: Policy, a: AdapterPolicy, roles: seq<string>, before: map<string, Entry>,
                     catalog: map<string, Entry>, role: string, b: Bundle)
    requires Assembled(w, p, a, roles, before) && role !in roles
    requires a.trusted.Some? && a.scope.Some? && b.evidence.Some?
    requires BundleOf(w, a.trusted.value, role) == Some(b)
    requires BundleOk(w, Issuers(p), w.digest(a.scope.value), role, b)
    requires Added(w, before, catalog, w.digest(a.scope.value), role, b, b.evidence.value)
    ensures Assembled(w, p, a, roles + [role], catalog)
  {
    hide BundleOk, BundleOf, CatalogEntry, ItemOf, EntryOf;
    var items := b.evidence.value;
    forall t ensures ItemOf(items, t).Some? <==> t in Issuers(p) && Issuers(p)[t] == role {
      BundleTypes(w, Issuers(p), w.digest(a.scope.value), role, b, t);
    }
    forall t | t in catalog ensures CatalogEntry(w, p, a, t) == Some(catalog[t]) {
      if ItemOf(items, t).Some? {
        EntryFromBundle(w, p, a, t, role, b);
      }
    }
  }

  lemma BundleTypes(w: World, issuers: map<string, string>, digest: string, role: string, b: Bundle, t: string)
    requires BundleOk(w, issuers, digest, role, b)
    ensures ItemOf(b.evidence.value, t).Some? <==> t in issuers && issuers[t] == role
  {
    hide ItemOf, DistinctTypes;
    var items := b.evidence.value;
    ItemOfFinds(items, t);
    if Str(t) in ItemTypes(items) {
      var i :| 0 <= i < |items| && items[i].evidenceType == Str(t);
      ItemOkText(w, items[i], Expected(issuers, role));
    }
  }

  lemma EntryFromBundle(w: World, p: Policy, a: AdapterPolicy, t: string, role: string, b: Bundle)
    requires a.trusted.Some? && a.scope.Some? && b.evidence.Some? && w.time(b.observedAt).Some?
    requires t in Issuers(p) && Issuers(p)[t] == role && BundleOf(w, a.trusted.value, role) == Some(b)
    requires ItemOf(b.evidence.value, t).Some?
    ensures Evidence(w, p, a, t) == Some((b, ItemOf(b.evidence.value, t).value))
    ensures CatalogEntry(w, p, a, t)
         == Some(EntryOf(w, w.digest(a.scope.value), role, b, ItemOf(b.evidence.value, t).value))
  {
    hide BundleOf, ItemOf, EntryOf, Issuers;
  }

  lemma RolesInOrder(roles: set<string>, k: nat)
    requires k < |SortedOf(roles)|
    ensures SortedOf(roles)[k] !in SortedOf(roles)[..k] && SortedOf(roles)[k] in roles
  {
    SortedOfAscends(roles);
    LessTotal(SortedOf(roles)[k], SortedOf(roles)[k]);
    forall j | 0 <= j < k ensures SortedOf(roles)[j] != SortedOf(roles)[k] {
      assert Less(SortedOf(roles)[j], SortedOf(roles)[k]);
    }
    assert SortedOf(roles)[k] in SortedOf(roles);
  }

  /** The trusted bundle of a role, once the trust index is built. */
  method LoadBundle(w: World, p: Policy, a: AdapterPolicy, index: map<string, TrustedBundle>, role: string,
                    before: map<string, Entry>)
    returns (r: Result<map<string, Entry>, Refused>)
    requires a.trusted.Some? && a.scope.Some? && TrustIndexed(index, a.trusted.value) && role in index
    requires index[role].sha256.Str?
    requires Expected(Issuers(p), role) * before.Keys == {}
    ensures var loaded := BundleOf(w, a.trusted.value, role);
            && (r.Ok? <==> loaded.Some? && BundleOk(w, Issuers(p), w.digest(a.scope.value), role, loaded.value))
            && (r.Ok? ==> loaded.value.evidence.Some?)
            && (r.Ok? ==> Added(w, before, r.value, w.digest(a.scope.value), role, loaded.value,
                                loaded.value.evidence.value))
  {
    hide ItemsAccepted, ItemTypes, Added, TrustOf;
    var trust := index[role];
    var digest := w.digest(a.scope.value);
    assert TrustOf(a.trusted.value, role) == Some(trust);
    if !NonEmptyText(trust.path) || w.bundle(trust.path.s, trust.sha256.s, role).None? {
      return Err(Refused);
    }
    var b := w.bundle(trust.path.s, trust.sha256.s, role).value;
    if !BundleHeader(w, digest, role, b) {
      return Err(Refused);
    }
    r := AddItems(w, Expected(Issuers(p), role), digest, role, b, before);
  }

  lemma IndexedDigest(w: World, roles: set<string>, trusted: seq<TrustedBundle>, assessedAt: int,
                      index: map<string, TrustedBundle>, role: string)
    requires TrustAccepted(w, roles, trusted, assessedAt) && TrustIndexed(index, trusted) && role in roles
    ensures role in index && index[role].sha256.Str?
  {
    hide DistinctRoles;
    IndexedRole(index, trusted, role);
    TrustOfMember(trusted, role);
  }

  lemma {:induction false} TrustOfMember(trusted: seq<TrustedBundle>, role: string)
    ensures TrustOf(trusted, role).Some? ==> exists i :: 0 <= i < |trusted| && trusted[i] == TrustOf(trusted, role).value
  {
    if trusted != [] && trusted[|trusted| - 1].issuerRole != Str(role) {
      var init := trusted[..|trusted| - 1];
      TrustOfMember(init, role);
      if TrustOf(init, role).Some? {
        var i :| 0 <= i < |init| && init[i] == TrustOf(init, role).value;
        assert trusted[i] == init[i];
      }
    }
  }

  /** `build_catalog`: the assessment input, or a refusal. */
  method BuildCatalog(w: World, p: Policy, a: AdapterPolicy, assessedAt: int) returns (r: Result<Document, Refused>)
    ensures r.Ok? <==> BuildAccepted(w, p, a, assessedAt)
    ensures r.Ok? ==> IsInput(w, p, a, assessedAt, r.value)
  {
    hide AdapterAccepts, AdapterHeader, TrustAccepted, TrustIndexed, BundleOk, BundleOf, Issuers, Assembled, Added,
         SortedOf, CatalogEntry, Expected;
    var policy := RequireAssessmentPolicy(w, p);
    if policy.Err? {
      return Err(Refused);
    }
    var issuers, roles := policy.value, Roles(policy.value);
    if !AdapterHeader(w, a) {
      return Err(Refused);
    }
    HeaderParts(w, a);
    var digest := w.digest(a.scope.value);
    var trust := IndexTrust(w, roles, a.trusted.value, assessedAt);
    if trust.Err? {
      return Err(Refused);
    }
    var ordered, catalog := SortedOf(roles), map[];
    NothingAssembled(w, p, a);
    assert ordered[..0] == [];
    for k := 0 to |ordered|
      invariant Assembled(w, p, a, ordered[..k], catalog)
      invariant forall j :: 0 <= j < k ==> RoleLoads(w, p, a, ordered[j])
    {
      var role := ordered[k];
      RolesInOrder(roles, k);
      RoleIsNew(w, p, a, ordered[..k], catalog, role);
      IndexedDigest(w, roles, a.trusted.value, assessedAt, trust.value, role);
      var loaded := LoadBundle(w, p, a, trust.value, role, catalog);
      if loaded.Err? {
        assert !RoleLoads(w, p, a, role);
        return Err(Refused);
      }
      var b := BundleOf(w, a.trusted.value, role).value;
      AssembleRole(w, p, a, ordered[..k], catalog, loaded.value, role, b);
      assert ordered[..k + 1] == ordered[..k] + [role];
      catalog := loaded.value;
    }
    assert ordered[..|ordered|] == ordered;
    RolesLoad(w, p, a, ordered);
    var entries := ListCatalog(w, p, a, catalog, ordered);
    return Ok(Document(true, Str("psb-slsa-build-l2-assessment-input/v1"), a.source, Str(w.stamp(assessedAt)),
                       a.scope, Some(entries)));
  }

  lemma HeaderParts(w: World, a: AdapterPolicy)
    requires AdapterHeader(w, a)
    ensures a.trusted.Some? && a.scope.Some?
  {
  }

  ghost predicate RoleLoads(w: World, p: Policy, a: AdapterPolicy, role: string)
    requires a.trusted.Some? && a.scope.Some?
  {
    && BundleOf(w, a.trusted.value, role).Some?
    && BundleOk(w, Issuers(p), w.digest(a.scope.value), role, BundleOf(w, a.trusted.value, role).value)
  }

  lemma RolesLoad(w: World, p: Policy, a: AdapterPolicy, ordered: seq<string>)
    requires a.trusted.Some? && a.scope.Some?
    requires forall role :: role in ordered <==> role in Roles(Issuers(p))
    requires forall j :: 0 <= j < |ordered| ==> RoleLoads(w, p, a, ordered[j])
    ensures BundlesOk(w, Issuers(p), w.digest(a.scope.value), a.trusted.value)
  {
    hide BundleOf, BundleOk, Roles, Issuers;
    forall role | role in Roles(Issuers(p)) ensures RoleLoads(w, p, a, role) {
      assert role in ordered;
    }
  }

  /** Every issuer type has its entry; they are listed in type order. */
  method ListCatalog(w: World, p: Policy, a: AdapterPolicy, catalog: map<string, Entry>, ghost roles: seq<string>)
    returns (entries: seq<Entry>)
    requires Assembled(w, p, a, roles, catalog)
    requires forall role :: role in roles <==> role in Roles(Issuers(p))
    ensures IsCatalog(w, p, a, entries)
  {
    hide CatalogEntry, Issuers, SortedOf;
    assert catalog.Keys == Issuers(p).Keys;
    var types := SortedOf(catalog.Keys);
    entries := [];
    for k := 0 to |types|
      invariant |entries| == k
      invariant forall j :: 0 <= j < k ==> CatalogEntry(w, p, a, types[j]) == Some(entries[j])
    {
      assert types[k] in types;
      entries := entries + [catalog[types[k]]];
    }
  }
}
