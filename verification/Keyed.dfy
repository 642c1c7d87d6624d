// `{key(item): item for item in items if isinstance(key(item), str)}` and the length test that
// the programs use to reject missing or duplicated identities.
module Keyed {
  import opened Json

  /** The last item of each text key. */
  function ByKey<T>(key: T -> Json, items: seq<T>): (m: map<Json, T>)
    ensures forall k :: k in m ==> k.Str? && m[k] in items && key(m[k]) == k
    ensures forall i :: 0 <= i < |items| && key(items[i]).Str? ==> key(items[i]) in m
  {
    if items == [] then map[]
    else
      var last := items[|items| - 1];
      var before := ByKey(key, items[..|items| - 1]);
      if key(last).Str? then before[key(last) := last] else before
  }

  lemma {:induction false} ByKeySlice<T>(key: T -> Json, items: seq<T>, i: nat)
    requires i < |items|
    ensures ByKey(key, items[..i + 1])
         == if key(items[i]).Str? then ByKey(key, items[..i])[key(items[i]) := items[i]] else ByKey(key, items[..i])
  {
    assert items[..i + 1][..i] == items[..i];
  }

  ghost predicate Identified<T(!new)>(key: T -> Json, items: seq<T>) {
    && (forall i :: 0 <= i < |items| ==> key(items[i]).Str?)
    && forall i, j :: 0 <= i < j < |items| ==> key(items[i]) != key(items[j])
  }

  lemma IdentifiedSnoc<T(!new)>(key: T -> Json, items: seq<T>, last: T)
    ensures Identified(key, items + [last])
       <==> (Identified(key, items) && key(last).Str? && forall i :: 0 <= i < |items| ==> key(items[i]) != key(last))
  {
    var all := items + [last];
    assert forall i :: 0 <= i < |items| ==> all[i] == items[i];
    assert all[|items|] == last;
    if Identified(key, all) {
      forall i | 0 <= i < |items| ensures key(items[i]).Str? && key(items[i]) != key(last) {
        assert key(all[i]) != key(all[|items|]);
      }
      forall i, j | 0 <= i < j < |items| ensures key(items[i]) != key(items[j]) {
        assert key(all[i]) != key(all[j]);
      }
    }
  }

  /** As many keys as items exactly when every identity is text and none repeats. */
  lemma {:induction false} ByKeyCount<T(!new)>(key: T -> Json, items: seq<T>)
    ensures |ByKey(key, items)| <= |items|
    ensures |ByKey(key, items)| == |items| <==> Identified(key, items)
  {
    if items != [] {
      hide Identified;
      var last, init := items[|items| - 1], items[..|items| - 1];
      assert items == init + [last];
      ByKeyCount(key, init);
      IdentifiedSnoc(key, init, last);
      var before := ByKey(key, init);
      if key(last).Str? {
        assert ByKey(key, items).Keys == before.Keys + {key(last)};
        if key(last) in before {
          assert ByKey(key, items).Keys == before.Keys;
          var i :| 0 <= i < |init| && init[i] == before[key(last)];
        } else {
          AllText(key, init);
        }
      }
    } else {
      NothingIdentified(key);
    }
  }

  lemma NothingIdentified<T(!new)>(key: T -> Json)
    ensures Identified<T>(key, [])
  {
  }

  lemma AllText<T(!new)>(key: T -> Json, items: seq<T>)
    ensures Identified(key, items) ==> forall i :: 0 <= i < |items| ==> key(items[i]).Str?
  {
  }

  /** With distinct identities the dictionary holds each item under its own key. */
  lemma {:induction false} ByKeyHolds<T(!new)>(key: T -> Json, items: seq<T>)
    requires Identified(key, items)
    ensures forall i :: 0 <= i < |items| ==> key(items[i]) in ByKey(key, items) && ByKey(key, items)[key(items[i])] == items[i]
  {
    var m := ByKey(key, items);
    forall i | 0 <= i < |items| ensures key(items[i]) in m && m[key(items[i])] == items[i] {
      var j :| 0 <= j < |items| && items[j] == m[key(items[i])];
      assert key(items[j]) == key(items[i]);
    }
  }
}
