// Python's `sorted(items, key=...)`: a stable sort by a string key.
module StableSort {
  import opened PyStrings

  function Insert<T>(key: T -> string, x: T, s: seq<T>): (r: seq<T>)
    ensures multiset(r) == multiset([x]) + multiset(s)
  {
    if s == [] || !Less(key(s[0]), key(x)) then [x] + s
    else
      assert s == [s[0]] + s[1..];
      [s[0]] + Insert(key, x, s[1..])
  }

  function Sort<T>(key: T -> string, s: seq<T>): (r: seq<T>)
    ensures multiset(r) == multiset(s)
    ensures |r| == |s|
  {
    if s == [] then []
    else
      assert s == [s[0]] + s[1..];
      var r := Insert(key, s[0], Sort(key, s[1..]));
      assert |multiset(r)| == |multiset(s)|;
      r
  }

  ghost predicate SortedBy<T(!new)>(key: T -> string, s: seq<T>) {
    forall i, j :: 0 <= i < j < |s| ==> !Less(key(s[j]), key(s[i]))
  }

  /** No two positions carry the same key. */
  ghost predicate DistinctBy<T(!new)>(key: T -> string, s: seq<T>) {
    forall i, j :: 0 <= i < j < |s| ==> key(s[i]) != key(s[j])
  }

  lemma SameMembers<T>(s: seq<T>, t: seq<T>)
    requires multiset(s) == multiset(t)
    ensures forall x :: x in s <==> x in t
    ensures |s| == |t|
  {
    forall x ensures x in s <==> x in t {
      assert x in multiset(s) <==> x in multiset(t);
    }
    assert |multiset(s)| == |multiset(t)|;
  }

  lemma {:induction false} InsertSorted<T(!new)>(key: T -> string, x: T, s: seq<T>)
    requires SortedBy(key, s)
    ensures SortedBy(key, Insert(key, x, s))
  {
    hide Less;
    var r := Insert(key, x, s);
    if s == [] {
    } else if !Less(key(s[0]), key(x)) {
      forall i, j | 0 <= i < j < |r| ensures !Less(key(r[j]), key(r[i])) {
        if i == 0 && j > 1 {
          assert !Less(key(s[j - 1]), key(s[0]));
          NotLessTransitive(key(x), key(s[0]), key(s[j - 1]));
        } else if i > 0 {
          assert r[i] == s[i - 1] && r[j] == s[j - 1];
        }
      }
    } else {
      InsertSorted(key, x, s[1..]);
      var rest := Insert(key, x, s[1..]);
      forall i, j | 0 <= i < j < |r| ensures !Less(key(r[j]), key(r[i])) {
        if i == 0 {
          assert rest[j - 1] in multiset(rest);
          assert rest[j - 1] == x || rest[j - 1] in s[1..];
          LessTotal(key(s[0]), key(x));
        }
      }
    }
  }

  lemma NotLessTransitive(a: string, b: string, c: string)
    requires !Less(b, a) && !Less(c, b)
    ensures !Less(c, a)
  {
    if Less(c, a) {
      LessTotal(a, b);
      if Less(a, b) {
        LessTransitive(c, a, b);
      }
    }
  }

  lemma {:induction false} SortSorts<T(!new)>(key: T -> string, s: seq<T>)
    ensures SortedBy(key, Sort(key, s))
  {
    if s != [] {
      SortSorts(key, s[1..]);
      InsertSorted(key, s[0], Sort(key, s[1..]));
    }
  }

  lemma LeastFirst<T(!new)>(key: T -> string, s: seq<T>, t: seq<T>)
    requires SortedBy(key, s) && SortedBy(key, t) && DistinctBy(key, t)
    requires s != [] && t != [] && s[0] in t && t[0] in s
    ensures s[0] == t[0]
  {
    LeastKey(key, s, t[0]);
    LeastKey(key, t, s[0]);
    LessTotal(key(s[0]), key(t[0]));
    DistinctCounts(key, t);
  }

  lemma LeastKey<T(!new)>(key: T -> string, s: seq<T>, x: T)
    requires SortedBy(key, s) && x in s
    ensures !Less(key(x), key(s[0]))
  {
    var j :| 0 <= j < |s| && s[j] == x;
    if j == 0 {
      LessTotal(key(x), key(x));
    } else {
      assert !Less(key(s[j]), key(s[0]));
    }
  }

  /** With distinct keys, a sorted arrangement of the same items is unique. */
  lemma {:induction false} SortedUnique<T(!new)>(key: T -> string, s: seq<T>, t: seq<T>)
    requires SortedBy(key, s) && SortedBy(key, t)
    requires DistinctBy(key, s) && DistinctBy(key, t)
    requires multiset(s) == multiset(t)
    ensures s == t
  {
    SameMembers(s, t);
    if s != [] {
      assert s[0] in t && t[0] in s;
      LeastFirst(key, s, t);
      SameTail(s, t);
      SortedUnique(key, s[1..], t[1..]);
      assert s == [s[0]] + s[1..] && t == [t[0]] + t[1..];
    }
  }

  lemma SameTail<T>(s: seq<T>, t: seq<T>)
    requires s != [] && t != [] && s[0] == t[0] && multiset(s) == multiset(t)
    ensures multiset(s[1..]) == multiset(t[1..])
  {
    assert s == [s[0]] + s[1..] && t == [t[0]] + t[1..];
    assert multiset(s[1..]) == multiset(s) - multiset([s[0]]);
    assert multiset(t[1..]) == multiset(t) - multiset([t[0]]);
  }

  lemma {:induction false} DistinctCounts<T(!new)>(key: T -> string, s: seq<T>)
    requires DistinctBy(key, s)
    ensures forall x :: x in s ==> multiset(s)[x] == 1
    ensures forall x, y :: x in s && y in s && key(x) == key(y) ==> x == y
  {
    if s != [] {
      assert s == [s[0]] + s[1..];
      DistinctCounts(key, s[1..]);
      assert forall i :: 1 <= i < |s| ==> key(s[0]) != key(s[i]);
      assert s[0] !in s[1..];
    }
  }

  lemma TwoCopies<T>(t: seq<T>, i: int, j: int)
    requires 0 <= i < j < |t| && t[i] == t[j]
    ensures multiset(t)[t[i]] >= 2
  {
    assert t == t[..j] + t[j..];
    assert t[..j][i] in multiset(t[..j]) && t[j..][0] in multiset(t[j..]);
  }

  lemma DistinctSpread<T(!new)>(key: T -> string, s: seq<T>, t: seq<T>)
    requires DistinctBy(key, s) && multiset(s) == multiset(t)
    ensures DistinctBy(key, t)
  {
    SameMembers(s, t);
    DistinctCounts(key, s);
    forall i, j | 0 <= i < j < |t| ensures key(t[i]) != key(t[j]) {
      assert t[i] in s && t[j] in s;
      if t[i] == t[j] {
        TwoCopies(t, i, j);
      }
    }
  }

  /** Sorting forgets the input order when keys are distinct. */
  lemma SortPermutation<T(!new)>(key: T -> string, s: seq<T>, t: seq<T>)
    requires multiset(s) == multiset(t) && DistinctBy(key, s)
    ensures Sort(key, s) == Sort(key, t)
    ensures DistinctBy(key, Sort(key, s))
  {
    SortSorts(key, s);
    SortSorts(key, t);
    DistinctSpread(key, s, Sort(key, s));
    DistinctSpread(key, s, Sort(key, t));
    SortedUnique(key, Sort(key, s), Sort(key, t));
  }

  function Identity(s: string): string { s }

  /** `sorted(xs)` on strings. */
  function SortStrings(s: seq<string>): (r: seq<string>)
    ensures multiset(r) == multiset(s) && |r| == |s|
  {
    Sort(Identity, s)
  }

  ghost predicate Ascending(s: seq<string>) {
    forall i, j :: 0 <= i < j < |s| ==> Less(s[i], s[j])
  }

  predicate IsLeast(x: string, s: set<string>) {
    x in s && forall y :: y in s ==> !Less(y, x)
  }

  lemma {:induction false} LeastExists(s: set<string>)
    requires s != {}
    ensures exists x :: IsLeast(x, s)
    decreases |s|
  {
    hide Less;
    var x :| x in s;
    LessTotal(x, x);
    if s == {x} {
      assert IsLeast(x, s);
    } else {
      assert s - {x} != {} by {
        assert s == s - {x} + {x};
      }
      LeastExists(s - {x});
      var y :| IsLeast(y, s - {x});
      if Less(x, y) {
        forall z | z in s ensures !Less(z, x) {
          if z != x {
            LessTotal(x, y);
            NotLessTransitive(x, y, z);
          }
        }
        assert IsLeast(x, s);
      } else {
        assert IsLeast(y, s);
      }
    }
  }

  lemma LeastUnique(x: string, y: string, s: set<string>)
    requires IsLeast(x, s) && IsLeast(y, s)
    ensures x == y
  {
    LessTotal(x, y);
  }

  /** `sorted(s)` of a set of strings. */
  function SortedOf(s: set<string>): (r: seq<string>)
    ensures |r| == |s|
    ensures forall x :: x in r <==> x in s
    decreases |s|
  {
    if s == {} then []
    else
      LeastExists(s);
      assert forall x, y :: IsLeast(x, s) && IsLeast(y, s) ==> x == y by {
        forall x, y | IsLeast(x, s) && IsLeast(y, s) ensures x == y {
          LeastUnique(x, y, s);
        }
      }
      var x :| IsLeast(x, s);
      [x] + SortedOf(s - {x})
  }

  lemma SortedOfLeast(s: set<string>)
    requires s != {}
    ensures IsLeast(SortedOf(s)[0], s) && SortedOf(s) == [SortedOf(s)[0]] + SortedOf(s - {SortedOf(s)[0]})
  {
  }

  lemma {:induction false} SortedOfAscends(s: set<string>)
    ensures Ascending(SortedOf(s))
    decreases |s|
  {
    hide Less, SortedOf;
    if s != {} {
      var x, rest := SortedOf(s)[0], SortedOf(s - {SortedOf(s)[0]});
      SortedOfLeast(s);
      SortedOfAscends(s - {x});
      forall k | 0 <= k < |rest| ensures Less(x, rest[k]) {
        assert rest[k] in rest;
        LessTotal(x, rest[k]);
      }
      assert SortedOf(s) == [x] + rest;
    }
  }
}
