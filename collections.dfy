/** The array idioms the views use on their lists: `filter`, `map` with a
    conditional merge, `reduce` to a sum, `Math.max(0, ...ids) + 1` for a
    new id, and `slice(0, n)`. */
module Collections {

  /** `s.filter(p)`. */
  function Filter<T>(s: seq<T>, p: T -> bool): (r: seq<T>)
    ensures |r| <= |s|
    ensures forall i :: 0 <= i < |r| ==> r[i] in s && p(r[i])
    ensures forall i :: 0 <= i < |s| && p(s[i]) ==> s[i] in r
    decreases |s|
  {
    if s == [] then []
    else if p(s[0]) then [s[0]] + Filter(s[1..], p)
    else Filter(s[1..], p)
  }

  lemma {:induction false} FilterAppend<T>(a: seq<T>, b: seq<T>, p: T -> bool)
    ensures Filter(a + b, p) == Filter(a, p) + Filter(b, p)
    decreases |a|
  {
    if a != [] {
      FilterAppend(a[1..], b, p);
      assert (a + b)[0] == a[0] && (a + b)[1..] == a[1..] + b;
    } else {
      assert a + b == b;
    }
  }

  /** A filter that keeps every element changes nothing. */
  lemma {:induction false} FilterAll<T>(s: seq<T>, p: T -> bool)
    requires forall i :: 0 <= i < |s| ==> p(s[i])
    ensures Filter(s, p) == s
    decreases |s|
  {
    if s != [] {
      FilterAll(s[1..], p);
      assert [s[0]] + s[1..] == s;
    }
  }

  /** The sum of `f` over `s`, as `reduce((acc, x) => acc + f(x), 0)`. */
  function SumOf<T>(s: seq<T>, f: T -> int): int
    decreases |s|
  {
    if s == [] then 0 else SumOf(s[..|s| - 1], f) + f(s[|s| - 1])
  }

  lemma {:induction false} SumAppend<T>(a: seq<T>, b: seq<T>, f: T -> int)
    ensures SumOf(a + b, f) == SumOf(a, f) + SumOf(b, f)
    decreases |b|
  {
    if b == [] {
      assert a + b == a;
    } else {
      SumAppend(a, b[..|b| - 1], f);
      assert (a + b)[..|a + b| - 1] == a + b[..|b| - 1];
    }
  }

  /** The sum over a prefix grows by one element at a time. */
  lemma SumPrefixStep<T>(s: seq<T>, k: nat, f: T -> int)
    requires k < |s|
    ensures SumOf(s[..k + 1], f) == SumOf(s[..k], f) + f(s[k])
  {
    assert s[..k + 1][..k] == s[..k];
  }

  lemma {:induction false} SumNonNegative<T>(s: seq<T>, f: T -> int)
    requires forall i :: 0 <= i < |s| ==> f(s[i]) >= 0
    ensures SumOf(s, f) >= 0
    decreases |s|
  {
    if s != [] {
      SumNonNegative(s[..|s| - 1], f);
    }
  }

  /** Dropping the element at index i takes exactly its value off the sum. */
  lemma SumRemoveAt<T>(s: seq<T>, i: nat, f: T -> int)
    requires i < |s|
    ensures SumOf(s[..i] + s[i + 1..], f) == SumOf(s, f) - f(s[i])
  {
    var a, p, b := s[..i], s[..i + 1], s[i + 1..];
    calc {
      SumOf(s, f);
      { assert p + b == s; }
      SumOf(p + b, f);
      { SumAppend(p, b, f); }
      SumOf(p, f) + SumOf(b, f);
      { SumPrefixStep(s, i, f); }
      SumOf(a, f) + f(s[i]) + SumOf(b, f);
      { SumAppend(a, b, f); }
      SumOf(a + b, f) + f(s[i]);
    }
  }

  /** Replacing the element at index i by y changes the sum by f(y) - f(s[i]). */
  lemma SumReplaceAt<T>(s: seq<T>, i: nat, y: T, f: T -> int)
    requires i < |s|
    ensures SumOf(s[i := y], f) == SumOf(s, f) - f(s[i]) + f(y)
  {
    SumAppend(s[..i] + [y], s[i + 1..], f);
    SumAppend(s[..i], [y], f);
    SumRemoveAt(s, i, f);
    SumAppend(s[..i], s[i + 1..], f);
    assert s[..i] + [y] + s[i + 1..] == s[i := y];
  }

  // ---------------------------------------------------------------------
  // Numeric ids

  /** `Math.max(0, ...s.map(key))`. */
  function MaxKey<T>(s: seq<T>, key: T -> int): (m: int)
    ensures m >= 0
    ensures forall i :: 0 <= i < |s| ==> key(s[i]) <= m
    ensures m == 0 || exists i :: 0 <= i < |s| && key(s[i]) == m
    decreases |s|
  {
    if s == [] then 0
    else
      var m := MaxKey(s[..|s| - 1], key);
      assert forall i :: 0 <= i < |s| - 1 ==> s[..|s| - 1][i] == s[i];
      if key(s[|s| - 1]) > m then key(s[|s| - 1]) else m
  }

  /** The id a new element receives: one past the largest id in use. */
  function NextId<T>(s: seq<T>, key: T -> int): (n: int)
    ensures n >= 1
    ensures forall i :: 0 <= i < |s| ==> key(s[i]) < n
  {
    MaxKey(s, key) + 1
  }

  /** No two positions carry the same id. */
  predicate UniqueKeys<T>(s: seq<T>, key: T -> int) {
    forall i, j :: 0 <= i < j < |s| ==> key(s[i]) != key(s[j])
  }

  /** Appending an element with the next id keeps ids unique. */
  lemma AppendNextKeepsUnique<T>(s: seq<T>, x: T, key: T -> int)
    requires UniqueKeys(s, key) && key(x) == NextId(s, key)
    ensures UniqueKeys(s + [x], key)
  {
    var t := s + [x];
    forall i, j | 0 <= i < j < |t|
      ensures key(t[i]) != key(t[j])
    {
      if j == |s| {
        assert t[i] == s[i];
      } else {
        assert t[i] == s[i] && t[j] == s[j];
      }
    }
  }

  /** Appending an element whose id is in use by no one keeps ids unique. */
  lemma AppendFreshKeepsUnique<T>(s: seq<T>, x: T, key: T -> int)
    requires UniqueKeys(s, key)
    requires forall i :: 0 <= i < |s| ==> key(s[i]) != key(x)
    ensures UniqueKeys(s + [x], key)
  {
    var t := s + [x];
    forall i, j | 0 <= i < j < |t|
      ensures key(t[i]) != key(t[j])
    {
      assert t[i] == s[i];
      if j < |s| {
        assert t[j] == s[j];
      }
    }
  }

  /** `s.filter(x => key(x) !== id)`. */
  function RemoveKey<T>(s: seq<T>, key: T -> int, id: int): (r: seq<T>)
    ensures |r| <= |s|
    ensures forall i :: 0 <= i < |r| ==> r[i] in s && key(r[i]) != id
    ensures forall i :: 0 <= i < |s| && key(s[i]) != id ==> s[i] in r
    decreases |s|
  {
    if s == [] then []
    else
      var rest := RemoveKey(s[1..], key, id);
      assert forall i :: 0 <= i < |s| - 1 ==> s[1..][i] == s[i + 1];
      if key(s[0]) != id then [s[0]] + rest else rest
  }

  /** Removing an id that no element carries changes nothing. */
  lemma {:induction false} RemoveKeyAbsent<T>(s: seq<T>, key: T -> int, id: int)
    requires forall i :: 0 <= i < |s| ==> key(s[i]) != id
    ensures RemoveKey(s, key, id) == s
    decreases |s|
  {
    if s != [] {
      assert forall i :: 0 <= i < |s| - 1 ==> s[1..][i] == s[i + 1];
      RemoveKeyAbsent(s[1..], key, id);
      assert [s[0]] + s[1..] == s;
    }
  }

  lemma UniqueTail<T>(s: seq<T>, key: T -> int)
    requires UniqueKeys(s, key) && s != []
    ensures UniqueKeys(s[1..], key)
    ensures forall i :: 0 <= i < |s| - 1 ==> key(s[1..][i]) != key(s[0])
  {
    forall i, j | 0 <= i < j < |s| - 1
      ensures key(s[1..][i]) != key(s[1..][j])
    {
      assert s[1..][i] == s[i + 1] && s[1..][j] == s[j + 1];
    }
    forall i | 0 <= i < |s| - 1
      ensures key(s[1..][i]) != key(s[0])
    {
      assert s[1..][i] == s[i + 1];
    }
  }

  /** Removing by id where ids are unique drops exactly the one element that has it. */
  lemma {:induction false} RemoveKeyAt<T>(s: seq<T>, key: T -> int, i: nat)
    requires UniqueKeys(s, key) && i < |s|
    ensures RemoveKey(s, key, key(s[i])) == s[..i] + s[i + 1..]
    decreases i
  {
    UniqueTail(s, key);
    var tail := s[1..];
    if i == 0 {
      RemoveKeyAbsent(tail, key, key(s[0]));
    } else {
      assert tail[i - 1] == s[i];
      RemoveKeyAt(tail, key, i - 1);
      assert key(s[0]) != key(s[i]);
      assert s[..i] == [s[0]] + tail[..i - 1];
      assert s[i + 1..] == tail[i..];
    }
  }

  /** Removal keeps the survivors in order, so unique ids stay unique. */
  lemma {:induction false} RemoveKeyKeepsUnique<T>(s: seq<T>, key: T -> int, id: int)
    requires UniqueKeys(s, key)
    ensures UniqueKeys(RemoveKey(s, key, id), key)
    decreases |s|
  {
    if s != [] {
      UniqueTail(s, key);
      var r := RemoveKey(s[1..], key, id);
      RemoveKeyKeepsUnique(s[1..], key, id);
      if key(s[0]) != id {
        forall k | 0 <= k < |r|
          ensures key(r[k]) != key(s[0])
        {
          var m :| 0 <= m < |s[1..]| && s[1..][m] == r[k];
        }
        var t := [s[0]] + r;
        forall i, j | 0 <= i < j < |t|
          ensures key(t[i]) != key(t[j])
        {
          if i > 0 {
            assert t[i] == r[i - 1] && t[j] == r[j - 1];
          } else {
            assert t[j] == r[j - 1];
          }
        }
      }
    }
  }

  /** `s.map(x => key(x) === id ? upd(x) : x)`. */
  function UpdateKey<T>(s: seq<T>, key: T -> int, id: int, upd: T -> T): (r: seq<T>)
    ensures |r| == |s|
    ensures forall i :: 0 <= i < |s| ==> r[i] == if key(s[i]) == id then upd(s[i]) else s[i]
  {
    seq(|s|, i requires 0 <= i < |s| => if key(s[i]) == id then upd(s[i]) else s[i])
  }

  /** Where ids are unique, updating by id is replacing at that element's index. */
  lemma UpdateKeyAt<T>(s: seq<T>, key: T -> int, i: nat, upd: T -> T)
    requires UniqueKeys(s, key) && i < |s|
    ensures UpdateKey(s, key, key(s[i]), upd) == s[i := upd(s[i])]
  {
  }

  /** An update that keeps ids keeps them unique. */
  lemma UpdateKeyKeepsUnique<T>(s: seq<T>, key: T -> int, id: int, upd: T -> T)
    requires UniqueKeys(s, key)
    requires forall x :: key(upd(x)) == key(x)
    ensures UniqueKeys(UpdateKey(s, key, id, upd), key)
  {
  }

  // ---------------------------------------------------------------------
  // Index-based list edits

  /** `s.filter((_, i) => i !== idx)`. */
  function RemoveIndex<T>(s: seq<T>, idx: int): (r: seq<T>)
    ensures 0 <= idx < |s| ==> |r| == |s| - 1
    ensures !(0 <= idx < |s|) ==> r == s
    ensures forall i :: 0 <= i < |r| ==> r[i] == if 0 <= idx <= i then s[i + 1] else s[i]
  {
    if 0 <= idx < |s| then s[..idx] + s[idx + 1..] else s
  }

  /** `s.slice(0, n)` for n >= 0. */
  function Take<T>(s: seq<T>, n: nat): (r: seq<T>)
    ensures |r| == if n < |s| then n else |s|
    ensures r == s[..|r|]
  {
    if n < |s| then s[..n] else s
  }

  // ---------------------------------------------------------------------
  // Grouping by a string key

  /** The elements whose key is k, in list order. */
  function GroupOf<T>(s: seq<T>, key: T -> string, k: string): (r: seq<T>)
    ensures |r| <= |s|
    decreases |s|
  {
    if s == [] then []
    else
      var r := GroupOf(s[..|s| - 1], key, k);
      if key(s[|s| - 1]) == k then r + [s[|s| - 1]] else r
  }

  /** The keys in order of first appearance. */
  function KeysOf<T>(s: seq<T>, key: T -> string): seq<string>
    decreases |s|
  {
    if s == [] then []
    else
      var ks := KeysOf(s[..|s| - 1], key);
      var k := key(s[|s| - 1]);
      if k in ks then ks else ks + [k]
  }

  predicate Distinct<K(==)>(s: seq<K>) {
    forall i, j :: 0 <= i < j < |s| ==> s[i] != s[j]
  }

  lemma GroupOfSnoc<T>(s: seq<T>, x: T, key: T -> string, k: string)
    ensures GroupOf(s + [x], key, k) == GroupOf(s, key, k) + (if key(x) == k then [x] else [])
  {
    assert (s + [x])[..|s|] == s;
  }

  lemma KeysOfSnoc<T>(s: seq<T>, x: T, key: T -> string)
    ensures KeysOf(s + [x], key) == if key(x) in KeysOf(s, key) then KeysOf(s, key) else KeysOf(s, key) + [key(x)]
  {
    assert (s + [x])[..|s|] == s;
  }

  /** A group holds exactly the elements with that key. */
  lemma {:induction false} GroupOfMembers<T>(s: seq<T>, key: T -> string, k: string)
    ensures forall i :: 0 <= i < |GroupOf(s, key, k)| ==>
      GroupOf(s, key, k)[i] in s && key(GroupOf(s, key, k)[i]) == k
    ensures forall i :: 0 <= i < |s| ==> (s[i] in GroupOf(s, key, k) <==> key(s[i]) == k)
    decreases |s|
  {
    if s != [] {
      var init, x := s[..|s| - 1], s[|s| - 1];
      GroupOfMembers(init, key, k);
      assert s == init + [x];
      GroupOfSnoc(init, x, key, k);
      var g := GroupOf(s, key, k);
      forall i | 0 <= i < |s|
        ensures s[i] in g <==> key(s[i]) == k
      {
        if i < |init| {
          assert s[i] == init[i];
        }
      }
    }
  }

  /** The keys are distinct and are exactly the keys of the elements. */
  lemma {:induction false} KeysOfMembers<T>(s: seq<T>, key: T -> string)
    ensures Distinct(KeysOf(s, key))
    ensures forall i :: 0 <= i < |s| ==> key(s[i]) in KeysOf(s, key)
    ensures forall j :: 0 <= j < |KeysOf(s, key)| ==>
      exists i :: 0 <= i < |s| && key(s[i]) == KeysOf(s, key)[j]
    decreases |s|
  {
    if s != [] {
      var init, x := s[..|s| - 1], s[|s| - 1];
      KeysOfMembers(init, key);
      assert s == init + [x];
      KeysOfSnoc(init, x, key);
      var ks := KeysOf(s, key);
      forall j | 0 <= j < |ks|
        ensures exists i :: 0 <= i < |s| && key(s[i]) == ks[j]
      {
        if j < |KeysOf(init, key)| {
          var i :| 0 <= i < |init| && key(init[i]) == KeysOf(init, key)[j];
          assert s[i] == init[i];
        } else {
          assert key(s[|s| - 1]) == ks[j];
        }
      }
    }
  }

  /** A key no element has holds no element. */
  lemma {:induction false} GroupOfAbsentKey<T>(s: seq<T>, key: T -> string, k: string)
    requires k !in KeysOf(s, key)
    ensures GroupOf(s, key, k) == []
    decreases |s|
  {
    if s != [] {
      var init, x := s[..|s| - 1], s[|s| - 1];
      assert s == init + [x];
      KeysOfSnoc(init, x, key);
      GroupOfAbsentKey(init, key, k);
      GroupOfSnoc(init, x, key, k);
    }
  }

  /** `s.reduce((groups, x) => { (groups[key(x)] ||= []).push(x); return groups }, {})`,
      with the keys in insertion order. */
  method GroupBy<T>(s: seq<T>, key: T -> string) returns (groups: map<string, seq<T>>, keys: seq<string>)
    ensures keys == KeysOf(s, key)
    ensures forall k :: k in groups <==> k in keys
    ensures forall k :: k in groups ==> groups[k] == GroupOf(s, key, k)
  {
    groups := map[];
    keys := [];
    for i := 0 to |s|
      invariant keys == KeysOf(s[..i], key)
      invariant forall k :: k in groups <==> k in keys
      invariant forall k :: k in groups ==> groups[k] == GroupOf(s[..i], key, k)
    {
      var x := s[i];
      var k := key(x);
      assert s[..i + 1] == s[..i] + [x];
      KeysOfSnoc(s[..i], x, key);
      forall g | g in groups
        ensures GroupOf(s[..i + 1], key, g) == GroupOf(s[..i], key, g) + (if k == g then [x] else [])
      {
        GroupOfSnoc(s[..i], x, key, g);
      }
      if k in groups {
        groups := groups[k := groups[k] + [x]];
      } else {
        GroupOfSnoc(s[..i], x, key, k);
        GroupOfAbsentKey(s[..i], key, k);
        groups := groups[k := [x]];
        keys := keys + [k];
      }
    }
    assert s[..|s|] == s;
  }

  /** The number of elements listed over the given keys' groups. */
  function GroupedCount<T>(keys: seq<string>, s: seq<T>, key: T -> string): nat
    decreases |keys|
  {
    if keys == [] then 0
    else GroupedCount(keys[..|keys| - 1], s, key) + |GroupOf(s, key, keys[|keys| - 1])|
  }

  lemma {:induction false} GroupedCountSnoc<T>(keys: seq<string>, s: seq<T>, x: T, key: T -> string)
    requires Distinct(keys)
    ensures GroupedCount(keys, s + [x], key) == GroupedCount(keys, s, key) + (if key(x) in keys then 1 else 0)
    decreases |keys|
  {
    if keys != [] {
      var init, last := keys[..|keys| - 1], keys[|keys| - 1];
      assert keys == init + [last];
      GroupedCountSnoc(init, s, x, key);
      GroupOfSnoc(s, x, key, last);
      assert last !in init;
    }
  }

  /** The groups together hold every element exactly once. */
  lemma {:induction false} GroupsCoverAll<T>(s: seq<T>, key: T -> string)
    ensures GroupedCount(KeysOf(s, key), s, key) == |s|
    decreases |s|
  {
    if s != [] {
      var init, x := s[..|s| - 1], s[|s| - 1];
      GroupsCoverAll(init, key);
      assert s == init + [x];
      KeysOfMembers(init, key);
      KeysOfSnoc(init, x, key);
      var ks := KeysOf(init, key);
      GroupedCountSnoc(ks, init, x, key);
      if key(x) !in ks {
        assert (ks + [key(x)])[..|ks|] == ks;
        GroupOfSnoc(init, x, key, key(x));
        GroupOfAbsentKey(init, key, key(x));
      }
    }
  }

  // ---------------------------------------------------------------------
  // Sorting with a comparator

  ghost predicate StrictTotalOrder<T(!new)>(less: (T, T) -> bool) {
    (forall a :: !less(a, a)) &&
    (forall a, b :: less(a, b) ==> !less(b, a)) &&
    (forall a, b, c :: less(a, b) && less(b, c) ==> less(a, c)) &&
    (forall a, b :: a != b ==> less(a, b) || less(b, a))
  }

  predicate SortedBy<T>(s: seq<T>, less: (T, T) -> bool) {
    forall i, j :: 0 <= i < j < |s| ==> less(s[i], s[j])
  }

  function InsertBy<T>(x: T, s: seq<T>, less: (T, T) -> bool): seq<T>
    decreases |s|
  {
    if s == [] then [x]
    else if less(s[0], x) then [s[0]] + InsertBy(x, s[1..], less)
    else [x] + s
  }

  /** `s.sort(compare)` for a comparator whose negative results are `less`
      (insertion sort; the result does not depend on the algorithm when the
      elements are distinct). */
  function SortBy<T>(s: seq<T>, less: (T, T) -> bool): seq<T>
    decreases |s|
  {
    if s == [] then [] else InsertBy(s[0], SortBy(s[1..], less), less)
  }

  lemma SortedTail<T>(s: seq<T>, less: (T, T) -> bool)
    requires SortedBy(s, less) && s != []
    ensures SortedBy(s[1..], less)
    ensures forall k :: 0 <= k < |s| - 1 ==> less(s[0], s[1..][k])
  {
    forall i, j | 0 <= i < j < |s| - 1
      ensures less(s[1..][i], s[1..][j])
    {
      assert s[1..][i] == s[i + 1] && s[1..][j] == s[j + 1];
    }
    forall k | 0 <= k < |s| - 1
      ensures less(s[0], s[1..][k])
    {
      assert s[1..][k] == s[k + 1];
    }
  }

  lemma SortedCons<T>(h: T, t: seq<T>, less: (T, T) -> bool)
    requires SortedBy(t, less) && forall k :: 0 <= k < |t| ==> less(h, t[k])
    ensures SortedBy([h] + t, less)
  {
    var r := [h] + t;
    forall i, j | 0 <= i < j < |r|
      ensures less(r[i], r[j])
    {
      assert r[j] == t[j - 1];
      if i > 0 {
        assert r[i] == t[i - 1];
      }
    }
  }

  lemma {:induction false} InsertBySorted<T(!new)>(x: T, s: seq<T>, less: (T, T) -> bool)
    requires StrictTotalOrder(less) && SortedBy(s, less) && x !in s
    ensures SortedBy(InsertBy(x, s, less), less)
    ensures multiset(InsertBy(x, s, less)) == multiset(s) + multiset{x}
    decreases |s|
  {
    if s != [] {
      var tail := s[1..];
      assert s == [s[0]] + tail;
      SortedTail(s, less);
      if less(s[0], x) {
        InsertBySorted(x, tail, less);
        var rt := InsertBy(x, tail, less);
        forall k | 0 <= k < |rt|
          ensures less(s[0], rt[k])
        {
          assert rt[k] in multiset(rt);
          if rt[k] != x {
            var m :| 0 <= m < |tail| && tail[m] == rt[k];
          }
        }
        SortedCons(s[0], rt, less);
      } else {
        assert x != s[0];
        assert less(x, s[0]);
        forall k | 0 <= k < |s|
          ensures less(x, s[k])
        {
          if k > 0 {
            assert less(s[0], tail[k - 1]);
          }
        }
        SortedCons(x, s, less);
      }
    }
  }

  /** Sorting distinct elements yields them all, each once, in order. */
  lemma {:induction false} SortBySpec<T(!new)>(s: seq<T>, less: (T, T) -> bool)
    requires StrictTotalOrder(less) && Distinct(s)
    ensures SortedBy(SortBy(s, less), less)
    ensures multiset(SortBy(s, less)) == multiset(s)
    decreases |s|
  {
    if s != [] {
      var tail := s[1..];
      assert Distinct(tail) by {
        forall i, j | 0 <= i < j < |tail|
          ensures tail[i] != tail[j]
        {
          assert tail[i] == s[i + 1] && tail[j] == s[j + 1];
        }
      }
      SortBySpec(tail, less);
      var sorted := SortBy(tail, less);
      assert s[0] !in tail;
      assert s[0] !in sorted by {
        assert s[0] !in multiset(tail);
      }
      InsertBySorted(s[0], sorted, less);
      assert s == [s[0]] + tail;
    }
  }
}
