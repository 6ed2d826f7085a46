/** The array operations the stores and screens are built from (`findIndex`, `some`, `find`,
    `filter`, the `findIndex`-based de-duplication and a `Map` keyed by id), stated over a key
    function so that one definition serves favorites, plans, products and places. */
module Lists {
  import opened Base

  /** In `s`, no two positions carry the same key. */
  predicate UniqueKeys<T, K(==)>(s: seq<T>, key: T -> K)
  {
    forall i, j :: 0 <= i < j < |s| ==> key(s[i]) != key(s[j])
  }

  /** `r` is `s` with some elements dropped and the others kept in their order. */
  ghost predicate IsSubsequence<T>(r: seq<T>, s: seq<T>)
    decreases |s|
  {
    if r == [] then true
    else if s == [] then false
    else (r[0] == s[0] && IsSubsequence(r[1..], s[1..])) || IsSubsequence(r, s[1..])
  }

  /** `s.findIndex(x => key(x) === k)`, with |s| standing for -1. */
  function FirstIndex<T, K(==)>(s: seq<T>, key: T -> K, k: K): (i: nat)
    ensures i <= |s|
    ensures i < |s| ==> key(s[i]) == k
    ensures forall j :: 0 <= j < i ==> key(s[j]) != k
  {
    if |s| == 0 then 0
    else if key(s[0]) == k then 0
    else 1 + FirstIndex(s[1..], key, k)
  }

  /** `s.some(x => key(x) === k)`. */
  function Any<T, K(==)>(s: seq<T>, key: T -> K, k: K): (b: bool)
    ensures b <==> exists i :: 0 <= i < |s| && key(s[i]) == k
  {
    FirstIndex(s, key, k) < |s|
  }

  /** `s.find(x => key(x) === k)`: the first element with key `k`, if any. */
  function Find<T, K(==)>(s: seq<T>, key: T -> K, k: K): (r: Option<T>)
    ensures r.Some? <==> Any(s, key, k)
    ensures r.Some? ==> key(r.value) == k && r.value in s
    ensures r.Some? ==> FirstIndex(s, key, k) < |s| && r.value == s[FirstIndex(s, key, k)]
  {
    var i := FirstIndex(s, key, k);
    if i < |s| then Some(s[i]) else None
  }

  /** `s.filter(keep)`. */
  function Filter<T>(s: seq<T>, keep: T -> bool): (r: seq<T>)
    ensures |r| <= |s|
    ensures forall i :: 0 <= i < |r| ==> r[i] in s && keep(r[i])
    ensures forall i :: 0 <= i < |s| && keep(s[i]) ==> s[i] in r
  {
    if |s| == 0 then []
    else (if keep(s[0]) then [s[0]] else []) + Filter(s[1..], keep)
  }

  /** `s.filter(x => key(x) !== k)`: every element whose key is not `k`. */
  function Without<T, K(==)>(s: seq<T>, key: T -> K, k: K): (r: seq<T>)
    ensures forall i :: 0 <= i < |r| ==> r[i] in s && key(r[i]) != k
    ensures forall i :: 0 <= i < |s| && key(s[i]) != k ==> s[i] in r
    ensures !Any(r, key, k)
    ensures IsSubsequence(r, s)
  {
    FilterIsSubsequence(s, x => key(x) != k);
    Filter(s, x => key(x) != k)
  }

  /** Every list is a subsequence of itself. */
  lemma {:induction false} SubsequenceOfSelf<T>(s: seq<T>)
    ensures IsSubsequence(s, s)
  {
    if |s| > 0 {
      SubsequenceOfSelf(s[1..]);
    }
  }

  /** Filtering keeps the surviving elements in their original order. */
  lemma {:induction false} FilterIsSubsequence<T>(s: seq<T>, keep: T -> bool)
    ensures IsSubsequence(Filter(s, keep), s)
  {
    if |s| > 0 {
      FilterIsSubsequence(s[1..], keep);
      var rest := Filter(s[1..], keep);
      if !keep(s[0]) {
        assert Filter(s, keep) == rest;
      } else {
        assert Filter(s, keep) == [s[0]] + rest;
        assert (Filter(s, keep))[1..] == rest;
      }
    }
  }

  /** Filtering distributes over concatenation; with `Filter([x])` this pins the filter down. */
  lemma {:induction false} FilterAppend<T>(a: seq<T>, b: seq<T>, keep: T -> bool)
    ensures Filter(a + b, keep) == Filter(a, keep) + Filter(b, keep)
  {
    if |a| == 0 {
      assert a + b == b;
    } else {
      assert (a + b)[1..] == a[1..] + b;
      FilterAppend(a[1..], b, keep);
    }
  }

  /** A filter that keeps every element changes nothing. */
  lemma {:induction false} FilterKeepsAll<T>(s: seq<T>, keep: T -> bool)
    requires forall i :: 0 <= i < |s| ==> keep(s[i])
    ensures Filter(s, keep) == s
  {
    if |s| > 0 {
      FilterKeepsAll(s[1..], keep);
    }
  }

  /** A filter keeps its whole input exactly when every element passes. */
  lemma {:induction false} FilterFullIff<T>(s: seq<T>, keep: T -> bool)
    ensures |Filter(s, keep)| == |s| <==> forall i :: 0 <= i < |s| ==> keep(s[i])
  {
    if |s| > 0 {
      FilterFullIff(s[1..], keep);
      assert forall i :: 0 < i < |s| ==> s[i] == s[1..][i - 1];
    }
  }

  /** A filter keeps nothing exactly when no element passes. */
  lemma FilterEmptyIff<T>(s: seq<T>, keep: T -> bool)
    ensures |Filter(s, keep)| == 0 <==> forall i :: 0 <= i < |s| ==> !keep(s[i])
  {
    var r := Filter(s, keep);
    if |r| > 0 {
      assert r[0] in s;
    }
  }

  /** Filtering never creates two elements with the same key. */
  lemma {:induction false} FilterKeepsUniqueKeys<T, K>(s: seq<T>, key: T -> K, keep: T -> bool)
    requires UniqueKeys(s, key)
    ensures UniqueKeys(Filter(s, keep), key)
  {
    if |s| > 0 {
      var rest := Filter(s[1..], keep);
      FilterKeepsUniqueKeys(s[1..], key, keep);
      if keep(s[0]) {
        var r := [s[0]] + rest;
        assert Filter(s, keep) == r;
        forall i, j | 0 <= i < j < |r| ensures key(r[i]) != key(r[j]) {
          if i == 0 {
            assert r[j] in s[1..];
            var m :| 0 <= m < |s[1..]| && s[1..][m] == r[j];
            assert s[m + 1] == r[j];
          } else {
            assert r[i] == rest[i - 1] && r[j] == rest[j - 1];
          }
        }
      }
    }
  }

  /** Removing an absent key changes nothing. */
  lemma WithoutAbsent<T, K>(s: seq<T>, key: T -> K, k: K)
    requires !Any(s, key, k)
    ensures Without(s, key, k) == s
  {
    FilterKeepsAll(s, x => key(x) != k);
  }

  /** Removing a key never creates two elements with the same key. */
  lemma WithoutKeepsUniqueKeys<T, K>(s: seq<T>, key: T -> K, k: K)
    requires UniqueKeys(s, key)
    ensures UniqueKeys(Without(s, key, k), key)
  {
    FilterKeepsUniqueKeys(s, key, x => key(x) != k);
  }

  /** Removing a key from a concatenation removes it from both parts. */
  lemma WithoutAppend<T, K>(a: seq<T>, b: seq<T>, key: T -> K, k: K)
    ensures Without(a + b, key, k) == Without(a, key, k) + Without(b, key, k)
  {
    FilterAppend(a, b, x => key(x) != k);
  }

  /** Removing the key of a single element. */
  lemma WithoutSingleton<T, K>(x: T, key: T -> K, k: K)
    ensures Without([x], key, k) == if key(x) == k then [] else [x]
  {
    assert [x][1..] == [];
  }

  /** With unique keys, no slice that leaves out position `i` carries the key of `s[i]`. */
  lemma NoKeyOutside<T, K>(s: seq<T>, key: T -> K, i: nat, lo: nat, hi: nat)
    requires UniqueKeys(s, key) && i < |s| && lo <= hi <= |s| && (hi <= i || i < lo)
    ensures !Any(s[lo..hi], key, key(s[i]))
  {
    forall j | 0 <= j < hi - lo
      ensures key(s[lo..hi][j]) != key(s[i])
    {
      assert s[lo..hi][j] == s[lo + j];
    }
  }

  /** When exactly one position `i` carries key `key(s[i])`, removing that key removes just it. */
  lemma WithoutUniqueSplit<T, K>(s: seq<T>, key: T -> K, i: nat)
    requires UniqueKeys(s, key) && i < |s|
    ensures Without(s, key, key(s[i])) == s[..i] + s[i + 1..]
  {
    var k := key(s[i]);
    var a, b := s[..i], s[i + 1..];
    NoKeyOutside(s, key, i, 0, i);
    NoKeyOutside(s, key, i, i + 1, |s|);
    assert s == a + ([s[i]] + b);
    calc {
      Without(s, key, k);
      { WithoutAppend(a, [s[i]] + b, key, k); }
      Without(a, key, k) + Without([s[i]] + b, key, k);
      { WithoutAppend([s[i]], b, key, k); }
      Without(a, key, k) + (Without([s[i]], key, k) + Without(b, key, k));
      { WithoutSingleton(s[i], key, k); WithoutAbsent(a, key, k); WithoutAbsent(b, key, k); }
      a + ([] + b);
    }
  }

  /** Appending an element with a fresh key and removing that key gives back the list. */
  lemma AppendThenWithout<T, K>(s: seq<T>, key: T -> K, x: T)
    requires !Any(s, key, key(x))
    ensures Without(s + [x], key, key(x)) == s
  {
    var keep := y => key(y) != key(x);
    FilterAppend(s, [x], keep);
    WithoutAbsent(s, key, key(x));
    assert Filter([x], keep) == [] + Filter([x][1..], keep);
  }

  /** Two elements of a list with unique keys that share a key are the same element. */
  lemma SameKeySameElement<T, K>(s: seq<T>, key: T -> K, x: T, y: T)
    requires UniqueKeys(s, key) && x in s && y in s && key(x) == key(y)
    ensures x == y
  {
  }

  /** With unique keys, `find` returns the one element carrying the key. */
  lemma FindInUnique<T, K>(s: seq<T>, key: T -> K, x: T)
    requires UniqueKeys(s, key) && x in s
    ensures Find(s, key, key(x)) == Some(x)
  {
    var i :| 0 <= i < |s| && s[i] == x;
    assert Any(s, key, key(x));
  }

  /** `findIndex` on a concatenation looks in the second part only when the first has no match. */
  lemma {:induction false} FirstIndexAppend<T, K>(a: seq<T>, b: seq<T>, key: T -> K, k: K)
    ensures FirstIndex(a + b, key, k) ==
            if FirstIndex(a, key, k) < |a| then FirstIndex(a, key, k) else |a| + FirstIndex(b, key, k)
  {
    if |a| == 0 {
      assert a + b == b;
    } else {
      assert (a + b)[0] == a[0];
      assert (a + b)[1..] == a[1..] + b;
      if key(a[0]) != k {
        FirstIndexAppend(a[1..], b, key, k);
      }
    }
  }

  /** `find` on a concatenation: the first list's match wins, else the second list's. */
  lemma FindAppend<T, K>(a: seq<T>, b: seq<T>, key: T -> K, k: K)
    ensures Find(a + b, key, k) == if Find(a, key, k).Some? then Find(a, key, k) else Find(b, key, k)
  {
    FirstIndexAppend(a, b, key, k);
    var i := FirstIndex(a, key, k);
    if i < |a| {
      assert (a + b)[i] == a[i];
    } else {
      var j := FirstIndex(b, key, k);
      if j < |b| {
        assert (a + b)[|a| + j] == b[j];
      }
    }
  }

  // ---------------------------------------------------------------------------------------
  // De-duplication by `filter((x, i, self) => i === self.findIndex(y => key(y) === key(x)))`

  /** The elements of `s[i..]` that are the first occurrence of their key in the whole of `s`. */
  function DedupFrom<T, K(==)>(s: seq<T>, key: T -> K, i: nat): seq<T>
    requires i <= |s|
    decreases |s| - i
  {
    if i == |s| then []
    else (if FirstIndex(s, key, key(s[i])) == i then [s[i]] else []) + DedupFrom(s, key, i + 1)
  }

  /** The first occurrence of each key of `s`, in the original order. */
  function DedupFirst<T, K(==)>(s: seq<T>, key: T -> K): (r: seq<T>)
    ensures UniqueKeys(r, key)
    ensures IsSubsequence(r, s)
    ensures forall y :: y in r ==> FirstIndex(s, key, key(y)) < |s| && y == s[FirstIndex(s, key, key(y))]
    ensures forall j :: 0 <= j < |s| ==> Any(r, key, key(s[j]))
  {
    DedupFromFacts(s, key, 0);
    var r := DedupFrom(s, key, 0);
    assert s[0..] == s;
    forall j | 0 <= j < |s| ensures Any(r, key, key(s[j])) {
      var f := FirstIndex(s, key, key(s[j]));
      var m :| 0 <= m < |r| && r[m] == s[f];
    }
    r
  }

  /** The facts about `DedupFrom(s, key, i)` that `DedupFirst` promises, generalised over `i`. */
  lemma DedupFromFacts<T, K>(s: seq<T>, key: T -> K, i: nat)
    requires i <= |s|
    ensures UniqueKeys(DedupFrom(s, key, i), key)
    ensures forall y :: y in DedupFrom(s, key, i) ==>
              i <= FirstIndex(s, key, key(y)) < |s| && s[FirstIndex(s, key, key(y))] == y
    ensures forall j :: i <= j < |s| && FirstIndex(s, key, key(s[j])) >= i ==>
              s[FirstIndex(s, key, key(s[j]))] in DedupFrom(s, key, i)
    ensures IsSubsequence(DedupFrom(s, key, i), s[i..])
  {
    DedupFromFirsts(s, key, i);
    DedupFromUnique(s, key, i);
    DedupFromComplete(s, key, i);
    DedupFromSubsequence(s, key, i);
  }

  /** Every element `DedupFrom(s, key, i)` keeps is the first of its key in `s`, at or after `i`. */
  lemma {:induction false} DedupFromFirsts<T, K>(s: seq<T>, key: T -> K, i: nat)
    requires i <= |s|
    ensures forall y :: y in DedupFrom(s, key, i) ==>
              i <= FirstIndex(s, key, key(y)) < |s| && s[FirstIndex(s, key, key(y))] == y
    decreases |s| - i
  {
    if i < |s| {
      DedupFromFirsts(s, key, i + 1);
    }
  }

  /** `DedupFrom(s, key, i)` carries each key at most once. */
  lemma {:induction false} DedupFromUnique<T, K>(s: seq<T>, key: T -> K, i: nat)
    requires i <= |s|
    ensures UniqueKeys(DedupFrom(s, key, i), key)
    decreases |s| - i
  {
    if i < |s| {
      DedupFromUnique(s, key, i + 1);
      DedupFromFirsts(s, key, i + 1);
      var rest := DedupFrom(s, key, i + 1);
      var d := DedupFrom(s, key, i);
      if FirstIndex(s, key, key(s[i])) == i {
        assert d == [s[i]] + rest;
        forall a, b | 0 <= a < b < |d| ensures key(d[a]) != key(d[b]) {
          assert d[b] == rest[b - 1];
          if a > 0 {
            assert d[a] == rest[a - 1];
          } else {
            assert d[b] in rest;
          }
        }
      }
    }
  }

  /** The first element of every key occurring at or after `i` is kept. */
  lemma {:induction false} DedupFromComplete<T, K>(s: seq<T>, key: T -> K, i: nat)
    requires i <= |s|
    ensures forall j :: i <= j < |s| && FirstIndex(s, key, key(s[j])) >= i ==>
              s[FirstIndex(s, key, key(s[j]))] in DedupFrom(s, key, i)
    decreases |s| - i
  {
    if i < |s| {
      DedupFromComplete(s, key, i + 1);
    }
  }

  /** `DedupFrom(s, key, i)` keeps elements of `s[i..]` in their order. */
  lemma {:induction false} DedupFromSubsequence<T, K>(s: seq<T>, key: T -> K, i: nat)
    requires i <= |s|
    ensures IsSubsequence(DedupFrom(s, key, i), s[i..])
    decreases |s| - i
  {
    if i < |s| {
      DedupFromSubsequence(s, key, i + 1);
      var rest := DedupFrom(s, key, i + 1);
      var d := DedupFrom(s, key, i);
      assert s[i..][1..] == s[i + 1..];
      if FirstIndex(s, key, key(s[i])) == i {
        assert d == [s[i]] + rest;
        assert d[1..] == rest;
      } else {
        assert d == rest;
      }
    }
  }

  /** A list with unique keys is kept whole from any position `i` on. */
  lemma {:induction false} DedupOfUnique<T, K>(s: seq<T>, key: T -> K, i: nat)
    requires i <= |s| && UniqueKeys(s, key)
    ensures DedupFrom(s, key, i) == s[i..]
    decreases |s| - i
  {
    if i < |s| {
      DedupOfUnique(s, key, i + 1);
      assert FirstIndex(s, key, key(s[i])) == i;
      assert s[i..] == [s[i]] + s[i + 1..];
    }
  }

  /** Every element of the de-duplication is what `find` returns for its key. */
  lemma DedupFirstFinds<T, K>(s: seq<T>, key: T -> K)
    ensures var r := DedupFirst(s, key);
            forall i :: 0 <= i < |r| ==> Find(s, key, key(r[i])) == Some(r[i])
  {
    var r := DedupFirst(s, key);
    forall i | 0 <= i < |r| ensures Find(s, key, key(r[i])) == Some(r[i]) {
      assert r[i] in r;
    }
  }

  /** A list whose keys are already unique is its own de-duplication. */
  lemma DedupFirstOfUnique<T, K>(s: seq<T>, key: T -> K)
    requires UniqueKeys(s, key)
    ensures DedupFirst(s, key) == s
  {
    DedupOfUnique(s, key, 0);
    assert s[0..] == s;
  }

  /** Looking a key up after de-duplication finds what the lookup on the whole list finds. */
  lemma FindAfterDedup<T, K>(s: seq<T>, key: T -> K, k: K)
    ensures Find(DedupFirst(s, key), key, k) == Find(s, key, k)
  {
    var d := DedupFirst(s, key);
    var f := FirstIndex(s, key, k);
    if f < |s| {
      assert Any(d, key, key(s[f]));
      var m :| 0 <= m < |d| && key(d[m]) == k;
      assert d[m] == s[FirstIndex(s, key, k)];
      FindInUnique(d, key, d[m]);
    } else {
      forall m | 0 <= m < |d| ensures key(d[m]) != k {
        assert FirstIndex(s, key, key(d[m])) < |s| && d[m] == s[FirstIndex(s, key, key(d[m]))];
      }
    }
  }

  // ---------------------------------------------------------------------------------------
  // `new Map(s.map(x => [key(x), x]))`

  /** The map built by inserting every element of `s` under its key, left to right:
      a later element with an already-present key overwrites the earlier one. */
  function KeyMap<T, K(==)>(s: seq<T>, key: T -> K): (m: map<K, T>)
    ensures forall i :: 0 <= i < |s| ==> key(s[i]) in m
    ensures forall k :: k in m ==> key(m[k]) == k && m[k] in s
    ensures forall k :: k in m ==> exists i :: 0 <= i < |s| && key(s[i]) == k
    decreases |s|
  {
    if |s| == 0 then map[]
    else
      var init := s[..|s| - 1];
      var m := KeyMap(init, key)[key(s[|s| - 1]) := s[|s| - 1]];
      assert forall i :: 0 <= i < |s| - 1 ==> s[i] == init[i];
      m
  }

  /** The entry a `KeyMap` keeps for a key is the LAST element carrying it. */
  lemma {:induction false} KeyMapKeepsLast<T, K>(s: seq<T>, key: T -> K, i: nat)
    requires i < |s|
    requires forall j :: i < j < |s| ==> key(s[j]) != key(s[i])
    ensures KeyMap(s, key)[key(s[i])] == s[i]
    decreases |s|
  {
    if i < |s| - 1 {
      var init := s[..|s| - 1];
      assert init[i] == s[i];
      KeyMapKeepsLast(init, key, i);
    }
  }

  /** With unique keys the map's entry for the key of `x` is `x` itself. */
  lemma KeyMapOfUnique<T, K>(s: seq<T>, key: T -> K, x: T)
    requires UniqueKeys(s, key) && x in s
    ensures key(x) in KeyMap(s, key) && KeyMap(s, key)[key(x)] == x
  {
    var m := KeyMap(s, key);
    SameKeySameElement(s, key, m[key(x)], x);
  }
}
