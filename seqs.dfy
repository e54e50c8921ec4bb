/**
 * The array operations the route handlers rely on, as functions on sequences:
 * `filter`, a stable `sort` by a numeric key in descending order, `reduce` to a sum,
 * `findIndex` on an id and `splice(i, 1)`.
 */
module Seqs {

  /** `s.filter(p)`: the elements that satisfy `p`, in their original order. */
  function Filter<T>(s: seq<T>, p: T -> bool): (r: seq<T>)
    ensures |r| <= |s|
  {
    if s == [] then [] else (if p(s[0]) then [s[0]] else []) + Filter(s[1..], p)
  }

  /** A filter keeps each element that passes as often as it occurs, and drops the others. */
  lemma {:induction false} FilterCount<T>(s: seq<T>, p: T -> bool, x: T)
    ensures multiset(Filter(s, p))[x] == if p(x) then multiset(s)[x] else 0
  {
    if s != [] {
      var head := if p(s[0]) then [s[0]] else [];
      FilterCount(s[1..], p, x);
      assert s == [s[0]] + s[1..];
      assert multiset(Filter(s, p)) == multiset(head) + multiset(Filter(s[1..], p));
    }
  }

  /**
   * A sequence that holds each element passing `p` as often as `s` does, and nothing else,
   * is a sub-multiset of `s` whose members are exactly the passing members of `s`.
   */
  lemma SelectionOf<T>(l: seq<T>, s: seq<T>, p: T -> bool)
    requires forall x :: multiset(l)[x] == if p(x) then multiset(s)[x] else 0
    ensures multiset(l) <= multiset(s)
    ensures forall x :: x in l <==> x in s && p(x)
    ensures forall x :: p(x) ==> multiset(l)[x] == multiset(s)[x]
  {
    forall x ensures x in l <==> x in s && p(x) {
      assert x in l <==> multiset(l)[x] > 0;
      assert x in s <==> multiset(s)[x] > 0;
    }
  }

  /** Everything a filter returns satisfies the predicate and comes from the input. */
  lemma FilterMembers<T>(s: seq<T>, p: T -> bool)
    ensures forall x :: x in Filter(s, p) <==> x in s && p(x)
    ensures multiset(Filter(s, p)) <= multiset(s)
  {
    forall x {
      FilterCount(s, p, x);
    }
  }

  /** Filtering two pieces separately and joining the results is filtering the whole. */
  lemma {:induction false} FilterConcat<T>(a: seq<T>, b: seq<T>, p: T -> bool)
    ensures Filter(a + b, p) == Filter(a, p) + Filter(b, p)
  {
    if a == [] {
      assert a + b == b;
    } else {
      var ab := a + b;
      assert ab[0] == a[0] && ab[1..] == a[1..] + b;
      var head := if p(a[0]) then [a[0]] else [];
      FilterConcat(a[1..], b, p);
      calc {
        Filter(ab, p);
        head + Filter(a[1..] + b, p);
        head + (Filter(a[1..], p) + Filter(b, p));
        (head + Filter(a[1..], p)) + Filter(b, p);
        Filter(a, p) + Filter(b, p);
      }
    }
  }

  /** Filtering a sequence whose every element passes changes nothing. */
  lemma {:induction false} FilterAllPass<T>(s: seq<T>, p: T -> bool)
    requires forall i :: 0 <= i < |s| ==> p(s[i])
    ensures Filter(s, p) == s
  {
    if s != [] {
      FilterAllPass(s[1..], p);
    }
  }

  /** Keys are descending (most recent first) along `s`. */
  predicate SortedDesc<T>(s: seq<T>, key: T -> int) {
    forall i, j :: 0 <= i < j < |s| ==> key(s[i]) >= key(s[j])
  }

  /**
   * Inserts `x` in front of the first element whose key is not larger, so that `x`
   * stays ahead of the elements with the same key that followed it in the input.
   */
  function Insert<T>(x: T, s: seq<T>, key: T -> int): (r: seq<T>)
    ensures |r| == |s| + 1
    ensures multiset(r) == multiset(s) + multiset{x}
    ensures r[0] == x || (|s| > 0 && r[0] == s[0])
  {
    if s == [] || key(s[0]) <= key(x) then [x] + s
    else
      assert s == [s[0]] + s[1..];
      [s[0]] + Insert(x, s[1..], key)
  }

  /** Inserting into a sorted sequence keeps it sorted. */
  lemma {:induction false} InsertSorted<T>(x: T, s: seq<T>, key: T -> int)
    requires SortedDesc(s, key)
    ensures SortedDesc(Insert(x, s, key), key)
  {
    var r := Insert(x, s, key);
    if s == [] || key(s[0]) <= key(x) {
      assert r == [x] + s;
      forall i, j | 0 <= i < j < |r| ensures key(r[i]) >= key(r[j]) {
        if i == 0 {
          assert key(s[0]) >= key(s[j - 1]);
        } else {
          assert r[i] == s[i - 1] && r[j] == s[j - 1];
        }
      }
    } else {
      var rest := Insert(x, s[1..], key);
      InsertSorted(x, s[1..], key);
      assert r == [s[0]] + rest;
      assert key(s[0]) >= key(rest[0]) by {
        if rest[0] != x {
          assert rest[0] == s[1];
        }
      }
      forall i, j | 0 <= i < j < |r| ensures key(r[i]) >= key(r[j]) {
        if i == 0 {
          assert key(rest[0]) >= key(rest[j - 1]) || j == 1;
        } else {
          assert r[i] == rest[i - 1] && r[j] == rest[j - 1];
        }
      }
    }
  }

  /**
   * `s.sort((a, b) => key(b) - key(a))`: descending by key. Like JavaScript's sort it is
   * stable, which this insertion sort is by construction.
   */
  function SortDesc<T>(s: seq<T>, key: T -> int): (r: seq<T>)
    ensures multiset(r) == multiset(s)
    ensures |r| == |s|
    ensures SortedDesc(r, key)
  {
    if s == [] then []
    else
      assert s == [s[0]] + s[1..];
      var sorted := SortDesc(s[1..], key);
      InsertSorted(s[0], sorted, key);
      Insert(s[0], sorted, key)
  }

  /** Sorting what is already in order returns it unchanged. */
  lemma {:induction false} SortDescOfSorted<T>(s: seq<T>, key: T -> int)
    requires SortedDesc(s, key)
    ensures SortDesc(s, key) == s
  {
    if s != [] {
      SortDescOfSorted(s[1..], key);
    }
  }

  /** The constant 1, to count with a sum. */
  function One<T>(x: T): int {
    1
  }

  /** The sum of `f` over the elements of `s`. */
  function SumOf<T>(s: seq<T>, f: T -> int): int {
    if s == [] then 0 else f(s[0]) + SumOf(s[1..], f)
  }

  /**
   * `s.reduce((sum, x) => sum + f(x), acc)`: accumulated from left to right, it comes to
   * `acc` plus the sum.
   */
  function Reduce<T>(acc: int, s: seq<T>, f: T -> int): (r: int)
    ensures r == acc + SumOf(s, f)
    decreases |s|
  {
    if s == [] then acc else Reduce(acc + f(s[0]), s[1..], f)
  }

  /** Summing two pieces separately gives the sum of the whole. */
  lemma {:induction false} SumConcat<T>(a: seq<T>, b: seq<T>, f: T -> int)
    ensures SumOf(a + b, f) == SumOf(a, f) + SumOf(b, f)
  {
    if a == [] {
      assert a + b == b;
    } else {
      SumConcat(a[1..], b, f);
      assert (a + b)[1..] == a[1..] + b;
    }
  }

  /** Counting with `One` gives the length. */
  lemma {:induction false} SumOfOne<T>(s: seq<T>)
    ensures SumOf(s, One) == |s|
  {
    if s != [] {
      SumOfOne(s[1..]);
    }
  }

  /** The sum after `splice(i, 1)` has lost exactly the removed element's value. */
  lemma SumRemoveAt<T>(s: seq<T>, i: nat, f: T -> int)
    requires i < |s|
    ensures SumOf(s[..i] + s[i + 1..], f) == SumOf(s, f) - f(s[i])
  {
    assert s == s[..i] + s[i..];
    assert s[i..] == [s[i]] + s[i + 1..];
    SumConcat(s[..i], s[i..], f);
    SumConcat(s[..i], s[i + 1..], f);
  }

  /** The sum after replacing the element at `i` moves by the difference of the two values. */
  lemma SumUpdateAt<T>(s: seq<T>, i: nat, v: T, f: T -> int)
    requires i < |s|
    ensures SumOf(s[i := v], f) == SumOf(s, f) - f(s[i]) + f(v)
  {
    var t := s[i := v];
    assert s == s[..i] + s[i..] && t == t[..i] + t[i..];
    assert s[i..] == [s[i]] + s[i + 1..] && t[i..] == [v] + s[i + 1..];
    assert t[..i] == s[..i];
    SumConcat(s[..i], s[i..], f);
    SumConcat(t[..i], t[i..], f);
  }

  /** Inserting into a sequence adds the inserted element's value to the sum. */
  lemma {:induction false} SumInsert<T>(x: T, s: seq<T>, key: T -> int, f: T -> int)
    ensures SumOf(Insert(x, s, key), f) == f(x) + SumOf(s, f)
  {
    if s != [] && key(s[0]) > key(x) {
      SumInsert(x, s[1..], key, f);
    }
  }

  /** Sorting does not change a sum. */
  lemma {:induction false} SumSortDesc<T>(s: seq<T>, key: T -> int, f: T -> int)
    ensures SumOf(SortDesc(s, key), f) == SumOf(s, f)
  {
    if s != [] {
      SumSortDesc(s[1..], key, f);
      SumInsert(s[0], SortDesc(s[1..], key), key, f);
    }
  }

  /**
   * `s.findIndex(x => idOf(x) === id)`: the first index whose id matches, or -1.
   */
  function IndexOf<T>(s: seq<T>, idOf: T -> string, id: string): (r: int)
    ensures -1 <= r < |s|
    ensures r == -1 <==> forall j :: 0 <= j < |s| ==> idOf(s[j]) != id
    ensures r >= 0 ==> idOf(s[r]) == id && forall j :: 0 <= j < r ==> idOf(s[j]) != id
  {
    if s == [] then -1
    else if idOf(s[0]) == id then 0
    else
      var k := IndexOf(s[1..], idOf, id);
      if k == -1 then -1 else k + 1
  }

  /** An id found in a prefix is found at the same index once more elements follow. */
  lemma IndexOfPrefix<T>(a: seq<T>, b: seq<T>, idOf: T -> string, id: string)
    requires IndexOf(a, idOf, id) >= 0
    ensures IndexOf(a + b, idOf, id) == IndexOf(a, idOf, id)
  {
    var i := IndexOf(a, idOf, id);
    var ab := a + b;
    assert ab[i] == a[i];
    assert forall j :: 0 <= j < i ==> ab[j] == a[j];
  }

  /** An element appended behind elements with other ids is found at the end. */
  lemma IndexOfAppended<T>(s: seq<T>, idOf: T -> string, x: T)
    requires forall j :: 0 <= j < |s| ==> idOf(s[j]) != idOf(x)
    ensures IndexOf(s + [x], idOf, idOf(x)) == |s|
  {
    var t := s + [x];
    assert t[|s|] == x;
    assert forall j :: 0 <= j < |s| ==> t[j] == s[j];
  }

  /** No two elements of `s` share a value of `f`. */
  ghost predicate DistinctBy<T, K>(s: seq<T>, f: T -> K) {
    forall i, j :: 0 <= i < j < |s| ==> f(s[i]) != f(s[j])
  }

  /** `splice(i, 1)` keeps the remaining elements distinct. */
  lemma DistinctByRemoveAt<T, K>(s: seq<T>, i: nat, f: T -> K)
    requires i < |s| && DistinctBy(s, f)
    ensures DistinctBy(s[..i] + s[i + 1..], f)
  {
    var r := s[..i] + s[i + 1..];
    forall a, b | 0 <= a < b < |r| ensures f(r[a]) != f(r[b]) {
      var a' := if a < i then a else a + 1;
      var b' := if b < i then b else b + 1;
      assert r[a] == s[a'] && r[b] == s[b'];
    }
  }

  /** Inserting an element whose `f` is new keeps the sequence distinct. */
  lemma {:induction false} DistinctByInsert<T, K>(x: T, s: seq<T>, key: T -> int, f: T -> K)
    requires DistinctBy(s, f)
    requires forall j :: 0 <= j < |s| ==> f(s[j]) != f(x)
    ensures DistinctBy(Insert(x, s, key), f)
  {
    if s != [] && key(s[0]) > key(x) {
      DistinctByInsert(x, s[1..], key, f);
      var tail := Insert(x, s[1..], key);
      forall j | 0 <= j < |tail| ensures f(s[0]) != f(tail[j]) {
        assert tail[j] in multiset(s[1..]) + multiset{x};
        if tail[j] != x {
          assert tail[j] in s[1..];
        }
      }
    }
  }

  /** Sorting keeps a sequence distinct. */
  lemma {:induction false} DistinctBySortDesc<T, K>(s: seq<T>, key: T -> int, f: T -> K)
    requires DistinctBy(s, f)
    ensures DistinctBy(SortDesc(s, key), f)
  {
    if s != [] {
      DistinctBySortDesc(s[1..], key, f);
      var sorted := SortDesc(s[1..], key);
      forall j | 0 <= j < |sorted| ensures f(sorted[j]) != f(s[0]) {
        assert sorted[j] in multiset(s[1..]);
        var k :| 0 <= k < |s[1..]| && s[1..][k] == sorted[j];
        assert s[k + 1] == sorted[j];
      }
      DistinctByInsert(s[0], sorted, key, f);
    }
  }
}
