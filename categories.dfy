/**
 * Per-category aggregation: the object a `forEach` builds when it adds each record's
 * amount under the record's category key, and the sums over its keys.
 */
module Categories {
  import opened Seqs

  /** The category keys that occur in `s`. */
  function KeySet<T>(s: seq<T>, key: T -> string): set<string> {
    set i | 0 <= i < |s| :: key(s[i])
  }

  /** Appending a record adds its key. */
  lemma KeySetSnoc<T>(a: seq<T>, x: T, key: T -> string)
    ensures KeySet(a + [x], key) == KeySet(a, key) + {key(x)}
  {
    var b := a + [x];
    forall k | k in KeySet(b, key) ensures k in KeySet(a, key) + {key(x)} {
      var i :| 0 <= i < |b| && key(b[i]) == k;
      if i < |a| {
        assert b[i] == a[i];
      }
    }
    forall k | k in KeySet(a, key) ensures k in KeySet(b, key) {
      var i :| 0 <= i < |a| && key(a[i]) == k;
      assert b[i] == a[i];
    }
    assert b[|a|] == x;
  }

  /**
   * No key occurs twice in `cs`. This is `Seqs.DistinctBy` with the identity; a predicate
   * on the keys themselves keeps the quantifier's trigger a plain index `cs[i]`, where an
   * identity lambda would put a function application in every proof about key lists.
   */
  ghost predicate Distinct(cs: seq<string>) {
    forall i, j :: 0 <= i < j < |cs| ==> cs[i] != cs[j]
  }

  /**
   * The keys of `s` in the order in which a `forEach` first meets them; for keys that are
   * not array indices, the order `Object.entries` reports for keys inserted one by one.
   */
  function FirstSeen<T>(s: seq<T>, key: T -> string): (r: seq<string>)
    ensures Distinct(r)
    ensures forall k :: k in r <==> k in KeySet(s, key)
  {
    if s == [] then []
    else
      var p := FirstSeen(s[..|s| - 1], key);
      var k := key(s[|s| - 1]);
      assert KeySet(s, key) == KeySet(s[..|s| - 1], key) + {k};
      if k in p then p else p + [k]
  }

  /** Of two keys of `r`, the earlier one first occurs earlier in `s`. */
  ghost predicate InFirstOrder<T>(s: seq<T>, key: T -> string, r: seq<string>) {
    forall i, j :: 0 <= i < j < |r| ==> 0 <= IndexOf(s, key, r[i]) < IndexOf(s, key, r[j])
  }

  /**
   * Appending a record keeps keys of earlier records in first-occurrence order, and a key
   * met for the first time goes behind them.
   */
  lemma InFirstOrderSnoc<T>(a: seq<T>, x: T, key: T -> string, p: seq<string>)
    requires forall k :: k in p ==> k in KeySet(a, key)
    requires InFirstOrder(a, key, p)
    ensures InFirstOrder(a + [x], key, p)
    ensures key(x) !in KeySet(a, key) ==> InFirstOrder(a + [x], key, p + [key(x)])
  {
    var s := a + [x];
    forall k | k in p ensures 0 <= IndexOf(s, key, k) == IndexOf(a, key, k) < |a| {
      var i :| 0 <= i < |a| && key(a[i]) == k;
      IndexOfPrefix(a, [x], key, k);
    }
    forall i, j | 0 <= i < j < |p| ensures 0 <= IndexOf(s, key, p[i]) < IndexOf(s, key, p[j]) {
      assert p[i] in p && p[j] in p;
    }
    if key(x) !in KeySet(a, key) {
      forall j | 0 <= j < |a| ensures key(a[j]) != key(x) {
        assert key(a[j]) in KeySet(a, key);
      }
      IndexOfAppended(a, key, x);
      var r := p + [key(x)];
      forall i, j | 0 <= i < j < |r| ensures 0 <= IndexOf(s, key, r[i]) < IndexOf(s, key, r[j]) {
        assert r[i] == p[i] && r[i] in p;
        if j < |p| {
          assert r[j] == p[j] && r[j] in p;
        }
      }
    }
  }

  /**
   * `FirstSeen` lists the keys in the order of their first occurrence: of two listed keys,
   * the earlier one first occurs earlier in `s`.
   */
  lemma {:induction false} FirstSeenOrder<T>(s: seq<T>, key: T -> string)
    ensures InFirstOrder(s, key, FirstSeen(s, key))
  {
    if s != [] {
      var a := s[..|s| - 1];
      var x := s[|s| - 1];
      assert s == a + [x];
      var p := FirstSeen(a, key);
      FirstSeenOrder(a, key);
      InFirstOrderSnoc(a, x, key, p);
      if key(x) in p {
        assert FirstSeen(s, key) == p;
      } else {
        assert FirstSeen(s, key) == p + [key(x)];
      }
    }
  }

  /** The sum of `amount` over the records of `s` whose key is `k`. */
  function CatTotal<T>(s: seq<T>, key: T -> string, amount: T -> int, k: string): int {
    if s == [] then 0
    else (if key(s[0]) == k then amount(s[0]) else 0) + CatTotal(s[1..], key, amount, k)
  }

  /** The number of records of `s` whose key is `k`. */
  function CatCount<T>(s: seq<T>, key: T -> string, k: string): int {
    CatTotal(s, key, One, k)
  }

  /** Summing the records a predicate picks is the total of the key the predicate tests for. */
  lemma {:induction false} SumOfFilter<T>(s: seq<T>, p: T -> bool, key: T -> string, amount: T -> int, k: string)
    requires forall x :: p(x) <==> key(x) == k
    ensures SumOf(Filter(s, p), amount) == CatTotal(s, key, amount, k)
  {
    if s != [] {
      var head := if p(s[0]) then [s[0]] else [];
      SumOfFilter(s[1..], p, key, amount, k);
      SumConcat(head, Filter(s[1..], p), amount);
      assert [s[0]][1..] == [];
    }
  }

  /**
   * The category totals of the records a predicate picks are the category totals of all
   * records, with the amount of each record the predicate rejects counted as 0.
   */
  lemma {:induction false} CatTotalOfFilter<T>(s: seq<T>, p: T -> bool, key: T -> string, amount: T -> int,
                                               masked: T -> int, k: string)
    requires forall x :: masked(x) == if p(x) then amount(x) else 0
    ensures CatTotal(Filter(s, p), key, amount, k) == CatTotal(s, key, masked, k)
  {
    if s != [] {
      var head := if p(s[0]) then [s[0]] else [];
      CatTotalOfFilter(s[1..], p, key, amount, masked, k);
      CatTotalConcat(head, Filter(s[1..], p), key, amount, k);
      assert [s[0]][1..] == [];
    }
  }

  /** Category totals of two pieces add up. */
  lemma {:induction false} CatTotalConcat<T>(a: seq<T>, b: seq<T>, key: T -> string, amount: T -> int, k: string)
    ensures CatTotal(a + b, key, amount, k) == CatTotal(a, key, amount, k) + CatTotal(b, key, amount, k)
  {
    if a == [] {
      assert a + b == b;
    } else {
      CatTotalConcat(a[1..], b, key, amount, k);
      assert (a + b)[1..] == a[1..] + b;
    }
  }

  /** Appending one record adds its amount to its own category and to no other. */
  lemma CatTotalSnoc<T>(a: seq<T>, x: T, key: T -> string, amount: T -> int, k: string)
    ensures CatTotal(a + [x], key, amount, k) ==
            CatTotal(a, key, amount, k) + (if key(x) == k then amount(x) else 0)
  {
    CatTotalConcat(a, [x], key, amount, k);
  }

  /** A key that occurs nowhere has total 0. */
  lemma {:induction false} CatTotalAbsent<T>(s: seq<T>, key: T -> string, amount: T -> int, k: string)
    requires k !in KeySet(s, key)
    ensures CatTotal(s, key, amount, k) == 0
  {
    if s != [] {
      assert key(s[0]) in KeySet(s, key);
      assert KeySet(s[1..], key) <= KeySet(s, key) by {
        forall k' | k' in KeySet(s[1..], key) ensures k' in KeySet(s, key) {
          var i :| 0 <= i < |s[1..]| && key(s[1..][i]) == k';
          assert key(s[i + 1]) == k';
        }
      }
      CatTotalAbsent(s[1..], key, amount, k);
    }
  }

  /**
   * One step of the `forEach`: `totals[key(x)] = (totals[key(x)] || 0) + amount(x)` turns the
   * totals of `a` into the totals of `a + [x]`.
   */
  function AddToTotals<T>(totals: map<string, int>, a: seq<T>, x: T, key: T -> string, amount: T -> int): (r: map<string, int>)
    requires totals.Keys == KeySet(a, key)
    requires forall k :: k in totals ==> totals[k] == CatTotal(a, key, amount, k)
    ensures r.Keys == KeySet(a + [x], key)
    ensures forall k :: k in r ==> r[k] == CatTotal(a + [x], key, amount, k)
  {
    var k := key(x);
    KeySetSnoc(a, x, key);
    forall k' ensures CatTotal(a + [x], key, amount, k') ==
        CatTotal(a, key, amount, k') + (if k == k' then amount(x) else 0) {
      CatTotalSnoc(a, x, key, amount, k');
    }
    if k !in totals then
      CatTotalAbsent(a, key, amount, k);
      totals[k := amount(x)]
    else
      totals[k := totals[k] + amount(x)]
  }

  /** The sum over the keys `cs` of each key's category total. */
  function SumByKeys<T>(cs: seq<string>, s: seq<T>, key: T -> string, amount: T -> int): int {
    if cs == [] then 0 else CatTotal(s, key, amount, cs[0]) + SumByKeys(cs[1..], s, key, amount)
  }

  /** Summing category totals over keys is additive in the records. */
  lemma {:induction false} SumByKeysConcat<T>(cs: seq<string>, a: seq<T>, b: seq<T>, key: T -> string, amount: T -> int)
    ensures SumByKeys(cs, a + b, key, amount) == SumByKeys(cs, a, key, amount) + SumByKeys(cs, b, key, amount)
  {
    if cs != [] {
      CatTotalConcat(a, b, key, amount, cs[0]);
      SumByKeysConcat(cs[1..], a, b, key, amount);
    }
  }

  /** With no records every key sums to 0. */
  lemma {:induction false} SumByKeysEmpty<T>(cs: seq<string>, s: seq<T>, key: T -> string, amount: T -> int)
    requires s == []
    ensures SumByKeys(cs, s, key, amount) == 0
  {
    if cs != [] {
      SumByKeysEmpty(cs[1..], s, key, amount);
    }
  }

  /** One record is counted once, under the one key of `cs` that is its own. */
  lemma {:induction false} SumByKeysSingle<T>(cs: seq<string>, x: T, key: T -> string, amount: T -> int)
    requires Distinct(cs)
    ensures SumByKeys(cs, [x], key, amount) == if key(x) in cs then amount(x) else 0
  {
    if cs != [] {
      SumByKeysSingle(cs[1..], x, key, amount);
      assert [x][1..] == [];
      assert CatTotal([x], key, amount, cs[0]) == if key(x) == cs[0] then amount(x) else 0;
      assert cs == [cs[0]] + cs[1..];
      if key(x) == cs[0] {
        assert key(x) !in cs[1..] by {
          forall j | 0 <= j < |cs[1..]| ensures cs[1..][j] != key(x) {
            assert cs[j + 1] != cs[0];
          }
        }
      }
    }
  }

  /**
   * Category totals over distinct keys that cover every record add up to the grand
   * total: no record is lost and none is counted twice.
   */
  lemma {:induction false} SumByKeysIsTotal<T>(cs: seq<string>, s: seq<T>, key: T -> string, amount: T -> int)
    requires Distinct(cs)
    requires forall i :: 0 <= i < |s| ==> key(s[i]) in cs
    ensures SumByKeys(cs, s, key, amount) == SumOf(s, amount)
  {
    if s == [] {
      SumByKeysEmpty(cs, s, key, amount);
    } else {
      assert s == [s[0]] + s[1..];
      SumByKeysConcat(cs, [s[0]], s[1..], key, amount);
      SumByKeysSingle(cs, s[0], key, amount);
      SumByKeysIsTotal(cs, s[1..], key, amount);
    }
  }

  /** Category counts over distinct keys that cover every record add up to the number of records. */
  lemma CountByKeysIsLength<T>(cs: seq<string>, s: seq<T>, key: T -> string)
    requires Distinct(cs)
    requires forall i :: 0 <= i < |s| ==> key(s[i]) in cs
    ensures SumByKeys(cs, s, key, One) == |s|
  {
    SumByKeysIsTotal(cs, s, key, One);
    SumOfOne(s);
  }

  /** Replacing one record moves its old amount out of its old category and the new amount into the new one. */
  lemma CatTotalUpdateAt<T>(s: seq<T>, i: nat, v: T, key: T -> string, amount: T -> int, k: string)
    requires i < |s|
    ensures CatTotal(s[i := v], key, amount, k) ==
            CatTotal(s, key, amount, k)
            - (if key(s[i]) == k then amount(s[i]) else 0)
            + (if key(v) == k then amount(v) else 0)
  {
    var t := s[i := v];
    assert s == s[..i] + [s[i]] + s[i + 1..];
    assert t == s[..i] + [v] + s[i + 1..];
    CatTotalConcat(s[..i] + [s[i]], s[i + 1..], key, amount, k);
    CatTotalConcat(s[..i], [s[i]], key, amount, k);
    CatTotalConcat(s[..i] + [v], s[i + 1..], key, amount, k);
    CatTotalConcat(s[..i], [v], key, amount, k);
  }

  /** The sum of the values `m` holds for the keys `cs`. */
  function SumValues(cs: seq<string>, m: map<string, int>): int {
    if cs == [] then 0 else (if cs[0] in m then m[cs[0]] else 0) + SumValues(cs[1..], m)
  }

  /** Summing a map of category totals over keys is summing the totals themselves. */
  lemma {:induction false} SumValuesOfTotals<T>(cs: seq<string>, m: map<string, int>, s: seq<T>, key: T -> string, amount: T -> int)
    requires forall k :: k in cs ==> k in m && m[k] == CatTotal(s, key, amount, k)
    ensures SumValues(cs, m) == SumByKeys(cs, s, key, amount)
  {
    if cs != [] {
      SumValuesOfTotals(cs[1..], m, s, key, amount);
    }
  }
}
