/**
 * The in-memory branch of server/routes/expenses.js: a store of expense records with a
 * counter for `_id`s, the statistics route that totals the expenses overall and per
 * category, and create, update and delete by id.
 */
module Expenses {
  import opened Common
  import opened Numerals
  import opened Seqs
  import opened Categories
  import opened Ids
  import opened Records

  /** The two expenses the store starts with, dated and created at start-up (`now`). */
  function Seed(now: int): seq<Record> {
    [ Record("1", Some("Grocery Shopping"), 8550, Some("Food"), "Weekly grocery shopping", now, now),
      Record("2", Some("Gas Station"), 4500, Some("Transportation"), "Fuel for car", now, now) ]
  }

  /** The counter's value after the seed. */
  const FirstId: nat := 3

  // ---------------------------------------------------------------- statistics

  /** The `{ total, count }` the statistics loop keeps per category. */
  datatype Tally = Tally(total: int, count: int)

  /** One entry of the `categories` answer: `{ _id: category, total, count }`. */
  datatype CategoryStat = CategoryStat(category: string, total: int, count: int)

  function StatCategory(e: CategoryStat): string { e.category }
  function StatTotal(e: CategoryStat): int { e.total }
  function StatCount(e: CategoryStat): int { e.count }

  /** `t` holds, for exactly the categories of `a`, their total amount and their number of records. */
  ghost predicate TalliesOf(t: map<string, Tally>, a: seq<Record>) {
    && t.Keys == KeySet(a, RecordCategory)
    && forall k :: k in t ==>
         t[k] == Tally(CatTotal(a, RecordCategory, RecordAmount, k), CatCount(a, RecordCategory, k))
  }

  /**
   * One step of the `forEach`: create `{ total: 0, count: 0 }` for a category met for the
   * first time, then add the amount and one to it.
   */
  function Tallied(t: map<string, Tally>, a: seq<Record>, x: Record): (r: map<string, Tally>)
    requires TalliesOf(t, a)
    ensures TalliesOf(r, a + [x])
  {
    var k := RecordCategory(x);
    var cur := if k in t then t[k] else Tally(0, 0);
    KeySetSnoc(a, x, RecordCategory);
    forall k' ensures CatTotal(a + [x], RecordCategory, RecordAmount, k') ==
        CatTotal(a, RecordCategory, RecordAmount, k') + (if k == k' then x.amount else 0)
      ensures CatCount(a + [x], RecordCategory, k') ==
        CatCount(a, RecordCategory, k') + (if k == k' then 1 else 0)
    {
      CatTotalSnoc(a, x, RecordCategory, RecordAmount, k');
      CatTotalSnoc(a, x, RecordCategory, One, k');
    }
    if k !in t then
      CatTotalAbsent(a, RecordCategory, RecordAmount, k);
      CatTotalAbsent(a, RecordCategory, One, k);
      t[k := Tally(cur.total + x.amount, cur.count + 1)]
    else
      t[k := Tally(cur.total + x.amount, cur.count + 1)]
  }

  /** The entry each key of `cs` has: its total amount and its number of records in `rs`. */
  function Entries(cs: seq<string>, rs: seq<Record>): seq<CategoryStat> {
    seq(|cs|, j requires 0 <= j < |cs| =>
      CategoryStat(cs[j], CatTotal(rs, RecordCategory, RecordAmount, cs[j]), CatCount(rs, RecordCategory, cs[j])))
  }

  /**
   * `Object.entries(categoryTotals).map(...)`: an entry for each key of `order`, with the
   * total and count the tally map holds for it.
   */
  function EntriesOf(order: seq<string>, tallies: map<string, Tally>): (r: seq<CategoryStat>)
    requires forall j :: 0 <= j < |order| ==> order[j] in tallies
    ensures |r| == |order|
    ensures forall j :: 0 <= j < |r| ==> r[j].category == order[j]
  {
    seq(|order|, j requires 0 <= j < |order| =>
      CategoryStat(order[j], tallies[order[j]].total, tallies[order[j]].count))
  }

  /** With the tallies of `rs`, the entries made from the map are the entries of `rs`. */
  lemma EntriesOfTallies(order: seq<string>, tallies: map<string, Tally>, rs: seq<Record>)
    requires TalliesOf(tallies, rs)
    requires forall j :: 0 <= j < |order| ==> order[j] in tallies
    ensures EntriesOf(order, tallies) == Entries(order, rs)
  {
  }

  /**
   * The `categories` part of the statistics: one entry per category in the order the
   * categories first occur (the `Object.entries` order for category names that are not
   * array indices), then sorted by total, largest first.
   */
  function CategoryStats(rs: seq<Record>): (r: seq<CategoryStat>)
    ensures SortedDesc(r, StatTotal)
    ensures forall e :: e in r ==>
              e.total == CatTotal(rs, RecordCategory, RecordAmount, e.category) &&
              e.count == CatCount(rs, RecordCategory, e.category)
  {
    var entries := Entries(FirstSeen(rs, RecordCategory), rs);
    var r := SortDesc(entries, StatTotal);
    assert forall e :: e in r ==> e in entries by {
      forall e | e in r ensures e in entries {
        assert e in multiset(r);
      }
    }
    r
  }

  /** Dropping the first key drops the first entry. */
  lemma EntriesTail(cs: seq<string>, rs: seq<Record>)
    requires cs != []
    ensures Entries(cs, rs)[1..] == Entries(cs[1..], rs)
  {
  }

  /** The entry totals over `cs` are the category totals summed over `cs`. */
  lemma {:induction false} EntriesSums(cs: seq<string>, rs: seq<Record>)
    ensures SumOf(Entries(cs, rs), StatTotal) == SumByKeys(cs, rs, RecordCategory, RecordAmount)
    ensures SumOf(Entries(cs, rs), StatCount) == SumByKeys(cs, rs, RecordCategory, One)
  {
    if cs != [] {
      EntriesTail(cs, rs);
      EntriesSums(cs[1..], rs);
    }
  }

  /** Every entry of the statistics is the entry of one of the categories, in first-seen order. */
  lemma CategoryStatsFromEntries(rs: seq<Record>, e: CategoryStat)
    requires e in CategoryStats(rs)
    ensures exists i :: 0 <= i < |FirstSeen(rs, RecordCategory)| && Entries(FirstSeen(rs, RecordCategory), rs)[i] == e
  {
    var entries := Entries(FirstSeen(rs, RecordCategory), rs);
    assert e in multiset(entries);
    assert e in entries;
  }

  /**
   * The statistics answer what the source promises: the per-category totals add up to the
   * overall total and the counts to the number of expenses; every category occurs exactly
   * once, each entry holds its own category's total and count, and the entries are
   * sorted by total, largest first.
   */
  lemma CategoryStatsSpec(rs: seq<Record>)
    ensures SortedDesc(CategoryStats(rs), StatTotal)
    ensures DistinctBy(CategoryStats(rs), StatCategory)
    ensures forall k :: k in KeySet(rs, RecordCategory) <==>
              exists j :: 0 <= j < |CategoryStats(rs)| && CategoryStats(rs)[j].category == k
    ensures forall e :: e in CategoryStats(rs) ==>
              e.total == CatTotal(rs, RecordCategory, RecordAmount, e.category) &&
              e.count == CatCount(rs, RecordCategory, e.category)
    ensures SumOf(CategoryStats(rs), StatTotal) == SumOf(rs, RecordAmount)
    ensures SumOf(CategoryStats(rs), StatCount) == |rs|
  {
    CategoryStatsShape(rs);
    CategoryStatsSums(rs);
  }

  /** Distinct categories, the categories of the records, each with its own total and count. */
  lemma CategoryStatsShape(rs: seq<Record>)
    ensures DistinctBy(CategoryStats(rs), StatCategory)
    ensures forall k :: k in KeySet(rs, RecordCategory) <==>
              exists j :: 0 <= j < |CategoryStats(rs)| && CategoryStats(rs)[j].category == k
    ensures forall e :: e in CategoryStats(rs) ==>
              e.total == CatTotal(rs, RecordCategory, RecordAmount, e.category) &&
              e.count == CatCount(rs, RecordCategory, e.category)
  {
    var entries := Entries(FirstSeen(rs, RecordCategory), rs);
    assert DistinctBy(entries, StatCategory);
    DistinctBySortDesc(entries, StatTotal, StatCategory);
    CategoryStatsCover(rs);
    CategoryStatsEntries(rs);
  }

  /** Every category of the records has an entry. */
  lemma CategoryStatsCover(rs: seq<Record>)
    ensures forall k :: k in KeySet(rs, RecordCategory) ==>
              exists j :: 0 <= j < |CategoryStats(rs)| && CategoryStats(rs)[j].category == k
  {
    var cs := FirstSeen(rs, RecordCategory);
    var entries := Entries(cs, rs);
    var stats := CategoryStats(rs);
    forall k | k in KeySet(rs, RecordCategory)
      ensures exists j :: 0 <= j < |stats| && stats[j].category == k
    {
      var i :| 0 <= i < |cs| && cs[i] == k;
      assert entries[i] in multiset(stats);
      var j :| 0 <= j < |stats| && stats[j] == entries[i];
    }
  }

  /** Every entry is a category of the records, with that category's total and count. */
  lemma CategoryStatsEntries(rs: seq<Record>)
    ensures forall j :: 0 <= j < |CategoryStats(rs)| ==>
              CategoryStats(rs)[j].category in KeySet(rs, RecordCategory)
    ensures forall e :: e in CategoryStats(rs) ==>
              e.total == CatTotal(rs, RecordCategory, RecordAmount, e.category) &&
              e.count == CatCount(rs, RecordCategory, e.category)
  {
    var cs := FirstSeen(rs, RecordCategory);
    var entries := Entries(cs, rs);
    var stats := CategoryStats(rs);
    forall j | 0 <= j < |stats|
      ensures stats[j].category in KeySet(rs, RecordCategory)
      ensures stats[j].total == CatTotal(rs, RecordCategory, RecordAmount, stats[j].category)
      ensures stats[j].count == CatCount(rs, RecordCategory, stats[j].category)
    {
      CategoryStatsFromEntries(rs, stats[j]);
      var i :| 0 <= i < |cs| && entries[i] == stats[j];
      assert cs[i] in cs;
    }
  }

  /** The entries' totals add up to the total amount, their counts to the number of records. */
  lemma CategoryStatsSums(rs: seq<Record>)
    ensures SumOf(CategoryStats(rs), StatTotal) == SumOf(rs, RecordAmount)
    ensures SumOf(CategoryStats(rs), StatCount) == |rs|
  {
    var cs := FirstSeen(rs, RecordCategory);
    var entries := Entries(cs, rs);
    assert forall i :: 0 <= i < |rs| ==> RecordCategory(rs[i]) in KeySet(rs, RecordCategory);
    EntriesSums(cs, rs);
    SumSortDesc(entries, StatTotal, StatTotal);
    SumSortDesc(entries, StatTotal, StatCount);
    SumByKeysIsTotal(cs, rs, RecordCategory, RecordAmount);
    CountByKeysIsLength(cs, rs, RecordCategory);
  }

  // ---------------------------------------------------------------- the store

  /** The expense store: the records in insertion order and the next `_id` to issue. */
  class Store {
    var records: seq<Record>
    var nextId: nat

    /** Ids are distinct numerals, each issued before the counter's current value. */
    ghost predicate Valid()
      reads this
    {
      ValidIds(records, RecordId, nextId)
    }

    constructor (now: int)
      ensures records == Seed(now) && nextId == FirstId
      ensures Valid()
    {
      records := Seed(now);
      nextId := FirstId;
      new;
      assert NatToString(1) == "1" && NatToString(2) == "2";
      assert ParseNat("1") == 1 && ParseNat("2") == 2;
    }

    /** GET /api/expenses/:id: the first expense with that id (`find`), or not found. */
    function Get(id: string): (r: Result<Record>)
      reads this
      ensures r.NotFound? <==> forall j :: 0 <= j < |records| ==> records[j].id != id
      ensures r.Ok? ==> r.value in records && r.value.id == id
      ensures r.Ok? ==> Find(records, id) == Some(r.value)
    {
      match Find(records, id)
      case None => NotFound
      case Some(e) => Ok(e)
    }

    /**
     * POST /api/expenses: appends a record under the counter's numeral and advances the
     * counter; the new id is fresh, so the new expense is the one found under it.
     */
    method Create(body: Body, now: int) returns (r: Record)
      requires Valid()
      modifies this
      ensures r == Created(body, NatToString(old(nextId)), now)
      ensures records == old(records) + [r] && nextId == old(nextId) + 1
      ensures Valid()
      ensures forall j :: 0 <= j < |old(records)| ==> old(records)[j].id != r.id
      ensures Find(records, r.id) == Some(r)
    {
      r := Created(body, NatToString(nextId), now);
      AppendKeepsValid(records, RecordId, nextId, r);
      records := records + [r];
      nextId := nextId + 1;
    }

    /**
     * PUT /api/expenses/:id: merges the body into the expense with that id; an unknown id
     * answers not-found and changes nothing.
     */
    method Update(id: string, body: Body) returns (res: Result<Record>)
      requires Valid()
      modifies this
      ensures nextId == old(nextId) && Valid()
      ensures var i := IndexOf(old(records), RecordId, id);
        if i == -1 then res == NotFound && records == old(records)
        else res == Ok(Revised(old(records)[i], body)) && records == old(records)[i := res.value]
      ensures res.NotFound? <==> Find(old(records), id).None?
      ensures res.Ok? ==> Find(records, id) == Some(res.value)
    {
      var i := IndexOf(records, RecordId, id);
      if i == -1 {
        return NotFound;
      }
      var r := Revised(records[i], body);
      ReplaceKeepsValid(records, RecordId, nextId, i, r);
      records := records[i := r];
      res := Ok(r);
    }

    /**
     * DELETE /api/expenses/:id: removes the expense with that id, keeping the others in
     * order; an unknown id answers not-found and changes nothing. Either way no expense
     * with that id is left.
     */
    method Delete(id: string) returns (res: Result<()>)
      requires Valid()
      modifies this
      ensures nextId == old(nextId) && Valid()
      ensures res.NotFound? <==> Find(old(records), id).None?
      ensures var i := IndexOf(old(records), RecordId, id);
        if i == -1 then records == old(records)
        else records == old(records)[..i] + old(records)[i + 1..]
      ensures Find(records, id) == None
    {
      var i := IndexOf(records, RecordId, id);
      if i == -1 {
        return NotFound;
      }
      RemoveKeepsValid(records, RecordId, nextId, i);
      records := records[..i] + records[i + 1..];
      res := Ok(());
    }

    /**
     * GET /api/expenses/stats/summary: the total amount, the number of expenses, and the
     * per-category entries, tallied one expense at a time in a map and then listed in the
     * order the categories first occurred, sorted by total.
     */
    method Stats() returns (total: int, count: nat, categories: seq<CategoryStat>)
      ensures total == SumOf(records, RecordAmount) && count == |records|
      ensures categories == CategoryStats(records)
      ensures SumOf(categories, StatTotal) == total && SumOf(categories, StatCount) == count
      ensures DistinctBy(categories, StatCategory) && SortedDesc(categories, StatTotal)
    {
      total := SumOf(records, RecordAmount);
      count := |records|;
      var order: seq<string> := [];
      var tallies: map<string, Tally> := map[];
      var i := 0;
      while i < |records|
        invariant 0 <= i <= |records|
        invariant order == FirstSeen(records[..i], RecordCategory)
        invariant TalliesOf(tallies, records[..i])
      {
        var a := records[..i + 1];
        assert a[..i] == records[..i] && a == records[..i] + [records[i]];
        if RecordCategory(records[i]) !in tallies {
          order := order + [RecordCategory(records[i])];
        }
        tallies := Tallied(tallies, records[..i], records[i]);
        i := i + 1;
      }
      assert records[..i] == records;
      assert forall j :: 0 <= j < |order| ==> order[j] in tallies;
      var entries := EntriesOf(order, tallies);
      EntriesOfTallies(order, tallies, records);
      categories := SortDesc(entries, StatTotal);
      CategoryStatsSpec(records);
    }
  }

  /** The seeded store's statistics: Food 85.50 ahead of Transportation 45.00. */
  lemma SeedStats(now: int)
    ensures SumOf(Seed(now), RecordAmount) == 13050
    ensures CategoryStats(Seed(now)) ==
            [CategoryStat("Food", 8550, 1), CategoryStat("Transportation", 4500, 1)]
  {
    var s := Seed(now);
    assert s[1..][1..] == [];
    assert SumOf(s, RecordAmount) == 8550 + SumOf(s[1..], RecordAmount) == 8550 + 4500;
    assert s[..1][..0] == [] && s[..|s| - 1] == s[..1];
    assert FirstSeen(s[..1], RecordCategory) == ["Food"];
    assert FirstSeen(s, RecordCategory) == ["Food", "Transportation"];
    var cs := ["Food", "Transportation"];
    assert s[1..] == [s[1]];
    forall k ensures CatTotal(s, RecordCategory, RecordAmount, k) ==
        (if k == "Food" then 8550 else 0) + (if k == "Transportation" then 4500 else 0)
      ensures CatCount(s, RecordCategory, k) ==
        (if k == "Food" then 1 else 0) + (if k == "Transportation" then 1 else 0)
    {
      assert CatTotal(s[1..], RecordCategory, RecordAmount, k) == (if k == "Transportation" then 4500 else 0);
      assert CatTotal(s[1..], RecordCategory, One, k) == (if k == "Transportation" then 1 else 0);
    }
    assert CatTotal(s, RecordCategory, RecordAmount, "Food") == 8550;
    assert CatTotal(s, RecordCategory, RecordAmount, "Transportation") == 4500;
    assert CatCount(s, RecordCategory, "Food") == 1;
    assert CatCount(s, RecordCategory, "Transportation") == 1;
    var e := Entries(cs, s);
    assert e == [CategoryStat("Food", 8550, 1), CategoryStat("Transportation", 4500, 1)];
    assert e[1..][1..] == [];
    SortDescOfSorted(e, StatTotal);
  }
}
