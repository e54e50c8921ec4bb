/**
 * The in-memory branch of server/routes/income.js: a store of income records with a
 * counter for `_id`s, the statistics route (total and count, no categories), and create,
 * update and delete by id. There is no route that reads one income record by id.
 */
module Income {
  import opened Common
  import opened Numerals
  import opened Seqs
  import opened Ids
  import opened Records

  /** The one income record the store starts with, dated and created at start-up (`now`). */
  function Seed(now: int): seq<Record> {
    [ Record("1", Some("Salary"), 300000, Some("Salary"), "Monthly salary", now, now) ]
  }

  /** The counter's value after the seed. */
  const FirstId: nat := 2

  /** `{ total, count }`. */
  datatype Totals = Totals(total: int, count: nat)

  /**
   * GET /api/income/stats/summary: the amounts accumulated by `reduce` from 0, and the
   * number of records; an empty store answers `{ total: 0, count: 0 }`.
   */
  function TotalsOf(rs: seq<Record>): (r: Totals)
    ensures r.total == Reduce(0, rs, RecordAmount)
    ensures rs == [] ==> r == Totals(0, 0)
  {
    Totals(SumOf(rs, RecordAmount), |rs|)
  }

  /**
   * How the statistics follow the store: appending a record to any store adds its amount
   * and one; for an index `i` of the store, removing the record at `i` takes its amount and
   * one away, and replacing it moves the total by the difference of the amounts and leaves
   * the count alone.
   */
  lemma TotalsUnderChanges(rs: seq<Record>, i: nat, v: Record, x: Record)
    ensures TotalsOf(rs + [x]) == Totals(TotalsOf(rs).total + x.amount, TotalsOf(rs).count + 1)
    ensures i < |rs| ==>
      TotalsOf(rs[..i] + rs[i + 1..]) == Totals(TotalsOf(rs).total - rs[i].amount, TotalsOf(rs).count - 1)
    ensures i < |rs| ==>
      TotalsOf(rs[i := v]) == Totals(TotalsOf(rs).total - rs[i].amount + v.amount, TotalsOf(rs).count)
  {
    SumConcat(rs, [x], RecordAmount);
    if i < |rs| {
      SumRemoveAt(rs, i, RecordAmount);
      SumUpdateAt(rs, i, v, RecordAmount);
    }
  }

  /** The seeded store's statistics: one record of 3000.00. */
  lemma SeedTotals(now: int)
    ensures TotalsOf(Seed(now)) == Totals(300000, 1)
  {
    var s := Seed(now);
    assert s[1..] == [];
    assert SumOf(s, RecordAmount) == s[0].amount + SumOf(s[1..], RecordAmount);
  }

  /** The income store: the records in insertion order and the next `_id` to issue. */
  class Store {
    var records: seq<Record>
    var nextId: nat

    /** Ids are distinct numerals, each issued before the counter's current value. */
    ghost predicate Valid()
      reads this
    {
      ValidIds(records, RecordId, nextId)
    }

    constructor (now: int)
      ensures records == Seed(now) && nextId == FirstId
      ensures Valid()
    {
      records := Seed(now);
      nextId := FirstId;
      new;
      assert NatToString(1) == "1";
      assert ParseNat("1") == 1;
    }

    /**
     * POST /api/income: appends a record under the counter's numeral and advances the
     * counter; the new id is fresh, and the statistics grow by the new amount and one.
     */
    method Create(body: Body, now: int) returns (r: Record)
      requires Valid()
      modifies this
      ensures r == Created(body, NatToString(old(nextId)), now)
      ensures records == old(records) + [r] && nextId == old(nextId) + 1
      ensures Valid()
      ensures forall j :: 0 <= j < |old(records)| ==> old(records)[j].id != r.id
      ensures TotalsOf(records) == Totals(old(TotalsOf(records)).total + r.amount, old(TotalsOf(records)).count + 1)
    {
      r := Created(body, NatToString(nextId), now);
      AppendKeepsValid(records, RecordId, nextId, r);
      SumConcat(records, [r], RecordAmount);
      records := records + [r];
      nextId := nextId + 1;
    }

    /**
     * PUT /api/income/:id: merges the body into the record with that id; an unknown id
     * answers not-found and changes nothing. The count stays, the total moves by the
     * change of amount.
     */
    method Update(id: string, body: Body) returns (res: Result<Record>)
      requires Valid()
      modifies this
      ensures nextId == old(nextId) && Valid()
      ensures var i := IndexOf(old(records), RecordId, id);
        if i == -1 then res == NotFound && records == old(records)
        else res == Ok(Revised(old(records)[i], body)) && records == old(records)[i := res.value] &&
             TotalsOf(records) == Totals(old(TotalsOf(records)).total - old(records)[i].amount + body.amount,
                                         old(TotalsOf(records)).count)
      ensures res.NotFound? <==> Find(old(records), id).None?
      ensures res.Ok? ==> Find(records, id) == Some(res.value)
    {
      var i := IndexOf(records, RecordId, id);
      if i == -1 {
        return NotFound;
      }
      var r := Revised(records[i], body);
      ReplaceKeepsValid(records, RecordId, nextId, i, r);
      SumUpdateAt(records, i, r, RecordAmount);
      records := records[i := r];
      res := Ok(r);
    }

    /**
     * DELETE /api/income/:id: removes the record with that id, keeping the others in
     * order; an unknown id answers not-found and changes nothing. Either way no record
     * with that id is left.
     */
    method Delete(id: string) returns (res: Result<()>)
      requires Valid()
      modifies this
      ensures nextId == old(nextId) && Valid()
      ensures res.NotFound? <==> Find(old(records), id).None?
      ensures var i := IndexOf(old(records), RecordId, id);
        if i == -1 then records == old(records)
        else records == old(records)[..i] + old(records)[i + 1..] &&
             TotalsOf(records) == Totals(old(TotalsOf(records)).total - old(records)[i].amount,
                                         old(TotalsOf(records)).count - 1)
      ensures Find(records, id) == None
    {
      var i := IndexOf(records, RecordId, id);
      if i == -1 {
        return NotFound;
      }
      RemoveKeepsValid(records, RecordId, nextId, i);
      SumRemoveAt(records, i, RecordAmount);
      records := records[..i] + records[i + 1..];
      res := Ok(());
    }
  }
}
