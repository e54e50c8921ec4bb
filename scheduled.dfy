/**
 * The in-memory branch of server/routes/scheduled.js: recurring charges that carry a
 * `frequency` and an `isActive` flag. The listing shows active charges only; create marks a
 * charge active and nothing clears the flag, and delete removes the charge outright.
 */
module Scheduled {
  import opened Common
  import opened Numerals
  import opened Seqs
  import opened Ids

  /** A scheduled charge; `title`, `category` and `frequency` are `None` when the body lacked them. */
  datatype Charge = Charge(
    id: string,
    title: Option<string>,
    amount: int,
    category: Option<string>,
    frequency: Option<string>,
    description: string,
    date: int,
    isActive: bool,
    createdAt: int)

  /** A create or update body: `{ title, amount, category, frequency, description, date }`. */
  datatype Body = Body(
    title: Option<string>,
    amount: int,
    category: Option<string>,
    frequency: Option<string>,
    description: Option<string>,
    date: Option<int>)

  function ChargeId(c: Charge): string { c.id }
  function ChargeDate(c: Charge): int { c.date }
  predicate IsActive(c: Charge) { c.isActive }

  /** The charge the store starts with, dated and created at start-up (`now`). */
  function Seed(now: int): seq<Charge> {
    [ Charge("1", Some("Netflix Subscription"), 1599, Some("Entertainment"), Some("monthly"),
             "Monthly streaming subscription", now, true, now) ]
  }

  /** The counter's value after the seed. */
  const FirstId: nat := 2

  // ---------------------------------------------------------------- listing

  /** Whether a charge is listed for the `category` and `frequency` query parameters. */
  predicate Matches(category: Option<string>, frequency: Option<string>, c: Charge) {
    && c.isActive
    && (Given(category) && category.value != "All" ==> c.category == category)
    && (Given(frequency) ==> c.frequency == frequency)
  }

  /**
   * GET /api/scheduled (in-memory branch): the active charges, narrowed by category unless
   * it is 'All' and by frequency when one is given, newest first. There is no date filter.
   */
  function List(cs: seq<Charge>, category: Option<string>, frequency: Option<string>): (r: seq<Charge>)
    ensures SortedDesc(r, ChargeDate)
    ensures |r| <= |cs|
  {
    var active := Filter(cs, IsActive);
    var byCategory := if Given(category) && category.value != "All"
      then Filter(active, (c: Charge) => c.category == category) else active;
    var byFrequency := if Given(frequency)
      then Filter(byCategory, (c: Charge) => c.frequency == frequency) else byCategory;
    SortDesc(byFrequency, ChargeDate)
  }

  /** A listing holds each listed charge as often as the store does, and no other charge. */
  lemma ListCount(cs: seq<Charge>, category: Option<string>, frequency: Option<string>, x: Charge)
    ensures multiset(List(cs, category, frequency))[x] ==
            if Matches(category, frequency, x) then multiset(cs)[x] else 0
  {
    var active := Filter(cs, IsActive);
    var byCategory := if Given(category) && category.value != "All"
      then Filter(active, (c: Charge) => c.category == category) else active;
    FilterCount(cs, IsActive, x);
    if Given(category) && category.value != "All" {
      FilterCount(active, (c: Charge) => c.category == category, x);
    }
    if Given(frequency) {
      FilterCount(byCategory, (c: Charge) => c.frequency == frequency, x);
    }
  }

  /**
   * A listing is sorted newest first, is a sub-multiset of the store, never shows an
   * inactive charge, and holds exactly the active charges that match the query.
   */
  lemma ListSpec(cs: seq<Charge>, category: Option<string>, frequency: Option<string>)
    ensures SortedDesc(List(cs, category, frequency), ChargeDate)
    ensures multiset(List(cs, category, frequency)) <= multiset(cs)
    ensures forall c :: c in List(cs, category, frequency) <==> c in cs && Matches(category, frequency, c)
    ensures forall c :: c in List(cs, category, frequency) ==> c.isActive
    ensures forall c :: Matches(category, frequency, c) ==>
              multiset(List(cs, category, frequency))[c] == multiset(cs)[c]
  {
    forall c {
      ListCount(cs, category, frequency, c);
    }
    SelectionOf(List(cs, category, frequency), cs, (c: Charge) => Matches(category, frequency, c));
  }

  /** Category 'All', an empty category and no category give the same listing. */
  lemma ListAllCategories(cs: seq<Charge>, frequency: Option<string>)
    ensures List(cs, Some("All"), frequency) == List(cs, None, frequency) == List(cs, Some(""), frequency)
  {
  }

  /** Every listed charge is active and matches the query. */
  lemma ListMatches(cs: seq<Charge>, category: Option<string>, frequency: Option<string>)
    ensures forall i :: 0 <= i < |List(cs, category, frequency)| ==>
              Matches(category, frequency, List(cs, category, frequency)[i])
  {
    var l := List(cs, category, frequency);
    forall i | 0 <= i < |l| ensures Matches(category, frequency, l[i]) {
      ListCount(cs, category, frequency, l[i]);
      assert l[i] in multiset(l);
    }
  }

  /** Listing a listing with the same query gives that listing again. */
  lemma ListIdempotent(cs: seq<Charge>, category: Option<string>, frequency: Option<string>)
    ensures List(List(cs, category, frequency), category, frequency) == List(cs, category, frequency)
  {
    var l := List(cs, category, frequency);
    ListMatches(cs, category, frequency);
    FilterAllPass(l, IsActive);
    if Given(category) && category.value != "All" {
      FilterAllPass(l, (c: Charge) => c.category == category);
    }
    if Given(frequency) {
      FilterAllPass(l, (c: Charge) => c.frequency == frequency);
    }
    SortDescOfSorted(l, ChargeDate);
  }

  // ---------------------------------------------------------------- create and update

  /**
   * The charge a create builds: the given id, `description || ''`, `date || now`, active,
   * created at `now`.
   */
  function Created(body: Body, id: string, now: int): (c: Charge)
    ensures c.id == id && c.createdAt == now && c.isActive
    ensures c.title == body.title && c.amount == body.amount
    ensures c.category == body.category && c.frequency == body.frequency
    ensures c.description == (if Given(body.description) then body.description.value else "")
    ensures c.date == (if body.date.Some? then body.date.value else now)
  {
    Charge(id, body.title, body.amount, body.category, body.frequency,
           OrEmpty(body.description), DateOr(body.date, now), true, now)
  }

  /**
   * `{ ...old, title, amount, category, frequency, description: description || '',
   * date: date || old.date }`: keeps `_id`, `isActive` and `createdAt`.
   */
  function Revised(c: Charge, body: Body): (u: Charge)
    ensures u.id == c.id && u.isActive == c.isActive && u.createdAt == c.createdAt
    ensures u.title == body.title && u.amount == body.amount
    ensures u.category == body.category && u.frequency == body.frequency
    ensures u.description == (if Given(body.description) then body.description.value else "")
    ensures u.date == (if body.date.Some? then body.date.value else c.date)
  {
    c.(title := body.title, amount := body.amount, category := body.category, frequency := body.frequency,
       description := OrEmpty(body.description), date := DateOr(body.date, c.date))
  }

  /** Every charge in `cs` is active. */
  predicate AllActive(cs: seq<Charge>) {
    forall i :: 0 <= i < |cs| ==> cs[i].isActive
  }

  /** When every charge is active the `isActive` filter passes everything through. */
  lemma ActiveFilterKeepsAll(cs: seq<Charge>, category: Option<string>, frequency: Option<string>)
    requires AllActive(cs)
    ensures forall c :: c in List(cs, category, frequency) <==>
              c in cs && (Given(category) && category.value != "All" ==> c.category == category) &&
              (Given(frequency) ==> c.frequency == frequency)
  {
    ListSpec(cs, category, frequency);
  }

  // ---------------------------------------------------------------- the store

  /** The scheduled-charge store: the charges in insertion order and the next `_id` to issue. */
  class Store {
    var charges: seq<Charge>
    var nextId: nat

    /**
     * Ids are distinct numerals issued before the counter's value, and every stored charge
     * is active: create sets the flag and update keeps it.
     */
    ghost predicate Valid()
      reads this
    {
      ValidIds(charges, ChargeId, nextId) && AllActive(charges)
    }

    constructor (now: int)
      ensures charges == Seed(now) && nextId == FirstId
      ensures Valid()
    {
      charges := Seed(now);
      nextId := FirstId;
      new;
      assert NatToString(1) == "1";
      assert ParseNat("1") == 1;
    }

    /** POST /api/scheduled: appends an active charge under the counter's numeral. */
    method Create(body: Body, now: int) returns (c: Charge)
      requires Valid()
      modifies this
      ensures c == Created(body, NatToString(old(nextId)), now)
      ensures charges == old(charges) + [c] && nextId == old(nextId) + 1
      ensures Valid()
      ensures forall j :: 0 <= j < |old(charges)| ==> old(charges)[j].id != c.id
      ensures IndexOf(charges, ChargeId, c.id) == |old(charges)|
    {
      c := Created(body, NatToString(nextId), now);
      AppendKeepsValid(charges, ChargeId, nextId, c);
      charges := charges + [c];
      nextId := nextId + 1;
    }

    /**
     * PUT /api/scheduled/:id: merges the body into the charge with that id; an unknown id
     * answers not-found and changes nothing.
     */
    method Update(id: string, body: Body) returns (res: Result<Charge>)
      requires Valid()
      modifies this
      ensures nextId == old(nextId) && Valid()
      ensures var i := IndexOf(old(charges), ChargeId, id);
        if i == -1 then res == NotFound && charges == old(charges)
        else res == Ok(Revised(old(charges)[i], body)) && charges == old(charges)[i := res.value]
    {
      var i := IndexOf(charges, ChargeId, id);
      if i == -1 {
        return NotFound;
      }
      var c := Revised(charges[i], body);
      ReplaceKeepsValid(charges, ChargeId, nextId, i, c);
      charges := charges[i := c];
      res := Ok(c);
    }

    /**
     * DELETE /api/scheduled/:id: removes the charge with that id outright (it is not marked
     * inactive); an unknown id answers not-found and changes nothing. Either way no charge
     * with that id is left.
     */
    method Delete(id: string) returns (res: Result<()>)
      requires Valid()
      modifies this
      ensures nextId == old(nextId) && Valid()
      ensures res.NotFound? <==> forall j :: 0 <= j < |old(charges)| ==> old(charges)[j].id != id
      ensures var i := IndexOf(old(charges), ChargeId, id);
        if i == -1 then charges == old(charges)
        else charges == old(charges)[..i] + old(charges)[i + 1..]
      ensures forall j :: 0 <= j < |charges| ==> charges[j].id != id
    {
      var i := IndexOf(charges, ChargeId, id);
      if i == -1 {
        return NotFound;
      }
      RemoveKeepsValid(charges, ChargeId, nextId, i);
      charges := charges[..i] + charges[i + 1..];
      res := Ok(());
    }
  }
}
