/**
 * The record shape shared by server/routes/expenses.js and server/routes/income.js, and
 * what the two files do to it in the same way: the in-memory listing with its category
 * and date-range filters, the record a create builds, the merge an update applies, and the
 * invariant their `_id` counters keep.
 */
module Records {
  import opened Common
  import opened Numerals
  import opened Seqs

  /**
   * One stored expense or income record (`_id`, `title`, `amount`, `category`,
   * `description`, `date`, `createdAt`). `title` and `category` are `None` when the request
   * body did not carry them. Dates and timestamps are integers, amounts cents.
   */
  datatype Record = Record(
    id: string,
    title: Option<string>,
    amount: int,
    category: Option<string>,
    description: string,
    date: int,
    createdAt: int)

  /** A create or update body: `{ title, amount, category, description, date }`. */
  datatype Body = Body(
    title: Option<string>,
    amount: int,
    category: Option<string>,
    description: Option<string>,
    date: Option<int>)

  function RecordId(r: Record): string { r.id }
  function RecordDate(r: Record): int { r.date }
  function RecordAmount(r: Record): int { r.amount }
  /** The key `categoryTotals[exp.category]` uses. */
  function RecordCategory(r: Record): string { KeyOf(r.category) }

  // ---------------------------------------------------------------- listing

  /** Whether the `category`, `startDate` and `endDate` query parameters let `r` through. */
  predicate Matches(category: Option<string>, startDate: Option<int>, endDate: Option<int>, r: Record) {
    && (Given(category) && category.value != "All" ==> r.category == category)
    && (startDate.Some? ==> startDate.value <= r.date)
    && (endDate.Some? ==> r.date <= endDate.value)
  }

  /**
   * GET / (in-memory branch): filter a copy by category unless it is 'All', then by the
   * inclusive date bounds that are given, newest first.
   */
  function List(rs: seq<Record>, category: Option<string>, startDate: Option<int>, endDate: Option<int>): (r: seq<Record>)
    ensures SortedDesc(r, RecordDate)
    ensures |r| <= |rs|
  {
    var byCategory := if Given(category) && category.value != "All"
      then Filter(rs, (r: Record) => r.category == category) else rs;
    var fromStart := if startDate.Some?
      then Filter(byCategory, (r: Record) => r.date >= startDate.value) else byCategory;
    var toEnd := if endDate.Some?
      then Filter(fromStart, (r: Record) => r.date <= endDate.value) else fromStart;
    SortDesc(toEnd, RecordDate)
  }

  /** A listing holds each matching record as often as the store does, and nothing else. */
  lemma ListCount(rs: seq<Record>, category: Option<string>, startDate: Option<int>, endDate: Option<int>, x: Record)
    ensures multiset(List(rs, category, startDate, endDate))[x] ==
            if Matches(category, startDate, endDate, x) then multiset(rs)[x] else 0
  {
    var byCategory := if Given(category) && category.value != "All"
      then Filter(rs, (r: Record) => r.category == category) else rs;
    var fromStart := if startDate.Some?
      then Filter(byCategory, (r: Record) => r.date >= startDate.value) else byCategory;
    if Given(category) && category.value != "All" {
      FilterCount(rs, (r: Record) => r.category == category, x);
    }
    if startDate.Some? {
      FilterCount(byCategory, (r: Record) => r.date >= startDate.value, x);
    }
    if endDate.Some? {
      FilterCount(fromStart, (r: Record) => r.date <= endDate.value, x);
    }
  }

  /**
   * A listing is sorted newest first, is a sub-multiset of the store, and holds exactly the
   * records that match the query, each with its full multiplicity.
   */
  lemma ListSpec(rs: seq<Record>, category: Option<string>, startDate: Option<int>, endDate: Option<int>)
    ensures SortedDesc(List(rs, category, startDate, endDate), RecordDate)
    ensures multiset(List(rs, category, startDate, endDate)) <= multiset(rs)
    ensures forall r :: r in List(rs, category, startDate, endDate) <==> r in rs && Matches(category, startDate, endDate, r)
    ensures forall r :: Matches(category, startDate, endDate, r) ==>
              multiset(List(rs, category, startDate, endDate))[r] == multiset(rs)[r]
  {
    forall r {
      ListCount(rs, category, startDate, endDate, r);
    }
    SelectionOf(List(rs, category, startDate, endDate), rs,
                (r: Record) => Matches(category, startDate, endDate, r));
  }

  /** Every record a listing returns lies within the given bounds and category. */
  lemma ListMatches(rs: seq<Record>, category: Option<string>, startDate: Option<int>, endDate: Option<int>)
    ensures forall i :: 0 <= i < |List(rs, category, startDate, endDate)| ==>
              Matches(category, startDate, endDate, List(rs, category, startDate, endDate)[i])
  {
    var l := List(rs, category, startDate, endDate);
    forall i | 0 <= i < |l| ensures Matches(category, startDate, endDate, l[i]) {
      ListCount(rs, category, startDate, endDate, l[i]);
      assert l[i] in multiset(l);
    }
  }

  /** With no query at all, or category 'All', a listing is the whole store, newest first. */
  lemma ListUnfiltered(rs: seq<Record>)
    ensures List(rs, Some("All"), None, None) == List(rs, None, None, None) == SortDesc(rs, RecordDate)
  {
  }

  /** Listing a listing with the same query gives that listing again. */
  lemma ListIdempotent(rs: seq<Record>, category: Option<string>, startDate: Option<int>, endDate: Option<int>)
    ensures List(List(rs, category, startDate, endDate), category, startDate, endDate) == List(rs, category, startDate, endDate)
  {
    var l := List(rs, category, startDate, endDate);
    ListMatches(rs, category, startDate, endDate);
    if Given(category) && category.value != "All" {
      FilterAllPass(l, (r: Record) => r.category == category);
    }
    if startDate.Some? {
      FilterAllPass(l, (r: Record) => r.date >= startDate.value);
    }
    if endDate.Some? {
      FilterAllPass(l, (r: Record) => r.date <= endDate.value);
    }
    SortDescOfSorted(l, RecordDate);
  }

  // ---------------------------------------------------------------- create and update

  /**
   * The record a create builds: the given id, `description || ''`, `date || now` and a
   * creation time of `now`; title, amount and category as the body has them.
   */
  function Created(body: Body, id: string, now: int): (r: Record)
    ensures r.id == id && r.createdAt == now
    ensures r.title == body.title && r.amount == body.amount && r.category == body.category
    ensures r.description == (if Given(body.description) then body.description.value else "")
    ensures r.date == (if body.date.Some? then body.date.value else now)
  {
    Record(id, body.title, body.amount, body.category, OrEmpty(body.description), DateOr(body.date, now), now)
  }

  /**
   * `{ ...old, title, amount, category, description: description || '', date: date || old.date }`:
   * keeps `_id` and `createdAt`, replaces title, amount and category (even by an absent
   * value), and keeps the old date when the body has none.
   */
  function Revised(r: Record, body: Body): (u: Record)
    ensures u.id == r.id && u.createdAt == r.createdAt
    ensures u.title == body.title && u.amount == body.amount && u.category == body.category
    ensures u.description == (if Given(body.description) then body.description.value else "")
    ensures u.date == (if body.date.Some? then body.date.value else r.date)
  {
    r.(title := body.title, amount := body.amount, category := body.category,
       description := OrEmpty(body.description), date := DateOr(body.date, r.date))
  }

  // ---------------------------------------------------------------- lookup by id

  /** `expenses.find(exp => exp._id === id)`: the first record with that id. */
  function Find(rs: seq<Record>, id: string): (r: Option<Record>)
    ensures r.None? <==> forall j :: 0 <= j < |rs| ==> rs[j].id != id
    ensures r.Some? ==> (r.value.id == id &&
              exists i :: 0 <= i < |rs| && rs[i] == r.value && forall j :: 0 <= j < i ==> rs[j].id != id)
  {
    var i := IndexOf(rs, RecordId, id);
    if i == -1 then None else Some(rs[i])
  }
}
