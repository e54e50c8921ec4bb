/** Value types shared by the four in-memory record stores. */
module Common {

  /** An optional value; `None` stands for a JavaScript `undefined` field or query parameter. */
  datatype Option<T> = None | Some(value: T)

  /** What a route handler answers in place of an HTTP status: the record (200/201) or 404. */
  datatype Result<T> = Ok(value: T) | NotFound

  /** JavaScript truthiness of an optional string: present and not the empty string. */
  predicate Given(o: Option<string>) {
    o.Some? && o.value != ""
  }

  /** `s || ''` for an optional string. */
  function OrEmpty(o: Option<string>): string {
    if Given(o) then o.value else ""
  }

  /** `d || fallback` for an optional date: an absent date falls back. */
  function DateOr(d: Option<int>, fallback: int): int {
    if d.Some? then d.value else fallback
  }

  /** The property name a field value becomes when used as an object key: `undefined` becomes "undefined". */
  function KeyOf(o: Option<string>): string {
    if o.Some? then o.value else "undefined"
  }
}
