/**
 * The invariant every store with a `nextId` counter keeps: ids are distinct numerals, each
 * issued before the counter's current value; and how push, replace-at and `splice(i, 1)`
 * keep it.
 */
module Ids {
  import opened Numerals
  import opened Seqs

  /** Ids are distinct numerals, each below the counter. */
  ghost predicate ValidIds<T>(s: seq<T>, idOf: T -> string, nextId: nat) {
    IdsBelow(s, idOf, nextId) && DistinctBy(s, idOf)
  }

  /**
   * Pushing an element under the counter's numeral and advancing the counter keeps the ids
   * valid; the new id is fresh, so a lookup by it finds the new element.
   */
  lemma AppendKeepsValid<T>(s: seq<T>, idOf: T -> string, nextId: nat, x: T)
    requires ValidIds(s, idOf, nextId) && idOf(x) == NatToString(nextId)
    ensures ValidIds(s + [x], idOf, nextId + 1)
    ensures forall j :: 0 <= j < |s| ==> idOf(s[j]) != idOf(x)
    ensures IndexOf(s + [x], idOf, idOf(x)) == |s|
  {
    forall j | 0 <= j < |s| ensures idOf(s[j]) != idOf(x) {
      FreshNumeral(idOf(s[j]), nextId);
    }
    AppendIdsBelow(s, idOf, nextId, x);
    AppendDistinct(s, idOf, x);
    IndexOfAppended(s, idOf, x);
  }

  /** The counter's numeral is below the advanced counter, and older ids stay below it. */
  lemma AppendIdsBelow<T>(s: seq<T>, idOf: T -> string, nextId: nat, x: T)
    requires IdsBelow(s, idOf, nextId) && idOf(x) == NatToString(nextId)
    ensures IdsBelow(s + [x], idOf, nextId + 1)
  {
    var t := s + [x];
    NumeralOfCounter(nextId);
    forall j | 0 <= j < |t| ensures NumeralBelow(idOf(t[j]), nextId + 1) {
      if j < |s| {
        assert t[j] == s[j];
      }
    }
  }

  /** An element whose id is new keeps the ids distinct. */
  lemma AppendDistinct<T>(s: seq<T>, idOf: T -> string, x: T)
    requires DistinctBy(s, idOf)
    requires forall j :: 0 <= j < |s| ==> idOf(s[j]) != idOf(x)
    ensures DistinctBy(s + [x], idOf)
  {
    var t := s + [x];
    forall a, b | 0 <= a < b < |t| ensures idOf(t[a]) != idOf(t[b]) {
      assert t[a] == s[a];
      if b < |s| {
        assert t[b] == s[b];
      }
    }
  }

  /** Replacing an element by one with the same id keeps the ids valid and the element findable. */
  lemma ReplaceKeepsValid<T>(s: seq<T>, idOf: T -> string, nextId: nat, i: nat, v: T)
    requires ValidIds(s, idOf, nextId) && i < |s| && idOf(v) == idOf(s[i])
    ensures ValidIds(s[i := v], idOf, nextId)
    ensures IndexOf(s[i := v], idOf, idOf(v)) == i
  {
    var t := s[i := v];
    assert forall j :: 0 <= j < |t| ==> idOf(t[j]) == idOf(s[j]);
  }

  /** `splice(i, 1)` keeps the ids valid and leaves no element with the removed id. */
  lemma RemoveKeepsValid<T>(s: seq<T>, idOf: T -> string, nextId: nat, i: nat)
    requires ValidIds(s, idOf, nextId) && i < |s|
    ensures ValidIds(s[..i] + s[i + 1..], idOf, nextId)
    ensures IndexOf(s[..i] + s[i + 1..], idOf, idOf(s[i])) == -1
  {
    var t := s[..i] + s[i + 1..];
    DistinctByRemoveAt(s, i, idOf);
    forall j | 0 <= j < |t| ensures NumeralBelow(idOf(t[j]), nextId) && idOf(t[j]) != idOf(s[i]) {
      var j' := if j < i then j else j + 1;
      assert t[j] == s[j'];
    }
  }
}
