/** Record ids: every store hands out `nextId.toString()`, the decimal numeral of a counter. */
module Numerals {

  /** The character of a decimal digit. */
  function Digit(d: nat): char
    requires d < 10
  {
    (d + '0' as int) as char
  }

  /** The value of a decimal digit character (0 for any other character). */
  function DigitValue(c: char): nat {
    if '0' <= c <= '9' then c as int - '0' as int else 0
  }

  /** `n.toString()` for a non-negative integer: its decimal numeral without leading zeros. */
  function NatToString(n: nat): (s: string)
    ensures |s| >= 1
    ensures forall i :: 0 <= i < |s| ==> '0' <= s[i] <= '9'
    decreases n
  {
    if n < 10 then [Digit(n)] else NatToString(n / 10) + [Digit(n % 10)]
  }

  /** Reads a string of decimal digits back as a number. */
  function ParseNat(s: string): nat
    decreases |s|
  {
    if s == [] then 0 else ParseNat(s[..|s| - 1]) * 10 + DigitValue(s[|s| - 1])
  }

  /** Reading back the numeral of `n` gives `n`. */
  lemma {:induction false} ParseNatToString(n: nat)
    ensures ParseNat(NatToString(n)) == n
    decreases n
  {
    var s := NatToString(n);
    if n < 10 {
      assert s[..|s| - 1] == [];
    } else {
      ParseNatToString(n / 10);
      assert s[..|s| - 1] == NatToString(n / 10);
    }
  }

  /** Two counters give the same id exactly when they are equal. */
  lemma NatToStringInjective(a: nat, b: nat)
    ensures NatToString(a) == NatToString(b) <==> a == b
  {
    ParseNatToString(a);
    ParseNatToString(b);
  }

  /** `id` is the numeral of some counter value below `n`. */
  predicate NumeralBelow(id: string, n: nat) {
    id == NatToString(ParseNat(id)) && ParseNat(id) < n
  }

  /** Every id in `s` was handed out before the counter reached `n`. */
  predicate IdsBelow<T>(s: seq<T>, idOf: T -> string, n: nat) {
    forall i :: 0 <= i < |s| ==> NumeralBelow(idOf(s[i]), n)
  }

  /** The id the counter hands out next is none of the ids issued before. */
  lemma FreshNumeral(id: string, n: nat)
    requires NumeralBelow(id, n)
    ensures id != NatToString(n)
  {
    ParseNatToString(n);
  }

  /** The numeral of `n` is below `n + 1`. */
  lemma NumeralOfCounter(n: nat)
    ensures NumeralBelow(NatToString(n), n + 1)
  {
    ParseNatToString(n);
  }
}
