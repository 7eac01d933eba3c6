/**
 * The two pieces of JavaScript string behaviour the bot relies on:
 * `Array.prototype.join` (the trigger list) and the decimal form of an
 * integer inside a template literal (the HTTP status code).
 */
module Strings {

  /** Total length of all the parts. */
  function SumLengths(parts: seq<string>): nat
  {
    if |parts| == 0 then 0 else SumLengths(parts[..|parts| - 1]) + |parts[|parts| - 1]|
  }

  /**
   * `parts.join(sep)`: the parts in order with `sep` between neighbours;
   * the empty string for no parts. Each separator appears once between
   * two parts, so the length is the parts' lengths plus one `sep` per gap.
   */
  function Join(parts: seq<string>, sep: string): (r: string)
    ensures |parts| == 0 ==> r == ""
    ensures |parts| > 0 ==> |r| == SumLengths(parts) + (|parts| - 1) * |sep|
    ensures |parts| > 0 ==> |parts[0]| <= |r| && r[..|parts[0]|] == parts[0]
  {
    if |parts| == 0 then ""
    else if |parts| == 1 then parts[0]
    else
      var init := parts[..|parts| - 1];
      var r := Join(init, sep) + sep + parts[|parts| - 1];
      assert init[0] == parts[0];
      assert r[..|parts[0]|] == Join(init, sep)[..|parts[0]|];
      r
  }

  /** Joining a single part gives that part back unchanged. */
  lemma JoinSingleton(part: string, sep: string)
    ensures Join([part], sep) == part
  {
  }

  /**
   * Joining reads left to right: the first part, then a separator, then the
   * join of the rest.
   */
  lemma {:induction false} JoinCons(head: string, tail: seq<string>, sep: string)
    requires |tail| > 0
    ensures Join([head] + tail, sep) == head + sep + Join(tail, sep)
  {
    var parts := [head] + tail;
    if |tail| == 1 {
      assert parts[..|parts| - 1] == [head];
    } else {
      var init := tail[..|tail| - 1];
      assert parts[..|parts| - 1] == [head] + init;
      JoinCons(head, init, sep);
    }
  }

  /** The character for a single decimal digit. */
  function DigitChar(d: nat): (c: char)
    requires d < 10
    ensures '0' <= c <= '9' && c as int - '0' as int == d
  {
    ('0' as int + d) as char
  }

  /** Every character is one of 0-9. */
  predicate IsDigits(s: string)
  {
    forall i :: 0 <= i < |s| ==> '0' <= s[i] <= '9'
  }

  /**
   * The decimal text JavaScript gives a non-negative integer in a template
   * literal: at least one digit and no leading zero.
   */
  function NatToString(n: nat): (s: string)
    ensures |s| > 0 && IsDigits(s)
    ensures s[0] == '0' ==> n == 0
    decreases n
  {
    if n < 10 then [DigitChar(n)] else NatToString(n / 10) + [DigitChar(n % 10)]
  }

  /** The value of a string of decimal digits; the inverse of NatToString. */
  function ParseDecimal(s: string): nat
    requires IsDigits(s)
  {
    if s == [] then 0
    else
      assert IsDigits(s[..|s| - 1]);
      10 * ParseDecimal(s[..|s| - 1]) + (s[|s| - 1] as int - '0' as int)
  }

  /** The decimal text of a number reads back as that number. */
  lemma {:induction false} ParseNatToString(n: nat)
    ensures ParseDecimal(NatToString(n)) == n
    decreases n
  {
    var s := NatToString(n);
    if n >= 10 {
      assert s[..|s| - 1] == NatToString(n / 10);
      ParseNatToString(n / 10);
    }
  }

  /** Different numbers have different decimal texts. */
  lemma NatToStringInjective(a: nat, b: nat)
    requires NatToString(a) == NatToString(b)
    ensures a == b
  {
    ParseNatToString(a);
    ParseNatToString(b);
  }
}
