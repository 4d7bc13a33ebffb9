/**
 * The text conversions the device modules apply to their arguments:
 * lowering the case of a value before it is matched or parsed, parsing the
 * channel selector as an unsigned machine integer, and the display form of
 * a boolean.
 */
module Parsing {
  import opened Prelude

  /** Lower-case form of one character (ASCII letters only). */
  function LowerChar(c: char): char {
    if 'A' <= c <= 'Z' then (c as int + 32) as char else c
  }

  /** `str::to_lowercase`, restricted to ASCII letters. */
  function Lower(s: string): (r: string)
    ensures |r| == |s|
    ensures forall k :: 0 <= k < |s| ==> r[k] == LowerChar(s[k])
    decreases |s|
  {
    if s == [] then [] else Lower(s[..|s| - 1]) + [LowerChar(s[|s| - 1])]
  }

  /** `s` and `word` differ at most in the case of their letters. */
  predicate EqualsIgnoringCase(s: string, word: string) {
    |s| == |word| && forall k :: 0 <= k < |s| ==> LowerChar(s[k]) == LowerChar(word[k])
  }

  /** Lowering `s` yields the lower-case word `word` exactly when the two differ only in case. */
  lemma LowerMatchesIgnoringCase(s: string, word: string)
    requires Lower(word) == word
    ensures Lower(s) == word <==> EqualsIgnoringCase(s, word)
  {
    if EqualsIgnoringCase(s, word) {
      assert forall k :: 0 <= k < |s| ==> Lower(s)[k] == Lower(word)[k];
    }
  }

  /** Display form of a `bool` (`{}` formatting). */
  function BoolText(b: bool): string {
    if b then "true" else "false"
  }

  // ---------------------------------------------------------------------
  // Unsigned integer parsing (`str::parse::<usize>()` on a 64-bit target)
  // ---------------------------------------------------------------------

  const UsizeMax: nat := 0xFFFF_FFFF_FFFF_FFFF

  predicate IsDigit(c: char) {
    '0' <= c <= '9'
  }

  predicate AllDigits(s: string) {
    forall k :: 0 <= k < |s| ==> IsDigit(s[k])
  }

  /** The value of a string of decimal digits, most significant first. */
  function DigitsValue(ds: string): nat
    requires AllDigits(ds)
    decreases |ds|
  {
    if ds == [] then 0 else DigitsValue(ds[..|ds| - 1]) * 10 + (ds[|ds| - 1] as int - '0' as int)
  }

  /**
   * The parse of a channel selector: an optional leading `+`, then one or
   * more decimal digits whose value fits in 64 bits. Everything else
   * (empty text, a lone sign, a `-`, spaces, other characters, overflow)
   * is rejected.
   */
  function ParseIndex(s: string): (r: Option<nat>)
    ensures r.Some? ==> r.value <= UsizeMax
    ensures r.Some? ==> s != [] && s != "+"
    ensures r.Some? ==> forall k :: 0 <= k < |s| ==> IsDigit(s[k]) || (k == 0 && s[k] == '+')
  {
    var ds := if |s| > 0 && s[0] == '+' then s[1..] else s;
    if ds == [] || !AllDigits(ds) then None
    else if DigitsValue(ds) > UsizeMax then None
    else Some(DigitsValue(ds))
  }

  /** Decimal text of `n` without sign or leading zeros. */
  function IndexText(n: nat): (s: string)
    ensures s != [] && AllDigits(s)
    decreases n
  {
    if n < 10 then [('0' as int + n) as char] else IndexText(n / 10) + [('0' as int + n % 10) as char]
  }

  lemma {:induction false} DigitsValueOfIndexText(n: nat)
    ensures DigitsValue(IndexText(n)) == n
    decreases n
  {
    var s := IndexText(n);
    if n >= 10 {
      DigitsValueOfIndexText(n / 10);
      assert s[..|s| - 1] == IndexText(n / 10);
    }
  }

  /** Every index that fits in 64 bits parses back from its decimal text, with or without a `+`. */
  lemma IndexRoundTrip(n: nat)
    requires n <= UsizeMax
    ensures ParseIndex(IndexText(n)) == Some(n)
    ensures ParseIndex("+" + IndexText(n)) == Some(n)
  {
    DigitsValueOfIndexText(n);
    assert ("+" + IndexText(n))[1..] == IndexText(n);
  }

  lemma {:induction false} LeadingZeroValue(ds: string)
    requires AllDigits(ds)
    ensures AllDigits("0" + ds) && DigitsValue("0" + ds) == DigitsValue(ds)
    decreases |ds|
  {
    if ds != [] {
      LeadingZeroValue(ds[..|ds| - 1]);
      assert ("0" + ds)[..|ds|] == "0" + ds[..|ds| - 1];
    }
  }

  /** Leading zeros do not change the selected channel. */
  lemma LeadingZeroIgnored(ds: string)
    requires ds != [] && AllDigits(ds)
    ensures ParseIndex("0" + ds) == ParseIndex(ds)
  {
    LeadingZeroValue(ds);
  }

  /** One leading `+` does not change the selected channel, whatever digits (leading zeros included) follow it. */
  lemma PlusIgnored(s: string)
    requires s == [] || s[0] != '+'
    ensures ParseIndex("+" + s) == ParseIndex(s)
  {
    assert ("+" + s)[1..] == s;
  }

  /** A selector whose value needs more than 64 bits is rejected. */
  lemma OverflowRejected(n: nat)
    requires n > UsizeMax
    ensures ParseIndex(IndexText(n)) == None
  {
    DigitsValueOfIndexText(n);
  }
}
