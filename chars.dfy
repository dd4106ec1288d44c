/** Characters and optional results shared by both puzzle variants. */
module Chars {

  /** A search that may find nothing; the source signals "nothing" with None or an unbound name. */
  datatype Option<T> = None | Some(value: T)

  /** Only the ASCII decimal digits count as digits. */
  predicate IsDigit(c: char) {
    '0' <= c <= '9'
  }

  /** The numeric value of a digit character, what `int` gives for it. */
  function DigitValue(c: char): (v: nat)
    requires IsDigit(c)
    ensures v <= 9
    ensures c == "0123456789"[v]
  {
    (c as int) - ('0' as int)
  }

  /** The two-character string `first + last` read as a decimal number. */
  function TwoDigitNumber(first: char, last: char): (n: nat)
    requires IsDigit(first) && IsDigit(last)
    ensures n <= 99
  {
    10 * DigitValue(first) + DigitValue(last)
  }

  /** The characters of `s` in the opposite order. */
  function Reverse<T>(s: seq<T>): (r: seq<T>)
    ensures |r| == |s|
    ensures forall i :: 0 <= i < |s| ==> r[i] == s[|s| - 1 - i]
  {
    if s == [] then [] else Reverse(s[1..]) + [s[0]]
  }

  /** `key` is a suffix of `s`: the text of `key` ends where `s` ends. */
  predicate IsSuffix<T(==)>(key: seq<T>, s: seq<T>) {
    |key| <= |s| && s[|s| - |key|..] == key
  }

  /** Reversing both sides turns "ends with" into "starts with" and back. */
  lemma ReversedPrefixIffSuffix<T>(key: seq<T>, s: seq<T>)
    ensures Reverse(key) <= Reverse(s) <==> IsSuffix(key, s)
  {
    if IsSuffix(key, s) {
      SuffixReversed(key, s);
    }
    if Reverse(key) <= Reverse(s) {
      ReversedPrefixIsSuffix(key, s);
    }
  }

  lemma SuffixReversed<T>(key: seq<T>, s: seq<T>)
    requires IsSuffix(key, s)
    ensures Reverse(key) <= Reverse(s)
  {
    var rk, rs := Reverse(key), Reverse(s);
    forall i | 0 <= i < |key| ensures rk[i] == rs[i] {
      assert s[|s| - |key|..][|key| - 1 - i] == s[|s| - 1 - i];
    }
    assert rk == rs[..|key|];
  }

  lemma ReversedPrefixIsSuffix<T>(key: seq<T>, s: seq<T>)
    requires Reverse(key) <= Reverse(s)
    ensures IsSuffix(key, s)
  {
    var rk, rs := Reverse(key), Reverse(s);
    forall i | 0 <= i < |key| ensures s[|s| - |key|..][i] == key[i] {
      assert rs[|key| - 1 - i] == rk[|key| - 1 - i];
    }
    assert s[|s| - |key|..] == key;
  }
}
