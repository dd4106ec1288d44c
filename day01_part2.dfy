/**
 * Part 2 of the day 1 puzzle: a digit is either a literal digit character or
 * a spelled-out digit word. The first digit of a line is the one that starts
 * at the smallest offset; the last is the one that ends at the largest
 * position, found by matching reversed prefixes against reversed words.
 */
module Day01Part2 {
  import opened Chars
  import Document
  import Day01Part1

  /** One item of a digit-word table: a word and the digit character it stands for. */
  datatype Entry = Entry(key: seq<char>, value: char)

  /** The spelled-out digits, in the order their lookups are tried. */
  const DIGITS: seq<Entry> := [
    Entry("one", '1'), Entry("two", '2'), Entry("three", '3'), Entry("four", '4'), Entry("five", '5'),
    Entry("six", '6'), Entry("seven", '7'), Entry("eight", '8'), Entry("nine", '9'), Entry("zero", '0')
  ]

  /** The same table with every word spelled backwards, in the same order. */
  function ReverseKeys(table: seq<Entry>): (r: seq<Entry>)
    ensures |r| == |table|
    ensures forall i :: 0 <= i < |table| ==> r[i].key == Reverse(table[i].key) && r[i].value == table[i].value
  {
    if table == [] then [] else [Entry(Reverse(table[0].key), table[0].value)] + ReverseKeys(table[1..])
  }

  const REVERSED_DIGITS: seq<Entry> := ReverseKeys(DIGITS)

  predicate ValuesAreDigits(table: seq<Entry>) {
    forall i :: 0 <= i < |table| ==> IsDigit(table[i].value)
  }

  /** No word of the table begins another one. */
  predicate PrefixFree(table: seq<Entry>) {
    forall i, j :: 0 <= i < |table| && 0 <= j < |table| && i != j ==> !(table[i].key <= table[j].key)
  }

  /** No word of the table ends another one. */
  predicate SuffixFree(table: seq<Entry>) {
    forall i, j :: 0 <= i < |table| && 0 <= j < |table| && i != j ==> !IsSuffix(table[i].key, table[j].key)
  }

  // ---------------------------------------------------------------------------
  // Facts about the fixed table
  // ---------------------------------------------------------------------------

  /** Which word of DIGITS starts with the characters `a`, `b`. */
  function HeadRank(a: char, b: char): nat {
    if a == 'o' then 0
    else if a == 't' then (if b == 'w' then 1 else 2)
    else if a == 'f' then (if b == 'o' then 3 else 4)
    else if a == 's' then (if b == 'i' then 5 else 6)
    else if a == 'e' then 7
    else if a == 'n' then 8
    else 9
  }

  /** Which word of DIGITS ends with the characters `a`, `b`, `c`. */
  function TailRank(a: char, b: char, c: char): nat {
    if c == 'e' then (if b == 'v' then 4 else if b == 'e' then 2 else if a == 'o' then 0 else 8)
    else if c == 'o' then (if b == 'w' then 1 else 9)
    else if c == 'r' then 3
    else if c == 'x' then 5
    else if c == 'n' then 6
    else 7
  }

  /** Entry `i` has at least three letters, and its first and last letters single it out. */
  predicate Ranked(table: seq<Entry>, i: int)
    requires 0 <= i < |table|
  {
    var k := table[i].key;
    |k| >= 3 && HeadRank(k[0], k[1]) == i && TailRank(k[|k| - 3], k[|k| - 2], k[|k| - 1]) == i
  }

  lemma DigitRanked(i: int)
    requires 0 <= i < |DIGITS|
    ensures Ranked(DIGITS, i) && IsDigit(DIGITS[i].value)
  {
    if i == 0 {} else if i == 1 {} else if i == 2 {} else if i == 3 {} else if i == 4 {}
    else if i == 5 {} else if i == 6 {} else if i == 7 {} else if i == 8 {} else {}
  }

  lemma DigitsRanked()
    ensures forall i :: 0 <= i < |DIGITS| ==> Ranked(DIGITS, i)
    ensures ValuesAreDigits(DIGITS)
  {
    forall i | 0 <= i < |DIGITS| ensures Ranked(DIGITS, i) && IsDigit(DIGITS[i].value) {
      DigitRanked(i);
    }
  }

  /** A word that begins another shares its first two letters. */
  lemma PrefixSharesHead(a: seq<char>, b: seq<char>)
    requires |a| >= 2 && a <= b
    ensures a[0] == b[0] && a[1] == b[1]
  {
  }

  /** A word that ends another shares its last three letters. */
  lemma SuffixSharesTail(a: seq<char>, b: seq<char>)
    requires |a| >= 3 && IsSuffix(a, b)
    ensures a[|a| - 3] == b[|b| - 3] && a[|a| - 2] == b[|b| - 2] && a[|a| - 1] == b[|b| - 1]
  {
    assert b[|b| - |a|..] == a;
  }

  lemma {:induction false} RankedTableIsFree(table: seq<Entry>)
    requires forall i :: 0 <= i < |table| ==> Ranked(table, i)
    ensures PrefixFree(table) && SuffixFree(table)
  {
    forall i, j | 0 <= i < |table| && 0 <= j < |table| && i != j
      ensures !(table[i].key <= table[j].key) && !IsSuffix(table[i].key, table[j].key)
    {
      assert Ranked(table, i) && Ranked(table, j);
      var ki, kj := table[i].key, table[j].key;
      if ki <= kj {
        PrefixSharesHead(ki, kj);
      }
      if IsSuffix(ki, kj) {
        SuffixSharesTail(ki, kj);
      }
    }
  }

  /** No digit word begins or ends another, and every value is a digit. */
  lemma DigitsWellFormed()
    ensures PrefixFree(DIGITS) && SuffixFree(DIGITS) && ValuesAreDigits(DIGITS)
    ensures forall i :: 0 <= i < |DIGITS| ==> |DIGITS[i].key| >= 3
  {
    DigitsRanked();
    RankedTableIsFree(DIGITS);
  }

  /** Both tables map words to digit characters. */
  lemma DigitValues()
    ensures ValuesAreDigits(DIGITS) && ValuesAreDigits(REVERSED_DIGITS)
  {
    DigitsRanked();
  }

  /** Reversing the words turns a suffix-free table into a prefix-free one. */
  lemma {:induction false} ReverseKeysPrefixFree(table: seq<Entry>)
    requires SuffixFree(table)
    ensures PrefixFree(ReverseKeys(table))
  {
    var r := ReverseKeys(table);
    forall i, j | 0 <= i < |r| && 0 <= j < |r| && i != j ensures !(r[i].key <= r[j].key) {
      ReversedPrefixIffSuffix(table[i].key, table[j].key);
    }
  }

  /** REVERSED_DIGITS holds each word of DIGITS reversed, with the same digit, and no reversed word begins another. */
  lemma ReversedDigitsWellFormed()
    ensures |REVERSED_DIGITS| == |DIGITS|
    ensures forall i :: 0 <= i < |DIGITS| ==>
      REVERSED_DIGITS[i].key == Reverse(DIGITS[i].key) && REVERSED_DIGITS[i].value == DIGITS[i].value
    ensures PrefixFree(REVERSED_DIGITS) && ValuesAreDigits(REVERSED_DIGITS)
  {
    DigitsWellFormed();
    ReverseKeysPrefixFree(DIGITS);
  }

  // ---------------------------------------------------------------------------
  // Matching at one position
  // ---------------------------------------------------------------------------

  /** `i` is the first entry, in table order, whose word begins `s`. */
  predicate IsFirstPrefixKey(s: seq<char>, table: seq<Entry>, i: int) {
    0 <= i < |table| && table[i].key <= s && forall j :: 0 <= j < i ==> !(table[j].key <= s)
  }

  /** The entry the source's loop over the table items stops at, if any. */
  function FirstPrefixKey(s: seq<char>, table: seq<Entry>): (r: Option<nat>)
    ensures r.Some? ==> IsFirstPrefixKey(s, table, r.value)
    ensures r.None? ==> forall i :: 0 <= i < |table| ==> !(table[i].key <= s)
  {
    if table == [] then None
    else if table[0].key <= s then Some(0)
    else match FirstPrefixKey(s, table[1..])
      case Some(i) => Some(i + 1)
      case None => None
  }

  /**
   * The digit at the start of `s`: the first character when it is a digit,
   * otherwise the value of the first word of the table that begins `s`.
   */
  function ExtractLeadingNumber(s: seq<char>, table: seq<Entry>): (r: Option<char>)
    requires |s| > 0
    ensures IsDigit(s[0]) ==> r == Some(s[0])
    ensures !IsDigit(s[0]) ==> (r.None? <==> forall i :: 0 <= i < |table| ==> !(table[i].key <= s))
    ensures !IsDigit(s[0]) ==> forall i :: IsFirstPrefixKey(s, table, i) ==> r == Some(table[i].value)
    ensures r.Some? && ValuesAreDigits(table) ==> IsDigit(r.value)
  {
    if IsDigit(s[0]) then Some(s[0])
    else match FirstPrefixKey(s, table)
      case Some(i) => Some(table[i].value)
      case None => None
  }

  /**
   * In a prefix-free table at most one word can begin `s`, so the result is
   * the value of whichever word does, whatever the order of the table.
   */
  lemma LeadingNumberOfPrefixFree(s: seq<char>, table: seq<Entry>, v: char)
    requires |s| > 0 && PrefixFree(table)
    ensures ExtractLeadingNumber(s, table) == Some(v) <==>
      if IsDigit(s[0]) then v == s[0]
      else exists i :: 0 <= i < |table| && table[i].key <= s && table[i].value == v
  {
    if !IsDigit(s[0]) {
      var f := FirstPrefixKey(s, table);
      if f.Some? {
        forall i | 0 <= i < |table| && table[i].key <= s ensures i == f.value {
          PrefixesNest(table[i].key, table[f.value].key, s);
        }
      }
    }
  }

  /** Two words that both begin `s` are nested: one begins the other. */
  lemma PrefixesNest(a: seq<char>, b: seq<char>, s: seq<char>)
    requires a <= s && b <= s
    ensures a <= b || b <= a
  {
    assert a == s[..|a|] && b == s[..|b|];
    if |a| <= |b| { assert a == b[..|a|]; } else { assert b == a[..|b|]; }
  }

  /** Trying the words of two prefix-free tables with the same entries in any order gives the same digit. */
  lemma LeadingNumberIgnoresOrder(s: seq<char>, t1: seq<Entry>, t2: seq<Entry>)
    requires |s| > 0 && PrefixFree(t1) && PrefixFree(t2) && multiset(t1) == multiset(t2)
    ensures ExtractLeadingNumber(s, t1) == ExtractLeadingNumber(s, t2)
  {
    FoundInPermutation(s, t1, t2);
    FoundInPermutation(s, t2, t1);
  }

  lemma FoundInPermutation(s: seq<char>, t1: seq<Entry>, t2: seq<Entry>)
    requires |s| > 0 && PrefixFree(t1) && PrefixFree(t2) && multiset(t1) == multiset(t2)
    ensures ExtractLeadingNumber(s, t1).Some? ==> ExtractLeadingNumber(s, t2) == ExtractLeadingNumber(s, t1)
  {
    var r1 := ExtractLeadingNumber(s, t1);
    if r1.Some? {
      LeadingNumberOfPrefixFree(s, t1, r1.value);
      LeadingNumberOfPrefixFree(s, t2, r1.value);
      if !IsDigit(s[0]) {
        var i :| 0 <= i < |t1| && t1[i].key <= s && t1[i].value == r1.value;
        assert t1[i] in multiset(t2);
        var j :| 0 <= j < |t2| && t2[j] == t1[i];
      }
    }
  }

  /** `i` is the first entry, in table order, whose word ends `p`. */
  predicate IsFirstSuffixKey(p: seq<char>, table: seq<Entry>, i: int) {
    0 <= i < |table| && IsSuffix(table[i].key, p) && forall j :: 0 <= j < i ==> !IsSuffix(table[j].key, p)
  }

  /** The first entry, in table order, whose word ends `p`, if any. */
  function FirstSuffixKey(p: seq<char>, table: seq<Entry>): (r: Option<nat>)
    ensures r.Some? ==> IsFirstSuffixKey(p, table, r.value)
    ensures r.None? ==> forall i :: 0 <= i < |table| ==> !IsSuffix(table[i].key, p)
  {
    if table == [] then None
    else if IsSuffix(table[0].key, p) then Some(0)
    else match FirstSuffixKey(p, table[1..])
      case Some(i) => Some(i + 1)
      case None => None
  }

  /**
   * The digit at the end of `p`, stated directly: the last character when it
   * is a digit, otherwise the value of the first word of the table that ends `p`.
   */
  function ExtractTrailingNumber(p: seq<char>, table: seq<Entry>): (r: Option<char>)
    requires |p| > 0
    ensures IsDigit(p[|p| - 1]) ==> r == Some(p[|p| - 1])
    ensures !IsDigit(p[|p| - 1]) ==> (r.None? <==> forall i :: 0 <= i < |table| ==> !IsSuffix(table[i].key, p))
    ensures !IsDigit(p[|p| - 1]) ==> forall i :: IsFirstSuffixKey(p, table, i) ==> r == Some(table[i].value)
    ensures r.Some? && ValuesAreDigits(table) ==> IsDigit(r.value)
  {
    if IsDigit(p[|p| - 1]) then Some(p[|p| - 1])
    else match FirstSuffixKey(p, table)
      case Some(i) => Some(table[i].value)
      case None => None
  }

  /** A reversed word begins the reversed text exactly when the word ends the text. */
  lemma FirstKeyOfReversed(p: seq<char>, table: seq<Entry>)
    ensures FirstPrefixKey(Reverse(p), ReverseKeys(table)) == FirstSuffixKey(p, table)
  {
    var rp, rt := Reverse(p), ReverseKeys(table);
    forall i | 0 <= i < |table| ensures (rt[i].key <= rp) == IsSuffix(table[i].key, p) {
      ReversedPrefixIffSuffix(table[i].key, p);
    }
  }

  /** Matching the reversed text against the reversed table finds the digit that ends the text. */
  lemma LeadingOfReversedIsTrailing(p: seq<char>, table: seq<Entry>)
    requires |p| > 0
    ensures ExtractLeadingNumber(Reverse(p), ReverseKeys(table)) == ExtractTrailingNumber(p, table)
  {
    FirstKeyOfReversed(p, table);
  }

  /** In a suffix-free table at most one word can end `p`, so the result is that word's value. */
  lemma TrailingNumberOfSuffixFree(p: seq<char>, table: seq<Entry>, i: int)
    requires |p| > 0 && !IsDigit(p[|p| - 1]) && SuffixFree(table)
    requires 0 <= i < |table| && IsSuffix(table[i].key, p)
    ensures ExtractTrailingNumber(p, table) == Some(table[i].value)
  {
    var f := FirstSuffixKey(p, table).value;
    SuffixesNest(table[i].key, table[f].key, p);
  }

  /** Two words that both end `p` are nested: one ends the other. */
  lemma SuffixesNest(a: seq<char>, b: seq<char>, p: seq<char>)
    requires IsSuffix(a, p) && IsSuffix(b, p)
    ensures IsSuffix(a, b) || IsSuffix(b, a)
  {
    if |a| <= |b| {
      assert b[|b| - |a|..] == p[|p| - |a|..];
    } else {
      assert a[|a| - |b|..] == p[|p| - |b|..];
    }
  }

  // ---------------------------------------------------------------------------
  // Scanning a line, for any table of non-empty words
  // ---------------------------------------------------------------------------

  /** A table whose words are non-empty and whose values are digits. */
  predicate IsDigitTable(table: seq<Entry>) {
    ValuesAreDigits(table) && forall i :: 0 <= i < |table| ==> |table[i].key| > 0
  }

  /** The digit the forward scan reads at offset `k`: a digit or a word starting there. */
  function StartMatch(line: seq<char>, k: int, table: seq<Entry>): (r: Option<char>)
    requires 0 <= k < |line|
    ensures r.Some? && ValuesAreDigits(table) ==> IsDigit(r.value)
  {
    ExtractLeadingNumber(line[k..], table)
  }

  /** The digit that ends at position `j`: a digit or a word ending there. */
  function EndMatch(line: seq<char>, j: int, table: seq<Entry>): (r: Option<char>)
    requires 0 <= j < |line|
    ensures r.Some? && ValuesAreDigits(table) ==> IsDigit(r.value)
  {
    ExtractTrailingNumber(line[..j + 1], table)
  }

  /**
   * What the backward scan reads at position `j`, matching the reversed
   * prefix ending there against the reversed table, is the digit that ends at `j`.
   */
  lemma BackwardScanReadsEndMatch(line: seq<char>, j: int, table: seq<Entry>)
    requires 0 <= j < |line|
    ensures ExtractLeadingNumber(Reverse(line[..j + 1]), ReverseKeys(table)) == EndMatch(line, j, table)
  {
    LeadingOfReversedIsTrailing(line[..j + 1], table);
  }

  /** What the forward scan reads at each offset of the line. */
  function Starts(line: seq<char>, table: seq<Entry>): (xs: seq<Option<char>>)
    ensures |xs| == |line|
    ensures forall k :: 0 <= k < |line| ==> xs[k] == StartMatch(line, k, table)
  {
    seq(|line|, k requires 0 <= k < |line| => StartMatch(line, k, table))
  }

  /** What the backward scan reads at each position of the line. */
  function Ends(line: seq<char>, table: seq<Entry>): (xs: seq<Option<char>>)
    ensures |xs| == |line|
    ensures forall j :: 0 <= j < |line| ==> xs[j] == EndMatch(line, j, table)
  {
    seq(|line|, j requires 0 <= j < |line| => EndMatch(line, j, table))
  }

  /** The smallest index holding a value, if any. */
  function FirstSome(xs: seq<Option<char>>): (r: Option<nat>)
    ensures r.Some? ==> r.value < |xs| && xs[r.value].Some? && forall m :: 0 <= m < r.value ==> xs[m].None?
    ensures r.None? ==> forall m :: 0 <= m < |xs| ==> xs[m].None?
  {
    if xs == [] then None
    else if xs[0].Some? then Some(0)
    else match FirstSome(xs[1..])
      case Some(i) => Some(i + 1)
      case None => None
  }

  /** The largest index holding a value, if any. */
  function LastSome(xs: seq<Option<char>>): (r: Option<nat>)
    ensures r.Some? ==> r.value < |xs| && xs[r.value].Some? && forall m :: r.value < m < |xs| ==> xs[m].None?
    ensures r.None? ==> forall m :: 0 <= m < |xs| ==> xs[m].None?
  {
    if xs == [] then None
    else if xs[|xs| - 1].Some? then Some(|xs| - 1)
    else LastSome(xs[..|xs| - 1])
  }

  /** Some digit or word of the table starts somewhere in the line. */
  predicate HasNumber(line: seq<char>, table: seq<Entry>) {
    exists k :: 0 <= k < |line| && StartMatch(line, k, table).Some?
  }

  /** `k` is the smallest offset where a digit or a word starts. */
  predicate IsFirstStart(line: seq<char>, k: int, table: seq<Entry>) {
    0 <= k < |line| && StartMatch(line, k, table).Some? &&
    forall m :: 0 <= m < k ==> StartMatch(line, m, table).None?
  }

  /** `j` is the largest position where a digit or a word ends. */
  predicate IsLastEnd(line: seq<char>, j: int, table: seq<Entry>) {
    0 <= j < |line| && EndMatch(line, j, table).Some? &&
    forall m :: j < m < |line| ==> EndMatch(line, m, table).None?
  }

  /** A digit or a word starting at `k` ends somewhere. */
  lemma StartGivesEnd(line: seq<char>, k: int, table: seq<Entry>)
    requires IsDigitTable(table)
    requires 0 <= k < |line| && StartMatch(line, k, table).Some?
    ensures exists j :: 0 <= j < |line| && EndMatch(line, j, table).Some?
  {
    var j, i := StartEnd(line, k, table);
    TrailingFound(line[..j + 1], table, i);
    assert EndMatch(line, j, table).Some?;
  }

  /** A position, and the word, at which a digit or word starting at `k` ends. */
  lemma StartEnd(line: seq<char>, k: int, table: seq<Entry>) returns (j: int, i: int)
    requires IsDigitTable(table)
    requires 0 <= k < |line| && ExtractLeadingNumber(line[k..], table).Some?
    ensures k <= j < |line|
    ensures IsDigit(line[j]) || (0 <= i < |table| && IsSuffix(table[i].key, line[..j + 1]))
  {
    var s := line[k..];
    assert s[0] == line[k];
    if IsDigit(line[k]) {
      j, i := k, 0;
    } else {
      i := SomePrefixKey(s, table);
      j := k + |table[i].key| - 1;
      PrefixEnds(line, k, table[i].key);
    }
  }

  /** A word of the table that begins `s`, when the leading number is read from a word. */
  lemma SomePrefixKey(s: seq<char>, table: seq<Entry>) returns (i: int)
    requires |s| > 0 && !IsDigit(s[0]) && ExtractLeadingNumber(s, table).Some?
    ensures 0 <= i < |table| && table[i].key <= s
  {
    i :| 0 <= i < |table| && table[i].key <= s;
  }

  /** Text ending in a digit or in a word of the table has a trailing number. */
  lemma TrailingFound(p: seq<char>, table: seq<Entry>, i: int)
    requires |p| > 0
    requires IsDigit(p[|p| - 1]) || (0 <= i < |table| && IsSuffix(table[i].key, p))
    ensures ExtractTrailingNumber(p, table).Some?
  {
  }

  /** A non-empty word beginning the text at `k` ends it at the position where it stops. */
  lemma PrefixEnds(line: seq<char>, k: int, key: seq<char>)
    requires 0 <= k < |line| && 0 < |key| && key <= line[k..]
    ensures IsSuffix(key, line[..k + |key|])
  {
    assert line[..k + |key|][k..] == line[k..][..|key|];
  }

  /** A digit or a word ending at `j` starts somewhere. */
  lemma EndGivesStart(line: seq<char>, j: int, table: seq<Entry>)
    requires IsDigitTable(table)
    requires 0 <= j < |line| && EndMatch(line, j, table).Some?
    ensures HasNumber(line, table)
  {
    var k, i := EndStart(line, j, table);
    LeadingFound(line[k..], table, i);
    assert StartMatch(line, k, table).Some?;
  }

  /** An offset, and the word, at which a digit or word ending at `j` starts. */
  lemma EndStart(line: seq<char>, j: int, table: seq<Entry>) returns (k: int, i: int)
    requires IsDigitTable(table)
    requires 0 <= j < |line| && ExtractTrailingNumber(line[..j + 1], table).Some?
    ensures 0 <= k <= j
    ensures IsDigit(line[k]) || (0 <= i < |table| && table[i].key <= line[k..])
  {
    var p := line[..j + 1];
    assert p[|p| - 1] == line[j];
    if IsDigit(line[j]) {
      k, i := j, 0;
    } else {
      i := SomeSuffixKey(p, table);
      k := j + 1 - |table[i].key|;
      SuffixBegins(line, j, table[i].key);
    }
  }

  /** A word of the table that ends `p`, when the trailing number is read from a word. */
  lemma SomeSuffixKey(p: seq<char>, table: seq<Entry>) returns (i: int)
    requires |p| > 0 && !IsDigit(p[|p| - 1]) && ExtractTrailingNumber(p, table).Some?
    ensures 0 <= i < |table| && IsSuffix(table[i].key, p)
  {
    i :| 0 <= i < |table| && IsSuffix(table[i].key, p);
  }

  /** Text beginning with a digit or with a word of the table has a leading number. */
  lemma LeadingFound(s: seq<char>, table: seq<Entry>, i: int)
    requires |s| > 0
    requires IsDigit(s[0]) || (0 <= i < |table| && table[i].key <= s)
    ensures ExtractLeadingNumber(s, table).Some?
  {
  }

  /** A word ending at `j` begins the text at the offset it starts from. */
  lemma SuffixBegins(line: seq<char>, j: int, key: seq<char>)
    requires 0 <= j < |line| && IsSuffix(key, line[..j + 1])
    ensures key <= line[j + 1 - |key|..]
  {
    assert line[j + 1 - |key|..][..|key|] == line[..j + 1][j + 1 - |key|..];
  }

  /** At most one offset is the first where a digit or a word starts. */
  lemma FirstStartIsUnique(line: seq<char>, k: int, table: seq<Entry>)
    requires IsFirstStart(line, k, table)
    ensures forall m :: IsFirstStart(line, m, table) ==> m == k
  {
  }

  /** At most one position is the last where a digit or a word ends. */
  lemma LastEndIsUnique(line: seq<char>, j: int, table: seq<Entry>)
    requires IsLastEnd(line, j, table)
    ensures forall m :: IsLastEnd(line, m, table) ==> m == j
  {
  }

  /**
   * The value of a line under a table: ten times the digit that starts first
   * plus the digit that ends last, and none when nothing matches.
   */
  function CalibrationValue(line: seq<char>, table: seq<Entry>): (r: Option<nat>)
    requires IsDigitTable(table)
    ensures r.Some? ==> r.value <= 99
  {
    var starts, ends := Starts(line, table), Ends(line, table);
    match (FirstSome(starts), LastSome(ends))
    case (Some(i), Some(j)) => Some(TwoDigitNumber(starts[i].value, ends[j].value))
    case (Some(i), None) =>
      StartGivesEnd(line, i, table);
      assert false;
      None
    case (None, Some(j)) =>
      EndGivesStart(line, j, table);
      assert false;
      None
    case (None, None) => None
  }

  /** A line has a value exactly when a digit or a word occurs in it. */
  lemma CalibrationValueNone(line: seq<char>, table: seq<Entry>)
    requires IsDigitTable(table)
    ensures CalibrationValue(line, table).None? <==> !HasNumber(line, table)
  {
    var starts, ends := Starts(line, table), Ends(line, table);
    if HasNumber(line, table) {
      var k :| 0 <= k < |line| && StartMatch(line, k, table).Some?;
      assert starts[k].Some?;
      StartGivesEnd(line, k, table);
      var j :| 0 <= j < |line| && EndMatch(line, j, table).Some?;
      assert ends[j].Some?;
      assert FirstSome(starts).Some? && LastSome(ends).Some?;
    } else {
      assert FirstSome(starts).None?;
    }
  }

  /** The value read from the first start and the last end. */
  lemma ValueOfFirstAndLast(line: seq<char>, i: int, j: int, table: seq<Entry>)
    requires IsDigitTable(table) && IsFirstStart(line, i, table) && IsLastEnd(line, j, table)
    ensures CalibrationValue(line, table) == Some(TwoDigitNumber(StartMatch(line, i, table).value, EndMatch(line, j, table).value))
  {
    var starts, ends := Starts(line, table), Ends(line, table);
    assert starts[i].Some? && ends[j].Some?;
    FirstStartIsUnique(line, i, table);
    LastEndIsUnique(line, j, table);
    assert FirstSome(starts) == Some(i);
    assert LastSome(ends) == Some(j);
  }

  // ---------------------------------------------------------------------------
  // The puzzle's tables
  // ---------------------------------------------------------------------------

  /** DIGITS is a table the scan can use. */
  lemma DigitsTable()
    ensures IsDigitTable(DIGITS)
  {
    DigitsWellFormed();
  }

  /**
   * The line scan of the source: forward from the start until a digit or a
   * word begins, then backward from the end until one ends there, read
   * through the reversed prefix and the reversed table.
   */
  method GetCalibrationValue(line: seq<char>) returns (r: Option<nat>)
    ensures r == CalibrationValue(line, DIGITS)
  {
    DigitsTable();
    r := ScanLine(line, DIGITS, REVERSED_DIGITS);
  }

  /** The two loops of the line scan, for a table and its reversed copy. */
  method ScanLine(line: seq<char>, digitMap: seq<Entry>, reversedMap: seq<Entry>) returns (r: Option<nat>)
    requires IsDigitTable(digitMap) && reversedMap == ReverseKeys(digitMap)
    ensures r == CalibrationValue(line, digitMap)
  {
    var firstDigit, firstAt := ScanForward(line, digitMap);
    var lastDigit, lastAt := ScanBackward(line, digitMap, reversedMap);
    match (firstDigit, lastDigit)
    case (Some(f), Some(l)) =>
      ValueOfFirstAndLast(line, firstAt, lastAt, digitMap);
      r := Some(TwoDigitNumber(f, l));
    case (None, _) =>
      r := None;
      CalibrationValueNone(line, digitMap);
    case (Some(_), None) =>
      StartGivesEnd(line, firstAt, digitMap);
      assert false;
  }

  /** The forward loop: the digit read at the first offset where one starts, and that offset. */
  method ScanForward(line: seq<char>, digitMap: seq<Entry>) returns (firstDigit: Option<char>, ghost firstAt: int)
    ensures firstDigit.Some? ==> IsFirstStart(line, firstAt, digitMap) && firstDigit == StartMatch(line, firstAt, digitMap)
    ensures firstDigit.None? ==> !HasNumber(line, digitMap)
  {
    firstDigit, firstAt := None, 0;
    for offset := 0 to |line|
      invariant firstDigit.None?
      invariant forall m :: 0 <= m < offset ==> StartMatch(line, m, digitMap).None?
    {
      firstDigit := ExtractLeadingNumber(line[offset..], digitMap);
      if firstDigit.Some? {
        firstAt := offset;
        break;
      }
    }
  }

  /**
   * The backward loop: the reversed prefix ending at each position, tried
   * from the end of the line, against the reversed table; the digit read
   * where one first matches, and that position.
   */
  method ScanBackward(line: seq<char>, digitMap: seq<Entry>, reversedMap: seq<Entry>) returns (lastDigit: Option<char>, ghost lastAt: int)
    requires reversedMap == ReverseKeys(digitMap)
    ensures lastDigit.Some? ==> IsLastEnd(line, lastAt, digitMap) && lastDigit == EndMatch(line, lastAt, digitMap)
    ensures lastDigit.None? ==> forall m :: 0 <= m < |line| ==> EndMatch(line, m, digitMap).None?
  {
    lastDigit, lastAt := None, 0;
    for i := 0 to |line|
      invariant lastDigit.None?
      invariant forall m :: |line| - i <= m < |line| ==> EndMatch(line, m, digitMap).None?
    {
      lastDigit := ExtractLeadingNumber(Reverse(line[..|line| - i]), reversedMap);
      BackwardScanReadsEndMatch(line, |line| - 1 - i, digitMap);
      if lastDigit.Some? {
        lastAt := |line| - 1 - i;
        break;
      }
    }
  }

  /** No word of the table occurs anywhere in `line`. */
  predicate WordFree(line: seq<char>, table: seq<Entry>) {
    forall k, i :: 0 <= k < |line| && 0 <= i < |table| ==> !(table[i].key <= line[k..])
  }

  /** On a line where no word of the table occurs, only literal digits count, as in part one. */
  lemma WordFreeLineIsPartOne(line: seq<char>, table: seq<Entry>)
    requires IsDigitTable(table) && WordFree(line, table)
    ensures CalibrationValue(line, table) == Day01Part1.CalibrationValue(line)
  {
    forall k | 0 <= k < |line|
      ensures StartMatch(line, k, table) == (if IsDigit(line[k]) then Some(line[k]) else None)
    {
      WordFreeStart(line, k, table);
    }
    forall j | 0 <= j < |line|
      ensures EndMatch(line, j, table) == (if IsDigit(line[j]) then Some(line[j]) else None)
    {
      WordFreeEnd(line, j, table);
    }
    match Day01Part1.FirstDigitIndex(line)
    case None =>
      assert !HasNumber(line, table);
    case Some(a) =>
      var b := Day01Part1.LastDigitIndex(line).value;
      assert IsFirstStart(line, a, table);
      assert IsLastEnd(line, b, table);
      ValueOfFirstAndLast(line, a, b, table);
  }

  lemma WordFreeStart(line: seq<char>, k: int, table: seq<Entry>)
    requires 0 <= k < |line| && WordFree(line, table)
    ensures StartMatch(line, k, table) == (if IsDigit(line[k]) then Some(line[k]) else None)
  {
    assert line[k..][0] == line[k];
  }

  lemma WordFreeEnd(line: seq<char>, j: int, table: seq<Entry>)
    requires 0 <= j < |line| && WordFree(line, table) && IsDigitTable(table)
    ensures EndMatch(line, j, table) == (if IsDigit(line[j]) then Some(line[j]) else None)
  {
    var p := line[..j + 1];
    assert p[|p| - 1] == line[j];
    forall i | 0 <= i < |table| ensures !IsSuffix(table[i].key, p) {
      if IsSuffix(table[i].key, p) {
        SuffixBegins(line, j, table[i].key);
      }
    }
  }

  // ---------------------------------------------------------------------------
  // The document
  // ---------------------------------------------------------------------------

  /** The calibration values of `lines`, line by line. */
  function LineValues(lines: seq<seq<char>>, table: seq<Entry>): (vs: seq<Option<nat>>)
    requires IsDigitTable(table)
    ensures |vs| == |lines|
    ensures forall i :: 0 <= i < |lines| ==> vs[i] == CalibrationValue(lines[i], table)
  {
    if lines == [] then [] else [CalibrationValue(lines[0], table)] + LineValues(lines[1..], table)
  }

  /** Every one of `lines` holds a digit or a word of the table. */
  predicate AllHaveNumbers(lines: seq<seq<char>>, table: seq<Entry>) {
    forall i :: 0 <= i < |lines| ==> HasNumber(lines[i], table)
  }

  /**
   * The document's total: the sum of its lines' calibration values, and no
   * total when any line has neither a digit nor a word of the table.
   */
  function TotalCalibrationValue(doc: seq<char>, table: seq<Entry>): (r: Option<nat>)
    requires IsDigitTable(table)
    ensures r.Some? <==> AllHaveNumbers(Document.Lines(doc), table)
  {
    var ls := Document.Lines(doc);
    LineValuesPresent(ls, table);
    Document.Sum(LineValues(ls, table))
  }

  /** A line has a value exactly when a digit or a word occurs in it. */
  lemma LineValuesPresent(lines: seq<seq<char>>, table: seq<Entry>)
    requires IsDigitTable(table)
    ensures forall i :: 0 <= i < |lines| ==> (LineValues(lines, table)[i].Some? <==> HasNumber(lines[i], table))
    ensures Document.Sum(LineValues(lines, table)).Some? <==> AllHaveNumbers(lines, table)
  {
    forall i | 0 <= i < |lines| ensures LineValues(lines, table)[i].Some? <==> HasNumber(lines[i], table) {
      CalibrationValueNone(lines[i], table);
    }
  }

  /** Every line adds at most 99 to the total. */
  lemma TotalBound(doc: seq<char>, table: seq<Entry>)
    requires IsDigitTable(table) && TotalCalibrationValue(doc, table).Some?
    ensures TotalCalibrationValue(doc, table).value <= 99 * |Document.Lines(doc)|
  {
    Document.SumBound(LineValues(Document.Lines(doc), table), 99);
  }

  /** Lines are independent: the total of two documents put together is the sum of their totals. */
  lemma TotalOfConcatenation(a: seq<seq<char>>, b: seq<seq<char>>, table: seq<Entry>)
    requires IsDigitTable(table) && Document.NoNewline(a) && Document.NoNewline(b)
    ensures TotalCalibrationValue(Document.Unlines(a + b), table)
         == Document.Add(TotalCalibrationValue(Document.Unlines(a), table), TotalCalibrationValue(Document.Unlines(b), table))
  {
    var da, db, dab := Document.Unlines(a), Document.Unlines(b), Document.Unlines(a + b);
    assert Document.NoNewline(a + b);
    Document.LinesOfUnlines(a);
    Document.LinesOfUnlines(b);
    Document.LinesOfUnlines(a + b);
    var va, vb := LineValues(a, table), LineValues(b, table);
    assert LineValues(a + b, table) == va + vb by {
      LineValuesAppend(a, b, table);
    }
    Document.SumAppend(va, vb);
    assert TotalCalibrationValue(dab, table) == Document.Sum(va + vb);
    assert TotalCalibrationValue(da, table) == Document.Sum(va);
    assert TotalCalibrationValue(db, table) == Document.Sum(vb);
  }

  lemma {:induction false} LineValuesAppend(a: seq<seq<char>>, b: seq<seq<char>>, table: seq<Entry>)
    requires IsDigitTable(table)
    ensures LineValues(a + b, table) == LineValues(a, table) + LineValues(b, table)
  {
    if a == [] {
      assert a + b == b;
    } else {
      assert (a + b)[1..] == a[1..] + b;
      assert (a + b)[0] == a[0];
      LineValuesAppend(a[1..], b, table);
    }
  }

  /** A document's total is the sum over the lines that build it. */
  lemma TotalFromLines(doc: seq<char>, ls: seq<seq<char>>, table: seq<Entry>)
    requires IsDigitTable(table)
    requires Document.NoNewline(ls) && Document.Unlines(ls) == Document.Terminate(doc)
    ensures TotalCalibrationValue(doc, table) == Document.Sum(LineValues(ls, table))
  {
    Document.LinesUnique(doc, ls);
  }

  /** Words only add digits: a line part one can value, part two can value too. */
  lemma PartOneLinesHaveNumbers(line: seq<char>, table: seq<Entry>)
    requires Day01Part1.HasDigit(line)
    ensures HasNumber(line, table)
  {
    var k :| 0 <= k < |line| && IsDigit(line[k]);
    assert line[k..][0] == line[k];
    assert StartMatch(line, k, table).Some?;
  }

}
