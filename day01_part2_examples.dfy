/**
 * The documented examples of part two, checked against the model.
 *
 * Each line is first valued over any digit table that has the few properties
 * the line depends on (which words its letters rule out, and where the words
 * it spells sit in the table); the literal DIGITS table is plugged in last.
 */
module Day01Part2Examples {
  import opened Chars
  import opened Day01Part2
  import Document
  import Day01Part1

  lemma ExampleLeadingDigit()
    ensures ExtractLeadingNumber("7løh", DIGITS) == Some('7')
    ensures ExtractLeadingNumber("7løh", REVERSED_DIGITS) == Some('7')
  {
  }

  lemma ExampleLeadingWord()
    ensures ExtractLeadingNumber("twofgxh", DIGITS) == Some('2')
  {
    DigitsWellFormed();
    LeadingNumberOfPrefixFree("twofgxh", DIGITS, '2');
    assert DIGITS[1].key <= "twofgxh";
  }

  lemma ExampleLeadingReversedWord()
    ensures ExtractLeadingNumber("owtfgxh", REVERSED_DIGITS) == Some('2')
  {
    DigitsWellFormed();
    ReversedText("owtfgxh", "hxgftwo");
    TrailingWord("hxgftwo", DIGITS);
    LeadingOfReversedIsTrailing("hxgftwo", DIGITS);
  }

  lemma ReversedText(s: seq<char>, p: seq<char>)
    requires s == "owtfgxh" && p == "hxgftwo"
    ensures Reverse(p) == s
  {
  }

  lemma TrailingWord(p: seq<char>, table: seq<Entry>)
    requires p == "hxgftwo"
    requires SuffixFree(table) && |table| > 1 && table[1] == Entry("two", '2')
    ensures ExtractTrailingNumber(p, table) == Some('2')
  {
    TrailingNumberOfSuffixFree(p, table, 1);
  }

  // ---------------------------------------------------------------------------
  // Reading single positions of a line
  // ---------------------------------------------------------------------------

  /** `key` and `w` differ somewhere among their first three letters. */
  predicate StartsApart(key: seq<char>, w: seq<char>)
    requires |w| >= 1 && |key| >= 1
  {
    key[0] != w[0] ||
    (|w| >= 2 && |key| >= 2 && key[1] != w[1]) ||
    (|w| >= 3 && |key| >= 3 && key[2] != w[2])
  }

  /** `key` and `w` differ somewhere among their last three letters. */
  predicate EndsApart(key: seq<char>, w: seq<char>)
    requires |w| >= 1 && |key| >= 1
  {
    key[|key| - 1] != w[|w| - 1] ||
    (|w| >= 2 && |key| >= 2 && key[|key| - 2] != w[|w| - 2]) ||
    (|w| >= 3 && |key| >= 3 && key[|key| - 3] != w[|w| - 3])
  }

  /** No key of `table` can begin a text that begins with `w`. */
  predicate NoKeyStartsWith(table: seq<Entry>, w: seq<char>) {
    |w| >= 1 && forall i :: 0 <= i < |table| ==> |table[i].key| >= 1 && StartsApart(table[i].key, w)
  }

  /** No key of `table` can end a text that ends with `w`. */
  predicate NoKeyEndsIn(table: seq<Entry>, w: seq<char>) {
    |w| >= 1 && forall i :: 0 <= i < |table| ==> |table[i].key| >= 1 && EndsApart(table[i].key, w)
  }

  lemma StartsTogether(key: seq<char>, s: seq<char>, w: seq<char>)
    requires |key| >= 1 && |w| >= 1 && key <= s && w <= s
    ensures !StartsApart(key, w)
  {
    assert key[0] == s[0];
    if |w| >= 2 && |key| >= 2 {
      assert key[1] == s[1];
    }
    if |w| >= 3 && |key| >= 3 {
      assert key[2] == s[2];
    }
  }

  lemma EndsTogether(key: seq<char>, p: seq<char>, w: seq<char>)
    requires |key| >= 1 && |w| >= 1 && IsSuffix(key, p) && |w| <= |p|
    requires p[|p| - |w|..] == w
    ensures !EndsApart(key, w)
  {
    SameFromEnd(key, p, w, 1);
    if |w| >= 2 && |key| >= 2 {
      SameFromEnd(key, p, w, 2);
    }
    if |w| >= 3 && |key| >= 3 {
      SameFromEnd(key, p, w, 3);
    }
  }

  /** Two suffixes of `p` agree on their `d`-th character from the end. */
  lemma SameFromEnd(key: seq<char>, p: seq<char>, w: seq<char>, d: int)
    requires IsSuffix(key, p) && |w| <= |p| && p[|p| - |w|..] == w
    requires 1 <= d <= |key| && d <= |w|
    ensures key[|key| - d] == w[|w| - d]
  {
    assert p[|p| - |key|..][|key| - d] == p[|p| - d];
    assert p[|p| - |w|..][|w| - d] == p[|p| - d];
  }

  /** A digit character at `k` starts a number there. */
  lemma DigitStartsAt(line: seq<char>, k: int, table: seq<Entry>)
    requires 0 <= k < |line| && IsDigit(line[k])
    ensures StartMatch(line, k, table) == Some(line[k])
  {
    assert line[k..][0] == line[k];
  }

  /** A digit character at `j` ends a number there. */
  lemma DigitEndsAt(line: seq<char>, j: int, table: seq<Entry>)
    requires 0 <= j < |line| && IsDigit(line[j])
    ensures EndMatch(line, j, table) == Some(line[j])
  {
    assert line[..j + 1][j] == line[j];
  }

  /** Entry `i` of a prefix-free table starting at `k` is read as its value. */
  lemma WordStartsAt(line: seq<char>, k: int, table: seq<Entry>, i: int)
    requires PrefixFree(table) && 0 <= i < |table|
    requires 0 <= k < |line| && !IsDigit(line[k]) && table[i].key <= line[k..]
    ensures StartMatch(line, k, table) == Some(table[i].value)
  {
    assert line[k..][0] == line[k];
    LeadingNumberOfPrefixFree(line[k..], table, table[i].value);
  }

  /** Entry `i` of a suffix-free table occupying `k` to `j` is read as its value at `j`. */
  lemma WordEndsAt(line: seq<char>, k: int, j: int, table: seq<Entry>, i: int)
    requires SuffixFree(table) && 0 <= i < |table| && |table[i].key| > 0
    requires 0 <= k < |line| && table[i].key <= line[k..]
    requires j == k + |table[i].key| - 1 && !IsDigit(line[j])
    ensures EndMatch(line, j, table) == Some(table[i].value)
  {
    PrefixEnds(line, k, table[i].key);
    assert line[..j + 1][j] == line[j];
    TrailingNumberOfSuffixFree(line[..j + 1], table, i);
  }

  /** Nothing starts at `k` when it holds no digit and the letters from `k` on spell `w`, which begins no key. */
  lemma NoStartVia(line: seq<char>, k: int, table: seq<Entry>, w: seq<char>)
    requires 0 <= k < |line| && !IsDigit(line[k])
    requires NoKeyStartsWith(table, w)
    requires k + |w| <= |line| && line[k..k + |w|] == w
    ensures StartMatch(line, k, table).None?
  {
    var s := line[k..];
    assert s[0] == line[k];
    assert w <= s;
    forall i | 0 <= i < |table| ensures !(table[i].key <= s) {
      if table[i].key <= s {
        StartsTogether(table[i].key, s, w);
        assert false;
      }
    }
  }

  /** Nothing ends at `j` when it holds no digit and the letters up to `j` end in `w`, which ends no key. */
  lemma NoEndVia(line: seq<char>, j: int, table: seq<Entry>, w: seq<char>)
    requires 0 <= j < |line| && !IsDigit(line[j])
    requires NoKeyEndsIn(table, w)
    requires |w| <= j + 1 && line[j + 1 - |w|..j + 1] == w
    ensures EndMatch(line, j, table).None?
  {
    var p := line[..j + 1];
    assert p[|p| - 1] == line[j];
    assert p[|p| - |w|..] == w;
    forall i | 0 <= i < |table| ensures !IsSuffix(table[i].key, p) {
      if IsSuffix(table[i].key, p) {
        EndsTogether(table[i].key, p, w);
        assert false;
      }
    }
  }

  /** Nothing starts before `k`, stated position by position. */
  predicate NoStartBefore(line: seq<char>, k: int, table: seq<Entry>)
    requires 0 <= k <= |line|
    decreases k
  {
    k == 0 || (StartMatch(line, k - 1, table).None? && NoStartBefore(line, k - 1, table))
  }

  /** Nothing ends after `j`, stated position by position. */
  predicate NoEndAfter(line: seq<char>, j: int, table: seq<Entry>)
    requires -1 <= j < |line|
    decreases |line| - j
  {
    j == |line| - 1 || (EndMatch(line, j + 1, table).None? && NoEndAfter(line, j + 1, table))
  }

  lemma FirstStartIntro(line: seq<char>, k: int, table: seq<Entry>)
    requires 0 <= k < |line| && StartMatch(line, k, table).Some? && NoStartBefore(line, k, table)
    ensures IsFirstStart(line, k, table)
  {
    NoStartBeforeAll(line, k, table);
  }

  lemma {:induction false} NoStartBeforeAll(line: seq<char>, k: int, table: seq<Entry>)
    requires 0 <= k <= |line| && NoStartBefore(line, k, table)
    ensures forall m :: 0 <= m < k ==> StartMatch(line, m, table).None?
    decreases k
  {
    if k > 0 {
      NoStartBeforeAll(line, k - 1, table);
    }
  }

  lemma LastEndIntro(line: seq<char>, j: int, table: seq<Entry>)
    requires 0 <= j < |line| && EndMatch(line, j, table).Some? && NoEndAfter(line, j, table)
    ensures IsLastEnd(line, j, table)
  {
    NoEndAfterAll(line, j, table);
  }

  lemma {:induction false} NoEndAfterAll(line: seq<char>, j: int, table: seq<Entry>)
    requires -1 <= j < |line| && NoEndAfter(line, j, table)
    ensures forall m :: j < m < |line| ==> EndMatch(line, m, table).None?
    decreases |line| - j
  {
    if j < |line| - 1 {
      NoEndAfterAll(line, j + 1, table);
    }
  }

  // ---------------------------------------------------------------------------
  // Letters that begin or end no word of DIGITS
  // ---------------------------------------------------------------------------

  /** Every word of DIGITS begins with one of o, t, f, s, e, n, z. */
  lemma NoWordBeginsWith(c: char)
    requires c != 'o' && c != 't' && c != 'f' && c != 's' && c != 'e' && c != 'n' && c != 'z'
    ensures NoKeyStartsWith(DIGITS, [c])
  {
  }

  /** Every word of DIGITS ends with one of e, o, r, x, n, t. */
  lemma NoWordEndsIn(c: char)
    requires c != 'e' && c != 'o' && c != 'r' && c != 'x' && c != 'n' && c != 't'
    ensures NoKeyEndsIn(DIGITS, [c])
  {
  }

  lemma NoWordBeginsLike(w: seq<char>)
    requires w == "tr" || w == "eb" || w == "zo"
    ensures NoKeyStartsWith(DIGITS, w)
  {
  }

  lemma NoWordEndsLike(w: seq<char>)
    requires w == "wx" || w == "he" || w == "et" || w == "ex" || w == "xt" || w == "te" || w == "tee" || w == "een"
    ensures NoKeyEndsIn(DIGITS, w)
  {
  }

  // ---------------------------------------------------------------------------
  // The documented line values
  // ---------------------------------------------------------------------------

  lemma ExampleOneAbcTwo(line: seq<char>)
    requires line == "1abc2"
    ensures CalibrationValue(line, DIGITS) == Some(12)
  {
    DigitsTable();
    OneAbcTwoValue(line, DIGITS);
  }

  lemma OneAbcTwoValue(line: seq<char>, table: seq<Entry>)
    requires line == "1abc2"
    requires IsDigitTable(table)
    ensures CalibrationValue(line, table) == Some(12)
  {
    DigitStartsAt(line, 0, table);
    FirstStartIntro(line, 0, table);
    DigitEndsAt(line, 4, table);
    LastEndIntro(line, 4, table);
    ValueOfFirstAndLast(line, 0, 4, table);
  }

  lemma ExamplePqr(line: seq<char>)
    requires line == "pqr3stu8vwx"
    ensures CalibrationValue(line, DIGITS) == Some(38)
  {
    DigitsTable();
    NoWordBeginsWith('p');
    NoWordBeginsWith('q');
    NoWordBeginsWith('r');
    NoWordEndsIn('v');
    NoWordEndsIn('w');
    NoWordEndsLike("wx");
    PqrValue(line, DIGITS);
  }

  lemma PqrValue(line: seq<char>, table: seq<Entry>)
    requires line == "pqr3stu8vwx"
    requires IsDigitTable(table)
    requires NoKeyStartsWith(table, "p")
    requires NoKeyStartsWith(table, "q")
    requires NoKeyStartsWith(table, "r")
    requires NoKeyEndsIn(table, "v")
    requires NoKeyEndsIn(table, "w")
    requires NoKeyEndsIn(table, "wx")
    ensures CalibrationValue(line, table) == Some(38)
  {
    PqrFirst(line, table);
    PqrLast(line, table);
    ValueOfFirstAndLast(line, 3, 7, table);
  }

  lemma PqrFirst(line: seq<char>, table: seq<Entry>)
    requires line == "pqr3stu8vwx"
    requires IsDigitTable(table)
    requires NoKeyStartsWith(table, "p")
    requires NoKeyStartsWith(table, "q")
    requires NoKeyStartsWith(table, "r")
    ensures IsFirstStart(line, 3, table) && StartMatch(line, 3, table) == Some('3')
  {
    NoStartVia(line, 0, table, "p");
    assert NoStartBefore(line, 1, table);
    NoStartVia(line, 1, table, "q");
    assert NoStartBefore(line, 2, table);
    NoStartVia(line, 2, table, "r");
    assert NoStartBefore(line, 3, table);
    DigitStartsAt(line, 3, table);
    FirstStartIntro(line, 3, table);
  }

  lemma PqrLast(line: seq<char>, table: seq<Entry>)
    requires line == "pqr3stu8vwx"
    requires IsDigitTable(table)
    requires NoKeyEndsIn(table, "v")
    requires NoKeyEndsIn(table, "w")
    requires NoKeyEndsIn(table, "wx")
    ensures IsLastEnd(line, 7, table) && EndMatch(line, 7, table) == Some('8')
  {
    NoEndVia(line, 10, table, "wx");
    assert NoEndAfter(line, 9, table);
    NoEndVia(line, 9, table, "w");
    assert NoEndAfter(line, 8, table);
    NoEndVia(line, 8, table, "v");
    assert NoEndAfter(line, 7, table);
    DigitEndsAt(line, 7, table);
    LastEndIntro(line, 7, table);
  }

  lemma ExampleAlternating(line: seq<char>)
    requires line == "a1b2c3d4e5f"
    ensures CalibrationValue(line, DIGITS) == Some(15)
  {
    DigitsTable();
    NoWordBeginsWith('a');
    NoWordEndsIn('f');
    AlternatingValue(line, DIGITS);
  }

  lemma AlternatingValue(line: seq<char>, table: seq<Entry>)
    requires line == "a1b2c3d4e5f"
    requires IsDigitTable(table)
    requires NoKeyStartsWith(table, "a")
    requires NoKeyEndsIn(table, "f")
    ensures CalibrationValue(line, table) == Some(15)
  {
    NoStartVia(line, 0, table, "a");
    assert NoStartBefore(line, 1, table);
    DigitStartsAt(line, 1, table);
    FirstStartIntro(line, 1, table);
    NoEndVia(line, 10, table, "f");
    assert NoEndAfter(line, 9, table);
    DigitEndsAt(line, 9, table);
    LastEndIntro(line, 9, table);
    ValueOfFirstAndLast(line, 1, 9, table);
  }

  lemma ExampleTrebuchet(line: seq<char>)
    requires line == "treb7uchet"
    ensures CalibrationValue(line, DIGITS) == Some(77)
  {
    DigitsTable();
    NoWordBeginsLike("tr");
    NoWordBeginsWith('r');
    NoWordBeginsLike("eb");
    NoWordBeginsWith('b');
    NoWordEndsIn('u');
    NoWordEndsIn('c');
    NoWordEndsIn('h');
    NoWordEndsLike("he");
    NoWordEndsLike("et");
    TrebuchetValue(line, DIGITS);
  }

  lemma TrebuchetValue(line: seq<char>, table: seq<Entry>)
    requires line == "treb7uchet"
    requires IsDigitTable(table)
    requires NoKeyStartsWith(table, "tr")
    requires NoKeyStartsWith(table, "r")
    requires NoKeyStartsWith(table, "eb")
    requires NoKeyStartsWith(table, "b")
    requires NoKeyEndsIn(table, "u")
    requires NoKeyEndsIn(table, "c")
    requires NoKeyEndsIn(table, "h")
    requires NoKeyEndsIn(table, "he")
    requires NoKeyEndsIn(table, "et")
    ensures CalibrationValue(line, table) == Some(77)
  {
    TrebuchetFirst(line, table);
    TrebuchetLast(line, table);
    ValueOfFirstAndLast(line, 4, 4, table);
  }

  lemma TrebuchetFirst(line: seq<char>, table: seq<Entry>)
    requires line == "treb7uchet"
    requires IsDigitTable(table)
    requires NoKeyStartsWith(table, "tr")
    requires NoKeyStartsWith(table, "r")
    requires NoKeyStartsWith(table, "eb")
    requires NoKeyStartsWith(table, "b")
    ensures IsFirstStart(line, 4, table) && StartMatch(line, 4, table) == Some('7')
  {
    NoStartVia(line, 0, table, "tr");
    assert NoStartBefore(line, 1, table);
    NoStartVia(line, 1, table, "r");
    assert NoStartBefore(line, 2, table);
    NoStartVia(line, 2, table, "eb");
    assert NoStartBefore(line, 3, table);
    NoStartVia(line, 3, table, "b");
    assert NoStartBefore(line, 4, table);
    DigitStartsAt(line, 4, table);
    FirstStartIntro(line, 4, table);
  }

  lemma TrebuchetLast(line: seq<char>, table: seq<Entry>)
    requires line == "treb7uchet"
    requires IsDigitTable(table)
    requires NoKeyEndsIn(table, "u")
    requires NoKeyEndsIn(table, "c")
    requires NoKeyEndsIn(table, "h")
    requires NoKeyEndsIn(table, "he")
    requires NoKeyEndsIn(table, "et")
    ensures IsLastEnd(line, 4, table) && EndMatch(line, 4, table) == Some('7')
  {
    NoEndVia(line, 9, table, "et");
    assert NoEndAfter(line, 8, table);
    NoEndVia(line, 8, table, "he");
    assert NoEndAfter(line, 7, table);
    NoEndVia(line, 7, table, "h");
    assert NoEndAfter(line, 6, table);
    NoEndVia(line, 6, table, "c");
    assert NoEndAfter(line, 5, table);
    NoEndVia(line, 5, table, "u");
    assert NoEndAfter(line, 4, table);
    DigitEndsAt(line, 4, table);
    LastEndIntro(line, 4, table);
  }

  lemma ExampleTwoOneNine(line: seq<char>)
    requires line == "two1nine"
    ensures CalibrationValue(line, DIGITS) == Some(29)
  {
    DigitsTable();
    DigitsWellFormed();
    TwoOneNineValue(line, DIGITS);
  }

  lemma TwoOneNineValue(line: seq<char>, table: seq<Entry>)
    requires line == "two1nine"
    requires IsDigitTable(table)
    requires PrefixFree(table) && SuffixFree(table) && |table| == 10
    requires table[1] == Entry("two", '2')
    requires table[8] == Entry("nine", '9')
    ensures CalibrationValue(line, table) == Some(29)
  {
    WordStartsAt(line, 0, table, 1);
    FirstStartIntro(line, 0, table);
    WordEndsAt(line, 4, 7, table, 8);
    LastEndIntro(line, 7, table);
    ValueOfFirstAndLast(line, 0, 7, table);
  }

  lemma ExampleEightWoThree(line: seq<char>)
    requires line == "eightwothree"
    ensures CalibrationValue(line, DIGITS) == Some(83)
  {
    DigitsTable();
    DigitsWellFormed();
    EightWoThreeValue(line, DIGITS);
  }

  lemma EightWoThreeValue(line: seq<char>, table: seq<Entry>)
    requires line == "eightwothree"
    requires IsDigitTable(table)
    requires PrefixFree(table) && SuffixFree(table) && |table| == 10
    requires table[2] == Entry("three", '3')
    requires table[7] == Entry("eight", '8')
    ensures CalibrationValue(line, table) == Some(83)
  {
    WordStartsAt(line, 0, table, 7);
    FirstStartIntro(line, 0, table);
    WordEndsAt(line, 7, 11, table, 2);
    LastEndIntro(line, 11, table);
    ValueOfFirstAndLast(line, 0, 11, table);
  }

  lemma ExampleAbcOne(line: seq<char>)
    requires line == "abcone2threexyz"
    ensures CalibrationValue(line, DIGITS) == Some(13)
  {
    DigitsTable();
    DigitsWellFormed();
    NoWordBeginsWith('a');
    NoWordBeginsWith('b');
    NoWordBeginsWith('c');
    NoWordEndsLike("ex");
    NoWordEndsIn('y');
    NoWordEndsIn('z');
    AbcOneValue(line, DIGITS);
  }

  lemma AbcOneValue(line: seq<char>, table: seq<Entry>)
    requires line == "abcone2threexyz"
    requires IsDigitTable(table)
    requires NoKeyStartsWith(table, "a")
    requires NoKeyStartsWith(table, "b")
    requires NoKeyStartsWith(table, "c")
    requires NoKeyEndsIn(table, "ex")
    requires NoKeyEndsIn(table, "y")
    requires NoKeyEndsIn(table, "z")
    requires PrefixFree(table) && SuffixFree(table) && |table| == 10
    requires table[0] == Entry("one", '1')
    requires table[2] == Entry("three", '3')
    ensures CalibrationValue(line, table) == Some(13)
  {
    AbcOneFirst(line, table);
    AbcOneLast(line, table);
    ValueOfFirstAndLast(line, 3, 11, table);
  }

  lemma AbcOneFirst(line: seq<char>, table: seq<Entry>)
    requires line == "abcone2threexyz"
    requires IsDigitTable(table)
    requires NoKeyStartsWith(table, "a")
    requires NoKeyStartsWith(table, "b")
    requires NoKeyStartsWith(table, "c")
    requires PrefixFree(table) && SuffixFree(table) && |table| == 10
    requires table[0] == Entry("one", '1')
    requires table[2] == Entry("three", '3')
    ensures IsFirstStart(line, 3, table) && StartMatch(line, 3, table) == Some(table[0].value)
  {
    NoStartVia(line, 0, table, "a");
    assert NoStartBefore(line, 1, table);
    NoStartVia(line, 1, table, "b");
    assert NoStartBefore(line, 2, table);
    NoStartVia(line, 2, table, "c");
    assert NoStartBefore(line, 3, table);
    WordStartsAt(line, 3, table, 0);
    FirstStartIntro(line, 3, table);
  }

  lemma AbcOneLast(line: seq<char>, table: seq<Entry>)
    requires line == "abcone2threexyz"
    requires IsDigitTable(table)
    requires NoKeyEndsIn(table, "ex")
    requires NoKeyEndsIn(table, "y")
    requires NoKeyEndsIn(table, "z")
    requires PrefixFree(table) && SuffixFree(table) && |table| == 10
    requires table[0] == Entry("one", '1')
    requires table[2] == Entry("three", '3')
    ensures IsLastEnd(line, 11, table) && EndMatch(line, 11, table) == Some(table[2].value)
  {
    NoEndVia(line, 14, table, "z");
    assert NoEndAfter(line, 13, table);
    NoEndVia(line, 13, table, "y");
    assert NoEndAfter(line, 12, table);
    NoEndVia(line, 12, table, "ex");
    assert NoEndAfter(line, 11, table);
    WordEndsAt(line, 7, 11, table, 2);
    LastEndIntro(line, 11, table);
  }

  lemma ExampleXTwOne(line: seq<char>)
    requires line == "xtwone3four"
    ensures CalibrationValue(line, DIGITS) == Some(24)
  {
    DigitsTable();
    DigitsWellFormed();
    NoWordBeginsWith('x');
    XTwOneValue(line, DIGITS);
  }

  lemma XTwOneValue(line: seq<char>, table: seq<Entry>)
    requires line == "xtwone3four"
    requires IsDigitTable(table)
    requires NoKeyStartsWith(table, "x")
    requires PrefixFree(table) && SuffixFree(table) && |table| == 10
    requires table[1] == Entry("two", '2')
    requires table[3] == Entry("four", '4')
    ensures CalibrationValue(line, table) == Some(24)
  {
    NoStartVia(line, 0, table, "x");
    assert NoStartBefore(line, 1, table);
    WordStartsAt(line, 1, table, 1);
    FirstStartIntro(line, 1, table);
    WordEndsAt(line, 7, 10, table, 3);
    LastEndIntro(line, 10, table);
    ValueOfFirstAndLast(line, 1, 10, table);
  }

  lemma ExampleFourNine(line: seq<char>)
    requires line == "4nineeightseven2"
    ensures CalibrationValue(line, DIGITS) == Some(42)
  {
    DigitsTable();
    FourNineValue(line, DIGITS);
  }

  lemma FourNineValue(line: seq<char>, table: seq<Entry>)
    requires line == "4nineeightseven2"
    requires IsDigitTable(table)
    ensures CalibrationValue(line, table) == Some(42)
  {
    DigitStartsAt(line, 0, table);
    FirstStartIntro(line, 0, table);
    DigitEndsAt(line, 15, table);
    LastEndIntro(line, 15, table);
    ValueOfFirstAndLast(line, 0, 15, table);
  }

  lemma ExampleZOnEight(line: seq<char>)
    requires line == "zoneight234"
    ensures CalibrationValue(line, DIGITS) == Some(14)
  {
    DigitsTable();
    DigitsWellFormed();
    NoWordBeginsLike("zo");
    ZOnEightValue(line, DIGITS);
  }

  lemma ZOnEightValue(line: seq<char>, table: seq<Entry>)
    requires line == "zoneight234"
    requires IsDigitTable(table)
    requires NoKeyStartsWith(table, "zo")
    requires PrefixFree(table) && SuffixFree(table) && |table| == 10
    requires table[0] == Entry("one", '1')
    ensures CalibrationValue(line, table) == Some(14)
  {
    NoStartVia(line, 0, table, "zo");
    assert NoStartBefore(line, 1, table);
    WordStartsAt(line, 1, table, 0);
    FirstStartIntro(line, 1, table);
    DigitEndsAt(line, 10, table);
    LastEndIntro(line, 10, table);
    ValueOfFirstAndLast(line, 1, 10, table);
  }

  lemma ExampleSevenPqr(line: seq<char>)
    requires line == "7pqrstsixteen"
    ensures CalibrationValue(line, DIGITS) == Some(76)
  {
    DigitsTable();
    DigitsWellFormed();
    NoWordEndsLike("xt");
    NoWordEndsLike("te");
    NoWordEndsLike("tee");
    NoWordEndsLike("een");
    SevenPqrValue(line, DIGITS);
  }

  lemma SevenPqrValue(line: seq<char>, table: seq<Entry>)
    requires line == "7pqrstsixteen"
    requires IsDigitTable(table)
    requires NoKeyEndsIn(table, "xt")
    requires NoKeyEndsIn(table, "te")
    requires NoKeyEndsIn(table, "tee")
    requires NoKeyEndsIn(table, "een")
    requires PrefixFree(table) && SuffixFree(table) && |table| == 10
    requires table[5] == Entry("six", '6')
    ensures CalibrationValue(line, table) == Some(76)
  {
    DigitStartsAt(line, 0, table);
    FirstStartIntro(line, 0, table);
    NoEndVia(line, 12, table, "een");
    assert NoEndAfter(line, 11, table);
    NoEndVia(line, 11, table, "tee");
    assert NoEndAfter(line, 10, table);
    NoEndVia(line, 10, table, "te");
    assert NoEndAfter(line, 9, table);
    NoEndVia(line, 9, table, "xt");
    assert NoEndAfter(line, 8, table);
    WordEndsAt(line, 6, 8, table, 5);
    LastEndIntro(line, 8, table);
    ValueOfFirstAndLast(line, 0, 8, table);
  }

  // ---------------------------------------------------------------------------
  // The documented document total
  // ---------------------------------------------------------------------------

  lemma ExampleDocument(doc: seq<char>)
    requires doc == "two1nine" + "\n" + "eightwothree" + "\n" + "abcone2threexyz" + "\n" + "xtwone3four" + "\n" + "4nineeightseven2" + "\n" + "zoneight234" + "\n" + "7pqrstsixteen"
    ensures TotalCalibrationValue(doc, DIGITS) == Some(281)
  {
    var ls := ["two1nine", "eightwothree", "abcone2threexyz", "xtwone3four", "4nineeightseven2", "zoneight234", "7pqrstsixteen"];
    ExampleDocumentLines(doc, ls);
    DigitsTable();
    ExampleDocumentValues(ls[0], ls[1], ls[2], ls[3], ls[4], ls[5], ls[6]);
    DocumentTotal(doc, ls, DIGITS);
  }

  lemma ExampleDocumentValues(a: seq<char>, b: seq<char>, c: seq<char>, d: seq<char>, e: seq<char>, f: seq<char>, g: seq<char>)
    requires a == "two1nine"
    requires b == "eightwothree"
    requires c == "abcone2threexyz"
    requires d == "xtwone3four"
    requires e == "4nineeightseven2"
    requires f == "zoneight234"
    requires g == "7pqrstsixteen"
    ensures CalibrationValue(a, DIGITS) == Some(29)
    ensures CalibrationValue(b, DIGITS) == Some(83)
    ensures CalibrationValue(c, DIGITS) == Some(13)
    ensures CalibrationValue(d, DIGITS) == Some(24)
    ensures CalibrationValue(e, DIGITS) == Some(42)
    ensures CalibrationValue(f, DIGITS) == Some(14)
    ensures CalibrationValue(g, DIGITS) == Some(76)
  {
    ExampleTwoOneNine(a);
    ExampleEightWoThree(b);
    ExampleAbcOne(c);
    ExampleXTwOne(d);
    ExampleFourNine(e);
    ExampleZOnEight(f);
    ExampleSevenPqr(g);
  }

  lemma ExamplePartOneDocument(doc: seq<char>)
    requires doc == "1abc2" + "\n" + "pqr3stu8vwx" + "\n" + "a1b2c3d4e5f" + "\n" + "treb7uchet"
    ensures TotalCalibrationValue(doc, DIGITS) == Some(142)
  {
    var ls := ["1abc2", "pqr3stu8vwx", "a1b2c3d4e5f", "treb7uchet"];
    Day01Part1.ExampleDocumentLines(doc, ls);
    DigitsTable();
    ExamplePartOneValues(ls[0], ls[1], ls[2], ls[3]);
    TotalFromLines(doc, ls, DIGITS);
    Day01Part1.ExampleSum(LineValues(ls, DIGITS));
  }

  lemma ExamplePartOneValues(a: seq<char>, b: seq<char>, c: seq<char>, d: seq<char>)
    requires a == "1abc2" && b == "pqr3stu8vwx" && c == "a1b2c3d4e5f" && d == "treb7uchet"
    ensures CalibrationValue(a, DIGITS) == Some(12)
    ensures CalibrationValue(b, DIGITS) == Some(38)
    ensures CalibrationValue(c, DIGITS) == Some(15)
    ensures CalibrationValue(d, DIGITS) == Some(77)
  {
    ExampleOneAbcTwo(a);
    ExamplePqr(b);
    ExampleAlternating(c);
    ExampleTrebuchet(d);
  }

  lemma DocumentTotal(doc: seq<char>, ls: seq<seq<char>>, table: seq<Entry>)
    requires IsDigitTable(table)
    requires Document.NoNewline(ls) && Document.Unlines(ls) == Document.Terminate(doc)
    requires |ls| == 7
    requires CalibrationValue(ls[0], table) == Some(29)
    requires CalibrationValue(ls[1], table) == Some(83)
    requires CalibrationValue(ls[2], table) == Some(13)
    requires CalibrationValue(ls[3], table) == Some(24)
    requires CalibrationValue(ls[4], table) == Some(42)
    requires CalibrationValue(ls[5], table) == Some(14)
    requires CalibrationValue(ls[6], table) == Some(76)
    ensures TotalCalibrationValue(doc, table) == Some(281)
  {
    TotalFromLines(doc, ls, table);
    var vs := LineValues(ls, table);
    ExampleSum(vs);
  }

  lemma ExampleDocumentLines(doc: seq<char>, ls: seq<seq<char>>)
    requires doc == "two1nine" + "\n" + "eightwothree" + "\n" + "abcone2threexyz" + "\n" + "xtwone3four" + "\n" + "4nineeightseven2" + "\n" + "zoneight234" + "\n" + "7pqrstsixteen"
    requires ls == ["two1nine", "eightwothree", "abcone2threexyz", "xtwone3four", "4nineeightseven2", "zoneight234", "7pqrstsixteen"]
    ensures Document.NoNewline(ls) && Document.Unlines(ls) == Document.Terminate(doc)
  {
    assert '\n' !in ls[0];
    assert '\n' !in ls[1];
    assert '\n' !in ls[2];
    assert '\n' !in ls[3];
    assert '\n' !in ls[4];
    assert '\n' !in ls[5];
    assert '\n' !in ls[6];
    SevenLines(doc, ls, ls[0], ls[1], ls[2], ls[3], ls[4], ls[5], ls[6]);
  }

  lemma SevenLines(doc: seq<char>, ls: seq<seq<char>>, a: seq<char>, b: seq<char>, c: seq<char>, d: seq<char>, e: seq<char>, f: seq<char>, g: seq<char>)
    requires ls == [a, b, c, d, e, f, g] && g != [] && g[|g| - 1] != '\n'
    requires doc == a + "\n" + b + "\n" + c + "\n" + d + "\n" + e + "\n" + f + "\n" + g
    ensures Document.Unlines(ls) == Document.Terminate(doc)
  {
    assert Document.Unlines([]) == [];
    LineAppended([], a);
    assert [] + [a] == [a];
    LineAppended([a], b);
    assert [a] + [b] == [a, b];
    LineAppended([a, b], c);
    assert [a, b] + [c] == [a, b, c];
    LineAppended([a, b, c], d);
    assert [a, b, c] + [d] == [a, b, c, d];
    LineAppended([a, b, c, d], e);
    assert [a, b, c, d] + [e] == [a, b, c, d, e];
    LineAppended([a, b, c, d, e], f);
    assert [a, b, c, d, e] + [f] == [a, b, c, d, e, f];
    LineAppended([a, b, c, d, e, f], g);
    assert [a, b, c, d, e, f] + [g] == [a, b, c, d, e, f, g];
    assert [] + a == a;
    assert doc[|doc| - 1] == g[|g| - 1];
  }

  /** Adding one more line at the end of a document built from lines. */
  lemma LineAppended(ls: seq<seq<char>>, l: seq<char>)
    ensures Document.Unlines(ls + [l]) == Document.Unlines(ls) + l + "\n"
  {
    Document.UnlinesAppend(ls, [l]);
    assert [l][1..] == [];
  }

  /** The seven example values add up to 281. */
  lemma ExampleSum(vs: seq<Option<nat>>)
    requires |vs| == 7 && vs[0] == Some(29) && vs[1] == Some(83) && vs[2] == Some(13) && vs[3] == Some(24)
    requires vs[4] == Some(42) && vs[5] == Some(14) && vs[6] == Some(76)
    ensures Document.Sum(vs) == Some(281)
  {
    Document.SumOfValues(vs, [29, 83, 13, 24, 42, 14, 76]);
    assert Document.NatSum([29, 83, 13, 24, 42, 14, 76]) == 281;
  }
}
