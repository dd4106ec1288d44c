/**
 * Part 1 of the day 1 puzzle: the calibration value of a line is the number
 * formed by its first and its last literal digit, and the document's value
 * is the sum over its lines.
 */
module Day01Part1 {
  import opened Chars
  import Document

  predicate HasDigit(s: seq<char>) {
    exists i :: 0 <= i < |s| && IsDigit(s[i])
  }

  /** `i` is the smallest index of `s` holding a digit. */
  predicate IsFirstDigitIndex(s: seq<char>, i: int) {
    0 <= i < |s| && IsDigit(s[i]) && forall j :: 0 <= j < i ==> !IsDigit(s[j])
  }

  /** `i` is the largest index of `s` holding a digit. */
  predicate IsLastDigitIndex(s: seq<char>, i: int) {
    0 <= i < |s| && IsDigit(s[i]) && forall j :: i < j < |s| ==> !IsDigit(s[j])
  }

  /** Where the left-to-right scan for a digit stops, if it does. */
  function FirstDigitIndex(s: seq<char>): (r: Option<nat>)
    ensures r.Some? ==> IsFirstDigitIndex(s, r.value)
    ensures r.None? ==> !HasDigit(s)
  {
    if s == [] then None
    else if IsDigit(s[0]) then Some(0)
    else match FirstDigitIndex(s[1..])
      case Some(i) => Some(i + 1)
      case None => None
  }

  /** Where the right-to-left scan for a digit stops, if it does. */
  function LastDigitIndex(s: seq<char>): (r: Option<nat>)
    ensures r.Some? ==> IsLastDigitIndex(s, r.value)
    ensures r.None? ==> !HasDigit(s)
  {
    if s == [] then None
    else if IsDigit(s[|s| - 1]) then Some(|s| - 1)
    else LastDigitIndex(s[..|s| - 1])
  }

  /**
   * The calibration value of a line: ten times its first digit plus its last
   * digit, and no value at all when the line holds no digit.
   */
  function CalibrationValue(line: seq<char>): (r: Option<nat>)
    ensures r.None? <==> !HasDigit(line)
    ensures r.Some? ==> r.value <= 99
    ensures forall i, j :: IsFirstDigitIndex(line, i) && IsLastDigitIndex(line, j) ==>
      r == Some(10 * DigitValue(line[i]) + DigitValue(line[j]))
  {
    match (FirstDigitIndex(line), LastDigitIndex(line))
    case (Some(i), Some(j)) =>
      DigitIndicesUnique(line, i, j);
      Some(TwoDigitNumber(line[i], line[j]))
    case _ => None
  }

  /** The first and the last digit index are each the only one of their kind. */
  lemma DigitIndicesUnique(line: seq<char>, i: int, j: int)
    requires IsFirstDigitIndex(line, i) && IsLastDigitIndex(line, j)
    ensures forall m :: IsFirstDigitIndex(line, m) ==> m == i
    ensures forall m :: IsLastDigitIndex(line, m) ==> m == j
  {
  }

  /**
   * The two scanning loops of the source: the first digit from the left, the
   * last digit from the right; a line without a digit gives no value.
   */
  method GetCalibrationValue(line: seq<char>) returns (r: Option<nat>)
    ensures r == CalibrationValue(line)
  {
    var firstDigit: Option<char> := None;
    ghost var firstAt: nat := 0;
    for k := 0 to |line|
      invariant forall j :: 0 <= j < k ==> !IsDigit(line[j])
    {
      if IsDigit(line[k]) {
        firstDigit, firstAt := Some(line[k]), k;
        break;
      }
    }
    assert firstDigit.Some? ==> IsFirstDigitIndex(line, firstAt) && firstDigit.value == line[firstAt];
    assert firstDigit.None? ==> !HasDigit(line);

    var lastDigit: Option<char> := None;
    ghost var lastAt: nat := 0;
    for k := |line| downto 0
      invariant forall j :: k <= j < |line| ==> !IsDigit(line[j])
    {
      if IsDigit(line[k]) {
        lastDigit, lastAt := Some(line[k]), k;
        break;
      }
    }
    assert lastDigit.Some? ==> IsLastDigitIndex(line, lastAt) && lastDigit.value == line[lastAt];
    assert lastDigit.None? ==> !HasDigit(line);

    if firstDigit.Some? && lastDigit.Some? {
      r := Some(TwoDigitNumber(firstDigit.value, lastDigit.value));
    } else {
      r := None;
    }
  }

  /** A line with a single digit uses it at both ends. */
  lemma SingleDigitTwice(line: seq<char>, i: nat)
    requires i < |line| && IsDigit(line[i])
    requires forall j :: 0 <= j < |line| && j != i ==> !IsDigit(line[j])
    ensures CalibrationValue(line) == Some(11 * DigitValue(line[i]))
  {
    assert IsFirstDigitIndex(line, i) && IsLastDigitIndex(line, i);
  }

  /** The source's documented examples. */
  lemma ExampleOneAbcTwo()
    ensures CalibrationValue("1abc2") == Some(12)
  {
    assert IsFirstDigitIndex("1abc2", 0) && IsLastDigitIndex("1abc2", 4);
  }

  lemma ExamplePqr()
    ensures CalibrationValue("pqr3stu8vwx") == Some(38)
  {
    assert IsFirstDigitIndex("pqr3stu8vwx", 3) && IsLastDigitIndex("pqr3stu8vwx", 7);
  }

  lemma ExampleAlternating()
    ensures CalibrationValue("a1b2c3d4e5f") == Some(15)
  {
    assert IsFirstDigitIndex("a1b2c3d4e5f", 1) && IsLastDigitIndex("a1b2c3d4e5f", 9);
  }

  lemma ExampleTrebuchet()
    ensures CalibrationValue("treb7uchet") == Some(77)
  {
    SingleDigitTwice("treb7uchet", 4);
  }

  /** The calibration values of `lines`, line by line. */
  function LineValues(lines: seq<seq<char>>): (vs: seq<Option<nat>>)
    ensures |vs| == |lines|
    ensures forall i :: 0 <= i < |lines| ==> vs[i] == CalibrationValue(lines[i])
  {
    seq(|lines|, i requires 0 <= i < |lines| => CalibrationValue(lines[i]))
  }

  /**
   * The document's total: the sum of its lines' calibration values, and no
   * total when any line has no digit.
   */
  function TotalCalibrationValue(doc: seq<char>): (r: Option<nat>)
    ensures r.Some? <==> forall i :: 0 <= i < |Document.Lines(doc)| ==> HasDigit(Document.Lines(doc)[i])
  {
    var vs := LineValues(Document.Lines(doc));
    assert forall i :: 0 <= i < |vs| ==> (vs[i].Some? <==> HasDigit(Document.Lines(doc)[i]));
    Document.Sum(vs)
  }

  /** Every line adds at most 99 to the total. */
  lemma TotalBound(doc: seq<char>)
    requires TotalCalibrationValue(doc).Some?
    ensures TotalCalibrationValue(doc).value <= 99 * |Document.Lines(doc)|
  {
    Document.SumBound(LineValues(Document.Lines(doc)), 99);
  }

  /** Lines are independent: the total of two documents put together is the sum of their totals. */
  lemma TotalOfConcatenation(a: seq<seq<char>>, b: seq<seq<char>>)
    requires Document.NoNewline(a) && Document.NoNewline(b)
    ensures TotalCalibrationValue(Document.Unlines(a + b))
         == Document.Add(TotalCalibrationValue(Document.Unlines(a)), TotalCalibrationValue(Document.Unlines(b)))
  {
    var da, db, dab := Document.Unlines(a), Document.Unlines(b), Document.Unlines(a + b);
    assert Document.NoNewline(a + b);
    Document.LinesOfUnlines(a);
    Document.LinesOfUnlines(b);
    Document.LinesOfUnlines(a + b);
    var va, vb := LineValues(a), LineValues(b);
    assert LineValues(a + b) == va + vb by {
      LineValuesAppend(a, b);
    }
    Document.SumAppend(va, vb);
    assert TotalCalibrationValue(dab) == Document.Sum(va + vb);
    assert TotalCalibrationValue(da) == Document.Sum(va);
    assert TotalCalibrationValue(db) == Document.Sum(vb);
  }

  lemma LineValuesAppend(a: seq<seq<char>>, b: seq<seq<char>>)
    ensures LineValues(a + b) == LineValues(a) + LineValues(b)
  {
    var l, r := LineValues(a + b), LineValues(a) + LineValues(b);
    assert |l| == |r|;
    forall i | 0 <= i < |l| ensures l[i] == r[i] {
      if i < |a| {
        assert (a + b)[i] == a[i];
      } else {
        assert (a + b)[i] == b[i - |a|];
      }
    }
  }

  /** A document's total is the sum over the lines that build it. */
  lemma TotalFromLines(doc: seq<char>, ls: seq<seq<char>>)
    requires Document.NoNewline(ls) && Document.Unlines(ls) == Document.Terminate(doc)
    ensures TotalCalibrationValue(doc) == Document.Sum(LineValues(ls))
  {
    Document.LinesUnique(doc, ls);
  }

  /** The source's four-line example document totals 142. */
  lemma ExampleDocument(doc: seq<char>)
    requires doc == "1abc2" + "\n" + "pqr3stu8vwx" + "\n" + "a1b2c3d4e5f" + "\n" + "treb7uchet"
    ensures TotalCalibrationValue(doc) == Some(142)
  {
    var ls := ["1abc2", "pqr3stu8vwx", "a1b2c3d4e5f", "treb7uchet"];
    ExampleDocumentLines(doc, ls);
    TotalFromLines(doc, ls);
    var vs := LineValues(ls);
    assert vs[0] == Some(12) by { ExampleOneAbcTwo(); }
    assert vs[1] == Some(38) by { ExamplePqr(); }
    assert vs[2] == Some(15) by { ExampleAlternating(); }
    assert vs[3] == Some(77) by { ExampleTrebuchet(); }
    ExampleSum(vs);
  }

  lemma ExampleDocumentLines(doc: seq<char>, ls: seq<seq<char>>)
    requires doc == "1abc2" + "\n" + "pqr3stu8vwx" + "\n" + "a1b2c3d4e5f" + "\n" + "treb7uchet"
    requires ls == ["1abc2", "pqr3stu8vwx", "a1b2c3d4e5f", "treb7uchet"]
    ensures Document.NoNewline(ls) && Document.Unlines(ls) == Document.Terminate(doc)
  {
    assert ls[1..][1..][1..][1..] == [];
    assert Document.Unlines(ls[1..][1..][1..]) == "treb7uchet" + "\n";
    assert Document.Unlines(ls[1..][1..]) == "a1b2c3d4e5f" + "\n" + ("treb7uchet" + "\n");
    assert Document.Unlines(ls[1..]) == "pqr3stu8vwx" + "\n" + ("a1b2c3d4e5f" + "\n" + ("treb7uchet" + "\n"));
    assert Document.Unlines(ls) == doc + "\n";
    assert doc[|doc| - 1] == 't';
  }

  /** The four example values add up to 142. */
  lemma ExampleSum(vs: seq<Option<nat>>)
    requires |vs| == 4 && vs[0] == Some(12) && vs[1] == Some(38) && vs[2] == Some(15) && vs[3] == Some(77)
    ensures Document.Sum(vs) == Some(142)
  {
    Document.SumOfValues(vs, [12, 38, 15, 77]);
    assert Document.NatSum([12, 38, 15, 77]) == 142;
  }
}
