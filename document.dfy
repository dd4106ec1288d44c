/** A calibration document: its lines, and the fail-fast sum of per-line values. */
module Document {
  import opened Chars

  /** Index of the first '\n' in `doc`, or |doc| when there is none. */
  function LineEnd(doc: seq<char>): (k: nat)
    ensures k <= |doc|
    ensures k < |doc| ==> doc[k] == '\n'
    ensures forall i :: 0 <= i < k ==> doc[i] != '\n'
  {
    if doc == [] || doc[0] == '\n' then 0 else 1 + LineEnd(doc[1..])
  }

  /** The document's lines, split on '\n'; a final terminator adds no empty line. */
  function Lines(doc: seq<char>): (ls: seq<seq<char>>)
    ensures forall i :: 0 <= i < |ls| ==> '\n' !in ls[i]
    ensures |ls| <= |doc|
    decreases |doc|
  {
    if doc == [] then []
    else
      var k := LineEnd(doc);
      if k == |doc| then [doc] else [doc[..k]] + Lines(doc[k + 1..])
  }

  /** The document made of `ls`, each line followed by '\n'. */
  function Unlines(ls: seq<seq<char>>): (doc: seq<char>)
    ensures |doc| >= |ls|
  {
    if ls == [] then [] else ls[0] + ['\n'] + Unlines(ls[1..])
  }

  predicate NoNewline(ls: seq<seq<char>>) {
    forall i :: 0 <= i < |ls| ==> '\n' !in ls[i]
  }

  /** Splitting a document built from lines gives those lines back. */
  lemma {:induction false} LinesOfUnlines(ls: seq<seq<char>>)
    requires NoNewline(ls)
    ensures Lines(Unlines(ls)) == ls
  {
    if ls != [] {
      var doc := Unlines(ls);
      var l := ls[0];
      assert doc == l + (['\n'] + Unlines(ls[1..]));
      assert LineEnd(doc) == |l| by { LineEndOfLine(l, ['\n'] + Unlines(ls[1..])); }
      assert doc[..|l|] == l;
      assert doc[|l| + 1..] == Unlines(ls[1..]);
      LinesOfUnlines(ls[1..]);
      assert ls == [l] + ls[1..];
    }
  }

  lemma {:induction false} LineEndOfLine(l: seq<char>, rest: seq<char>)
    requires '\n' !in l
    requires rest != [] && rest[0] == '\n'
    ensures LineEnd(l + rest) == |l|
  {
    if l != [] {
      assert (l + rest)[1..] == l[1..] + rest;
      LineEndOfLine(l[1..], rest);
    } else {
      assert l + rest == rest;
    }
  }

  /** `doc` is empty or its last character is a line terminator. */
  predicate Terminated(doc: seq<char>) {
    doc == [] || doc[|doc| - 1] == '\n'
  }

  /** `doc` with a final terminator added unless it already has one. */
  function Terminate(doc: seq<char>): (t: seq<char>)
    ensures Terminated(t)
    ensures !Terminated(doc) ==> |t| == |doc| + 1 && t[..|doc|] == doc
  {
    if Terminated(doc) then doc else doc + ['\n']
  }

  /** Joining the lines again restores the document, up to a final terminator. */
  lemma {:induction false} UnlinesOfLines(doc: seq<char>)
    ensures Unlines(Lines(doc)) == Terminate(doc)
    decreases |doc|
  {
    if doc == [] {
    } else if LineEnd(doc) == |doc| {
      assert Lines(doc) == [doc];
      assert Unlines([doc]) == doc + ['\n'] + Unlines([]);
      assert doc[|doc| - 1] != '\n';
    } else {
      var k := LineEnd(doc);
      var line, rest := doc[..k], doc[k + 1..];
      assert Lines(doc) == [line] + Lines(rest);
      assert Unlines(Lines(doc)) == line + ['\n'] + Unlines(Lines(rest));
      UnlinesOfLines(rest);
      TerminateAfterLine(doc, k);
    }
  }

  lemma TerminateAfterLine(doc: seq<char>, k: nat)
    requires k < |doc| && doc[k] == '\n'
    ensures Terminate(doc) == doc[..k] + ['\n'] + Terminate(doc[k + 1..])
  {
    var rest := doc[k + 1..];
    assert doc == doc[..k] + ['\n'] + rest;
    if rest != [] {
      assert doc[|doc| - 1] == rest[|rest| - 1];
    }
  }

  /** The lines of a document are the one list of '\n'-free lines that builds it. */
  lemma {:induction false} LinesUnique(doc: seq<char>, ls: seq<seq<char>>)
    requires NoNewline(ls)
    ensures Lines(doc) == ls <==> Unlines(ls) == Terminate(doc)
  {
    UnlinesOfLines(doc);
    LinesOfUnlines(ls);
    LinesOfUnlines(Lines(doc));
  }

  /** Building a document from two groups of lines is concatenating their documents. */
  lemma {:induction false} UnlinesAppend(a: seq<seq<char>>, b: seq<seq<char>>)
    ensures Unlines(a + b) == Unlines(a) + Unlines(b)
  {
    if a != [] {
      assert (a + b)[1..] == a[1..] + b;
      UnlinesAppend(a[1..], b);
    } else {
      assert a + b == b;
    }
  }

  /** The sum of the per-line values, or None as soon as one line has no value. */
  function Sum(vals: seq<Option<nat>>): (r: Option<nat>)
    ensures r.Some? <==> forall i :: 0 <= i < |vals| ==> vals[i].Some?
  {
    if vals == [] then Some(0)
    else
      match (vals[0], Sum(vals[1..]))
      case (Some(v), Some(rest)) => Some(v + rest)
      case _ => None
  }

  /** Adding two optional totals, None when either is None. */
  function Add(a: Option<nat>, b: Option<nat>): (r: Option<nat>)
    ensures r.Some? <==> a.Some? && b.Some?
    ensures r.Some? ==> r.value == a.value + b.value
  {
    if a.Some? && b.Some? then Some(a.value + b.value) else None
  }

  /** Summing two groups of lines separately and adding gives the same total. */
  lemma {:induction false} SumAppend(a: seq<Option<nat>>, b: seq<Option<nat>>)
    ensures Sum(a + b) == Add(Sum(a), Sum(b))
  {
    if a == [] {
      assert a + b == b;
    } else {
      assert (a + b)[1..] == a[1..] + b;
      SumAppend(a[1..], b);
    }
  }

  /** The arithmetic sum of some numbers. */
  function NatSum(ns: seq<nat>): nat {
    if ns == [] then 0 else ns[0] + NatSum(ns[1..])
  }

  /** When every value is present, the total is the arithmetic sum of the values. */
  lemma {:induction false} SumOfValues(vals: seq<Option<nat>>, ns: seq<nat>)
    requires |vals| == |ns| && forall i :: 0 <= i < |vals| ==> vals[i] == Some(ns[i])
    ensures Sum(vals) == Some(NatSum(ns))
  {
    if vals != [] {
      SumOfValues(vals[1..], ns[1..]);
    }
  }

  /** When every value is at most `bound`, the total is at most `bound` per line. */
  lemma {:induction false} SumBound(vals: seq<Option<nat>>, bound: nat)
    requires forall i :: 0 <= i < |vals| ==> vals[i].Some? && vals[i].value <= bound
    ensures Sum(vals).Some? && Sum(vals).value <= bound * |vals|
  {
    if vals != [] {
      SumBound(vals[1..], bound);
    }
  }
}
