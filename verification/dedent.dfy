/**
 * dedent/dedent.go: removes the indentation all non-empty lines share. The
 * indentation of a line is its run of leading spaces (tabs do not count);
 * the text is split at every line end, the smallest indentation over the
 * non-empty lines is found, and if it is positive that many spaces are
 * trimmed from the front of every line.
 */
module Dedent {
  import opened Text

  const SPACE: char := ' '

  /** `len(l) - len(strings.TrimLeft(l, " "))`: the number of leading spaces. */
  function LeadingSpaces(l: string): (n: nat)
    ensures n <= |l|
    ensures forall i :: 0 <= i < n ==> l[i] == SPACE
    ensures n == |l| || l[n] != SPACE
    decreases |l|
  {
    if l == [] || l[0] != SPACE then 0 else 1 + LeadingSpaces(l[1..])
  }

  /**
   * The first loop of `String`: the smallest indentation over the non-empty
   * lines, or -1 when every line is empty.
   */
  function MinIndent(ls: seq<string>): (m: int)
    ensures m >= -1
    decreases |ls|
  {
    if ls == [] then -1 else Fold(MinIndent(ls[..|ls| - 1]), ls[|ls| - 1])
  }

  /** One iteration of the first loop: an empty line is skipped, another may lower the minimum. */
  function Fold(minIndent: int, l: string): int {
    if l == [] then minIndent
    else
      var indent := LeadingSpaces(l);
      if minIndent == -1 || indent < minIndent then indent else minIndent
  }

  /**
   * `MinIndent` is -1 exactly when every line is empty, and otherwise the
   * indentation of some non-empty line and no more than that of any other.
   */
  lemma {:induction false} MinIndentSpec(ls: seq<string>)
    ensures var m := MinIndent(ls);
      && (m == -1 <==> forall i :: 0 <= i < |ls| ==> ls[i] == [])
      && (m >= 0 ==> exists i :: 0 <= i < |ls| && ls[i] != [] && LeadingSpaces(ls[i]) == m)
      && (forall i :: 0 <= i < |ls| && ls[i] != [] ==> m <= LeadingSpaces(ls[i]))
    decreases |ls|
  {
    if ls != [] {
      var init, l := ls[..|ls| - 1], ls[|ls| - 1];
      MinIndentSpec(init);
      var m0, m := MinIndent(init), MinIndent(ls);
      assert forall i :: 0 <= i < |init| ==> init[i] == ls[i];
      if m >= 0 {
        if l != [] && LeadingSpaces(l) == m {
          assert ls[|ls| - 1] != [] && LeadingSpaces(ls[|ls| - 1]) == m;
        } else {
          var j :| 0 <= j < |init| && init[j] != [] && LeadingSpaces(init[j]) == m;
          assert ls[j] != [] && LeadingSpaces(ls[j]) == m;
        }
      }
    }
  }

  lemma MinIndentStep(ls: seq<string>, i: nat)
    requires i < |ls|
    ensures MinIndent(ls[..i + 1]) == Fold(MinIndent(ls[..i]), ls[i])
  {
    assert ls[..i + 1][..i] == ls[..i];
  }

  /** `strings.TrimPrefix(l, p)`. */
  function TrimPrefix(l: string, p: string): string {
    if p <= l then l[|p|..] else l
  }

  /** Every line with `m` leading spaces trimmed, where it has them. */
  function Trimmed(ls: seq<string>, m: nat): (r: seq<string>)
    ensures |r| == |ls|
  {
    seq(|ls|, i requires 0 <= i < |ls| => TrimPrefix(ls[i], Repeat(SPACE, m)))
  }

  /** `String(s)`. */
  function Dedented(s: string): string {
    var ls := Lines(s);
    var m := MinIndent(ls);
    if m <= 0 then s else JoinLines(Trimmed(ls, m))
  }

  /** `l + "\n"` for every line, concatenated: what the second loop leaves in the buffer. */
  function Terminated(ls: seq<string>): string
    decreases |ls|
  {
    if ls == [] then [] else Terminated(ls[..|ls| - 1]) + ls[|ls| - 1] + [NEWLINE]
  }

  /** The buffer with its last line end removed is the lines joined by line ends. */
  lemma {:induction false} TerminatedJoin(ls: seq<string>)
    requires |ls| >= 1
    ensures Terminated(ls) == JoinLines(ls) + [NEWLINE]
    decreases |ls|
  {
    if |ls| == 1 {
      assert ls[..0] == [];
    } else {
      var init := ls[..|ls| - 1];
      TerminatedJoin(init);
      JoinLinesSnoc(init, ls[|ls| - 1]);
      assert init + [ls[|ls| - 1]] == ls;
    }
  }

  lemma TerminatedStep(ls: seq<string>, i: nat)
    requires i < |ls|
    ensures Terminated(ls[..i + 1]) == Terminated(ls[..i]) + ls[i] + [NEWLINE]
  {
    assert ls[..i + 1][..i] == ls[..i];
  }

  lemma {:induction false} JoinLinesSnoc(ls: seq<string>, l: string)
    requires |ls| >= 1
    ensures JoinLines(ls + [l]) == JoinLines(ls) + [NEWLINE] + l
    decreases |ls|
  {
    var xs := ls + [l];
    if |ls| == 1 {
      assert xs[1..] == [l];
    } else {
      assert xs[1..] == ls[1..] + [l];
      JoinLinesSnoc(ls[1..], l);
    }
  }

  /** `String(s)`, with its two loops. */
  method String(s: string) returns (r: string)
    ensures r == Dedented(s)
  {
    var lines := Lines(s);
    var minIndent: int := -1;
    var i := 0;
    while i < |lines|
      invariant 0 <= i <= |lines|
      invariant minIndent == MinIndent(lines[..i])
    {
      var l := lines[i];
      ghost var before := minIndent;
      if |l| != 0 {
        var indent := LeadingSpaces(l);
        if minIndent == -1 || indent < minIndent {
          minIndent := indent;
        }
      }
      assert minIndent == Fold(before, l);
      MinIndentStep(lines, i);
      i := i + 1;
    }
    assert lines[..i] == lines;
    if minIndent <= 0 {
      return s;
    }
    var buf := [];
    var prefix := Repeat(SPACE, minIndent);
    i := 0;
    while i < |lines|
      invariant 0 <= i <= |lines|
      invariant buf == Terminated(Trimmed(lines, minIndent)[..i])
    {
      TerminatedStep(Trimmed(lines, minIndent), i);
      var l := TrimPrefix(lines[i], prefix);
      buf := buf + (l + [NEWLINE]);
      i := i + 1;
    }
    var t := Trimmed(lines, minIndent);
    assert t[..i] == t;
    TerminatedJoin(t);
    r := buf[..|buf| - 1];
  }

  // What dedenting does to the lines.

  /** Trimming a prefix leaves a line without line ends. */
  lemma TrimmedPlain(ls: seq<string>, m: nat)
    requires forall i :: 0 <= i < |ls| ==> NEWLINE !in ls[i]
    ensures forall i :: 0 <= i < |ls| ==> NEWLINE !in Trimmed(ls, m)[i]
  {
    forall i | 0 <= i < |ls| ensures NEWLINE !in Trimmed(ls, m)[i] {
      var l := ls[i];
      if Repeat(SPACE, m) <= l {
        assert forall x :: x in l[m..] ==> x in l;
      }
    }
  }

  /** The lines of `String(s)`, from the lines of `s`. */
  function DedentedLines(ls: seq<string>): (r: seq<string>)
    ensures |r| == |ls|
  {
    var m := MinIndent(ls);
    if m <= 0 then ls else Trimmed(ls, m)
  }

  /**
   * Dedenting keeps the number of lines: the lines of the result are the
   * lines of `s`, each with the common indentation trimmed.
   */
  lemma DedentLines(s: string)
    ensures Lines(Dedented(s)) == DedentedLines(Lines(s))
    ensures |Lines(Dedented(s))| == |Lines(s)|
  {
    var ls := Lines(s);
    var m := MinIndent(ls);
    if m > 0 {
      LinesJoin(s);
      TrimmedPlain(ls, m);
      JoinLinesSplit(Trimmed(ls, m));
    }
  }

  /**
   * With a common indentation `m`, every non-empty line loses exactly `m`
   * leading spaces and every empty line stays empty.
   */
  lemma EachLine(ls: seq<string>, i: nat)
    requires MinIndent(ls) > 0 && i < |ls|
    ensures var m, l, o := MinIndent(ls), ls[i], DedentedLines(ls)[i];
      (l == [] ==> o == []) && (l != [] ==> l == Repeat(SPACE, m) + o)
  {
    var m := MinIndent(ls);
    var l := ls[i];
    MinIndentSpec(ls);
    if l != [] {
      SpacesPrefix(l, m);
      assert l == l[..m] + l[m..];
    }
  }

  /** A line with at least `m` leading spaces starts with `m` spaces. */
  lemma SpacesPrefix(l: string, m: nat)
    requires m <= LeadingSpaces(l)
    ensures Repeat(SPACE, m) <= l && l[..m] == Repeat(SPACE, m)
  {
    assert forall k :: 0 <= k < m ==> Repeat(SPACE, m)[k] == SPACE;
  }

  /** Lines deeper than the common indentation keep what they have beyond it. */
  lemma RelativeIndent(ls: seq<string>, i: nat)
    requires MinIndent(ls) > 0 && i < |ls| && ls[i] != []
    ensures LeadingSpaces(DedentedLines(ls)[i]) == LeadingSpaces(ls[i]) - MinIndent(ls)
  {
    var m, l := MinIndent(ls), ls[i];
    EachLine(ls, i);
    SpacesSkip(l, m);
    assert DedentedLines(ls)[i] == l[m..];
  }

  lemma {:induction false} SpacesSkip(l: string, m: nat)
    requires m <= LeadingSpaces(l)
    ensures LeadingSpaces(l[m..]) == LeadingSpaces(l) - m
    decreases m
  {
    if m > 0 {
      assert l[1..][m - 1..] == l[m..];
      SpacesSkip(l[1..], m - 1);
    }
  }

  /** Every non-empty line starts with a space, and there is one. */
  predicate CommonIndent(ls: seq<string>) {
    (exists i :: 0 <= i < |ls| && ls[i] != []) && forall i :: 0 <= i < |ls| && ls[i] != [] ==> ls[i][0] == SPACE
  }

  /** The lines have a common indentation exactly when there is something to trim. */
  lemma CommonIndentMin(ls: seq<string>)
    ensures CommonIndent(ls) <==> MinIndent(ls) > 0
  {
    var m := MinIndent(ls);
    MinIndentSpec(ls);
    if m > 0 {
      forall i | 0 <= i < |ls| && ls[i] != [] ensures ls[i][0] == SPACE {
        assert LeadingSpaces(ls[i]) >= 1;
      }
    } else if m == 0 {
      var j :| 0 <= j < |ls| && ls[j] != [] && LeadingSpaces(ls[j]) == 0;
      assert ls[j][0] != SPACE;
    }
  }

  /**
   * Some non-empty line has no leading space, or there is no non-empty
   * line: exactly then the text comes back unchanged.
   */
  lemma Unchanged(s: string)
    ensures Dedented(s) == s <==> !CommonIndent(Lines(s))
  {
    var ls := Lines(s);
    var m := MinIndent(ls);
    CommonIndentMin(ls);
    MinIndentSpec(ls);
    if m > 0 {
      var j :| 0 <= j < |ls| && ls[j] != [] && LeadingSpaces(ls[j]) == m;
      assert Lines(Dedented(s)) != ls by {
        DedentLines(s);
        EachLine(ls, j);
        assert |DedentedLines(ls)[j]| < |ls[j]|;
      }
    }
  }

  /** A line of spaces only. */
  predicate SpacesOnly(l: string) {
    l != [] && LeadingSpaces(l) == |l|
  }

  /** Once dedented, lines with no line of spaces only have no common indentation left. */
  lemma NoneLeft(ls: seq<string>)
    requires forall i :: 0 <= i < |ls| ==> !SpacesOnly(ls[i])
    ensures MinIndent(DedentedLines(ls)) <= 0
  {
    var m := MinIndent(ls);
    MinIndentSpec(ls);
    if m > 0 {
      var j :| 0 <= j < |ls| && ls[j] != [] && LeadingSpaces(ls[j]) == m;
      var o := DedentedLines(ls);
      MinIndentSpec(o);
      RelativeIndent(ls, j);
      EachLine(ls, j);
      assert o[j] != [] by {
        assert !SpacesOnly(ls[j]);
      }
    }
  }

  /**
   * Dedenting twice is dedenting once, as long as no line consists of spaces
   * only: the line that set the common indentation now starts with another
   * rune.
   */
  lemma Idempotent(s: string)
    requires forall i :: 0 <= i < |Lines(s)| ==> !SpacesOnly(Lines(s)[i])
    ensures Dedented(Dedented(s)) == Dedented(s)
  {
    var d := Dedented(s);
    assert MinIndent(Lines(d)) <= 0 by {
      DedentLines(s);
      NoneLeft(Lines(s));
    }
  }
}
