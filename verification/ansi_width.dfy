/**
 * The escape-sequence recogniser and width meter of ansi/buffer.go and
 * ansibuffer.go: a two-state scanner in which ESC opens a sequence and the
 * first terminator rune closes it, summing a per-rune width for the runes
 * outside sequences.
 */
module AnsiWidth {
  import opened Unicode
  import opened Text

  /** The scanner's state: the width counted so far and whether a sequence is open. */
  datatype Scan = Scan(n: nat, ansi: bool)

  const Start: Scan := Scan(0, false)

  /** One rune of the scanner (`accPrintableRuneWidth`). */
  function Acc(isTerm: char -> bool, width: char -> nat, st: Scan, c: char): Scan {
    if c == ESC then st.(ansi := true)
    else if st.ansi then (if isTerm(c) then st.(ansi := false) else st)
    else st.(n := st.n + width(c))
  }

  /** The scanner run over a string. */
  function ScanFrom(isTerm: char -> bool, width: char -> nat, st: Scan, s: string): Scan
    decreases |s|
  {
    if s == [] then st else ScanFrom(isTerm, width, Acc(isTerm, width, st, s[0]), s[1..])
  }

  /** `PrintableRuneWidth`: the cell width of the runes outside escape sequences. */
  function PrintableWidth(width: char -> nat, s: string): nat {
    ScanFrom(SeqTerminator, width, Start, s).n
  }

  function UnitWidth(c: char): nat { 1 }

  /** `PrintableRuneCount`: the number of runes outside escape sequences. */
  function PrintableCount(s: string): nat {
    PrintableWidth(UnitWidth, s)
  }

  /** Reference definition: the plain sum of the rune widths. */
  function SumWidth(width: char -> nat, s: string): nat
    decreases |s|
  {
    if s == [] then 0 else width(s[0]) + SumWidth(width, s[1..])
  }

  /** No rune of `body` ends a sequence (ESC itself never does). */
  ghost predicate NoTerminator(isTerm: char -> bool, body: string) {
    forall i :: 0 <= i < |body| ==> body[i] == ESC || !isTerm(body[i])
  }

  lemma {:induction false} ScanAppend(isTerm: char -> bool, width: char -> nat, st: Scan, a: string, b: string)
    ensures ScanFrom(isTerm, width, st, a + b) == ScanFrom(isTerm, width, ScanFrom(isTerm, width, st, a), b)
    decreases |a|
  {
    if a == [] {
      assert a + b == b;
    } else {
      assert (a + b)[1..] == a[1..] + b;
      ScanAppend(isTerm, width, Acc(isTerm, width, st, a[0]), a[1..], b);
    }
  }

  /** The count already reached only offsets the result; the open flag evolves independently of it. */
  lemma {:induction false} ScanShift(isTerm: char -> bool, width: char -> nat, st: Scan, s: string)
    ensures var r := ScanFrom(isTerm, width, Scan(0, st.ansi), s);
      ScanFrom(isTerm, width, st, s) == Scan(st.n + r.n, r.ansi)
    decreases |s|
  {
    if s != [] {
      var st' := Acc(isTerm, width, st, s[0]);
      var z' := Acc(isTerm, width, Scan(0, st.ansi), s[0]);
      assert st' == Scan(st.n + z'.n, z'.ansi);
      ScanShift(isTerm, width, st', s[1..]);
      ScanShift(isTerm, width, z', s[1..]);
    }
  }

  /** Each rune adds a non-negative amount: the count never decreases. */
  lemma ScanGrows(isTerm: char -> bool, width: char -> nat, st: Scan, s: string)
    ensures ScanFrom(isTerm, width, st, s).n >= st.n
  {
    ScanShift(isTerm, width, st, s);
  }

  /** Without ESC, the scanner sums the rune widths and stays outside sequences. */
  lemma {:induction false} PlainText(isTerm: char -> bool, width: char -> nat, n: nat, s: string)
    requires ESC !in s
    ensures ScanFrom(isTerm, width, Scan(n, false), s) == Scan(n + SumWidth(width, s), false)
    decreases |s|
  {
    if s != [] {
      assert ESC !in s[1..] by { assert forall c :: c in s[1..] ==> c in s; }
      PlainText(isTerm, width, n + width(s[0]), s[1..]);
    }
  }

  /** Inside a sequence, runes that do not terminate it are not counted. */
  lemma {:induction false} InsideSequence(isTerm: char -> bool, width: char -> nat, n: nat, body: string)
    requires NoTerminator(isTerm, body)
    ensures ScanFrom(isTerm, width, Scan(n, true), body) == Scan(n, true)
    decreases |body|
  {
    if body != [] {
      assert NoTerminator(isTerm, body[1..]) by {
        forall i | 0 <= i < |body[1..]| ensures body[1..][i] == ESC || !isTerm(body[1..][i]) {
          assert body[1..][i] == body[i + 1];
        }
      }
      InsideSequence(isTerm, width, n, body[1..]);
    }
  }

  /** A complete sequence, ESC through its terminator, contributes 0 and leaves the scanner outside. */
  lemma SequenceInvisible(isTerm: char -> bool, width: char -> nat, st: Scan, body: string, t: char)
    requires NoTerminator(isTerm, body) && isTerm(t) && t != ESC
    ensures ScanFrom(isTerm, width, st, [ESC] + body + [t]) == Scan(st.n, false)
  {
    ScanAppend(isTerm, width, st, [ESC] + body, [t]);
    ScanAppend(isTerm, width, st, [ESC], body);
    InsideSequence(isTerm, width, st.n, body);
  }

  /** A complete leading sequence adds nothing to the printable width of what follows it. */
  lemma SkipSequence(width: char -> nat, body: string, t: char, rest: string)
    requires NoTerminator(SeqTerminator, body) && SeqTerminator(t)
    ensures PrintableWidth(width, [ESC] + body + [t] + rest) == PrintableWidth(width, rest)
  {
    ScanAppend(SeqTerminator, width, Start, [ESC] + body + [t], rest);
    SequenceInvisible(SeqTerminator, width, Start, body, t);
  }

  /** A leading rune other than ESC adds its own width. */
  lemma SkipRune(width: char -> nat, c: char, rest: string)
    requires c != ESC
    ensures PrintableWidth(width, [c] + rest) == width(c) + PrintableWidth(width, rest)
  {
    assert ([c] + rest)[1..] == rest;
    ScanShift(SeqTerminator, width, Scan(width(c), false), rest);
  }

  /** A leading run of text without ESC adds the sum of its widths. */
  lemma SkipPlain(width: char -> nat, p: string, rest: string)
    requires ESC !in p
    ensures PrintableWidth(width, p + rest) == SumWidth(width, p) + PrintableWidth(width, rest)
  {
    ScanAppend(SeqTerminator, width, Start, p, rest);
    PlainText(SeqTerminator, width, 0, p);
    ScanShift(SeqTerminator, width, Scan(SumWidth(width, p), false), rest);
  }

  /** Without ESC, `PrintableRuneWidth` is the sum of the rune widths. */
  lemma PlainWidth(width: char -> nat, s: string)
    requires ESC !in s
    ensures PrintableWidth(width, s) == SumWidth(width, s)
  {
    PlainText(SeqTerminator, width, 0, s);
  }

  /** Printable ASCII: one cell per rune under every cell-width function. */
  predicate Printable(s: string) {
    forall i :: 0 <= i < |s| ==> ' ' <= s[i] <= '~'
  }

  /** A measure giving printable ASCII one column, as cell widths and rune counts both do. */
  ghost predicate AsciiCells(width: char -> nat) {
    forall c :: ' ' <= c <= '~' ==> width(c) == 1
  }

  lemma {:induction false} PrintableSum(width: char -> nat, s: string)
    requires AsciiCells(width) && Printable(s)
    ensures SumWidth(width, s) == |s|
    decreases |s|
  {
    if s != [] {
      PrintableSum(width, s[1..]);
    }
  }

  lemma PrintableWidthIsLength(width: char -> nat, s: string)
    requires AsciiCells(width) && Printable(s)
    ensures PrintableWidth(width, s) == |s|
  {
    PlainWidth(width, s);
    PrintableSum(width, s);
  }

  /** Width is additive over `a + b` when `a` ends outside a sequence. */
  lemma WidthAdditive(width: char -> nat, a: string, b: string)
    requires !ScanFrom(SeqTerminator, width, Start, a).ansi
    ensures PrintableWidth(width, a + b) == PrintableWidth(width, a) + PrintableWidth(width, b)
  {
    ScanAppend(SeqTerminator, width, Start, a, b);
    ScanShift(SeqTerminator, width, ScanFrom(SeqTerminator, width, Start, a), b);
  }

  /** Width is monotone over rune prefixes. */
  lemma WidthMonotone(width: char -> nat, s: string, i: nat, j: nat)
    requires i <= j <= |s|
    ensures PrintableWidth(width, s[..i]) <= PrintableWidth(width, s[..j])
  {
    assert s[..j] == s[..i] + s[i..j];
    ScanAppend(SeqTerminator, width, Start, s[..i], s[i..j]);
    ScanGrows(SeqTerminator, width, ScanFrom(SeqTerminator, width, Start, s[..i]), s[i..j]);
  }

  /** Extending a prefix by one rune: the loop step of both width methods. */
  lemma ScanPrefix(isTerm: char -> bool, width: char -> nat, s: string, i: nat)
    requires i < |s|
    ensures ScanFrom(isTerm, width, Start, s[..i + 1]) == Acc(isTerm, width, ScanFrom(isTerm, width, Start, s[..i]), s[i])
  {
    assert s[..i + 1] == s[..i] + [s[i]];
    ScanAppend(isTerm, width, Start, s[..i], [s[i]]);
  }

  /** The printable count never exceeds the number of runes. */
  lemma {:induction false} CountBound(st: Scan, s: string)
    ensures ScanFrom(SeqTerminator, UnitWidth, st, s).n <= st.n + |s|
    decreases |s|
  {
    if s != [] {
      CountBound(Acc(SeqTerminator, UnitWidth, st, s[0]), s[1..]);
    }
  }

  lemma {:induction false} SumUnit(s: string)
    ensures SumWidth(UnitWidth, s) == |s|
    decreases |s|
  {
    if s != [] {
      SumUnit(s[1..]);
    }
  }

  /** `PrintableRuneCount` is at most the rune count, and equal to it without ESC. */
  lemma CountProperties(s: string)
    ensures PrintableCount(s) <= |s|
    ensures ESC !in s ==> PrintableCount(s) == |s|
  {
    CountBound(Start, s);
    if ESC !in s {
      PlainWidth(UnitWidth, s);
      SumUnit(s);
    }
  }

  /** The first index at which the printable width of the prefix through it exceeds `w`, or `|s|`. */
  function FirstOver(width: char -> nat, s: string, w: int, i: nat): (k: nat)
    requires i <= |s|
    ensures i <= k <= |s|
    decreases |s| - i
  {
    if i == |s| then |s|
    else if PrintableWidth(width, s[..i + 1]) > w then i
    else FirstOver(width, s, w, i + 1)
  }

  /** `FirstOver` is determined by the prefix widths it inspects. */
  lemma {:induction false} FirstOverIs(width: char -> nat, s: string, w: int, i: nat, k: nat)
    requires i <= k <= |s|
    requires forall j :: i < j <= k ==> PrintableWidth(width, s[..j]) <= w
    requires k < |s| ==> PrintableWidth(width, s[..k + 1]) > w
    ensures FirstOver(width, s, w, i) == k
    decreases k - i
  {
    if i < k {
      FirstOverIs(width, s, w, i + 1, k);
    }
  }

  /** By monotonicity, the cut point is fixed by the widths just before and just after it. */
  lemma CutAt(width: char -> nat, s: string, w: int, k: nat)
    requires k <= |s|
    requires k > 0 ==> PrintableWidth(width, s[..k]) <= w
    requires k < |s| ==> PrintableWidth(width, s[..k + 1]) > w
    ensures FirstOver(width, s, w, 0) == k
  {
    forall j | 0 < j <= k ensures PrintableWidth(width, s[..j]) <= w {
      WidthMonotone(width, s, j, k);
    }
    FirstOverIs(width, s, w, 0, k);
  }

  /** What `Truncate(s, w, tail)` returns. */
  function Truncated(width: char -> nat, s: string, w: int, tail: string): string {
    if PrintableWidth(width, s) <= w then s
    else s[..FirstOver(width, s, w, 0)] + RESET + tail
  }

  lemma {:induction false} FirstOverSpec(width: char -> nat, s: string, w: int, i: nat)
    requires i <= |s|
    ensures var k := FirstOver(width, s, w, i);
      && (forall j :: i < j <= k ==> PrintableWidth(width, s[..j]) <= w)
      && (k < |s| ==> PrintableWidth(width, s[..k + 1]) > w)
    decreases |s| - i
  {
    if i < |s| && PrintableWidth(width, s[..i + 1]) <= w {
      FirstOverSpec(width, s, w, i + 1);
    }
  }

  /**
   * The truncating branch keeps the longest rune prefix whose printable width
   * is at most `w`, then appends the reset and the tail.
   */
  lemma TruncatedLongestPrefix(width: char -> nat, s: string, w: int, tail: string)
    requires PrintableWidth(width, s) > w
    ensures var k := FirstOver(width, s, w, 0);
      && Truncated(width, s, w, tail) == s[..k] + RESET + tail
      && (k > 0 || w >= 0 ==> PrintableWidth(width, s[..k]) <= w)
      && (forall j :: k < j <= |s| ==> PrintableWidth(width, s[..j]) > w)
  {
    var k := FirstOver(width, s, w, 0);
    FirstOverSpec(width, s, w, 0);
    assert s[..0] == [];
    forall j | k < j <= |s| ensures PrintableWidth(width, s[..j]) > w {
      WidthMonotone(width, s, k + 1, j);
    }
  }

  /** The reset and the tail never reopen a sequence: the result's width is the prefix's plus the tail's. */
  lemma TruncatedWidth(width: char -> nat, s: string, w: int, tail: string)
    requires PrintableWidth(width, s) > w
    ensures var k := FirstOver(width, s, w, 0);
      PrintableWidth(width, Truncated(width, s, w, tail)) == PrintableWidth(width, s[..k]) + PrintableWidth(width, tail)
  {
    var k := FirstOver(width, s, w, 0);
    var p := s[..k];
    TruncatedLongestPrefix(width, s, w, tail);
    assert RESET == [ESC] + "[0" + ['m'];
    ScanAppend(SeqTerminator, width, Start, p, RESET);
    SequenceInvisible(SeqTerminator, width, ScanFrom(SeqTerminator, width, Start, p), "[0", 'm');
    WidthAdditive(width, p + RESET, tail);
  }

  /** `PrintableRuneWidth`: a rune loop threading the scanner state. */
  method PrintableRuneWidth(width: char -> nat, s: string) returns (n: nat)
    ensures n == PrintableWidth(width, s)
  {
    var st := Start;
    for i := 0 to |s|
      invariant st == ScanFrom(SeqTerminator, width, Start, s[..i])
    {
      ScanPrefix(SeqTerminator, width, s, i);
      st := Acc(SeqTerminator, width, st, s[i]);
    }
    assert s[..|s|] == s;
    n := st.n;
  }

  /** `Truncate`: cut at printable width `w`, then append a reset and the tail. */
  method Truncate(width: char -> nat, s: string, w: int, tail: string) returns (r: string)
    ensures r == Truncated(width, s, w, tail)
  {
    var total := PrintableRuneWidth(width, s);
    if total <= w {
      return s;
    }
    var st := Start;
    var acc: string := [];
    var i := 0;
    while i < |s|
      invariant i <= |s|
      invariant st == ScanFrom(SeqTerminator, width, Start, s[..i])
      invariant acc == s[..i]
      invariant FirstOver(width, s, w, 0) == FirstOver(width, s, w, i)
    {
      ScanPrefix(SeqTerminator, width, s, i);
      st := Acc(SeqTerminator, width, st, s[i]);
      if st.n > w {
        break;
      }
      acc := acc + [s[i]];
      i := i + 1;
    }
    r := acc + RESET + tail;
  }

  /** The loop of `ANSIBuffer.PrintableRuneCount`. */
  method PrintableRuneCount(s: string) returns (n: nat)
    ensures n == PrintableCount(s)
  {
    var ansi := false;
    n := 0;
    for i := 0 to |s|
      invariant Scan(n, ansi) == ScanFrom(SeqTerminator, UnitWidth, Start, s[..i])
    {
      ScanPrefix(SeqTerminator, UnitWidth, s, i);
      var c := s[i];
      if c == ESC {
        ansi := true;
      } else if ansi {
        if ('\U{40}' <= c <= '\U{5A}') || ('\U{61}' <= c <= '\U{7A}') {
          ansi := false;
        }
      } else {
        n := n + 1;
      }
    }
    assert s[..|s|] == s;
  }

  /** `ansi.Buffer`: a byte buffer whose contents can be measured. */
  class Buffer {
    var contents: string

    constructor (contents: string)
      ensures this.contents == contents
    {
      this.contents := contents;
    }

    /** `Buffer.PrintableRuneWidth`: the printable width of the contents. */
    method PrintableRuneWidth(width: char -> nat) returns (n: nat)
      ensures n == PrintableWidth(width, contents)
    {
      n := _default.PrintableRuneWidth(width, contents);
    }
  }

  /** `ANSIBuffer` of the older reflow package. */
  class AnsiBuffer {
    var contents: string

    constructor (contents: string)
      ensures this.contents == contents
    {
      this.contents := contents;
    }

    /** `PrintableRuneCount`: the number of runes outside escape sequences. */
    method PrintableRuneCount() returns (n: nat)
      ensures n == PrintableCount(contents)
    {
      n := _default.PrintableRuneCount(contents);
    }
  }
}
