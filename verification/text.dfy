/**
 * Shared vocabulary of the layout writers: the escape marker, the reset
 * sequence, the two terminator classes found in the code, rune groups, and
 * the downstream sink (`io.Writer` / `bytes.Buffer`).
 */
module Text {
  import opened Unicode

  const ESC: char := '\U{1B}'
  const NEWLINE: char := '\n'

  /** `"\x1b[0m"`, the SGR reset sequence. */
  const RESET: string := "\U{1B}[0m"

  /** Terminator class `0x40-0x5A | 0x61-0x7A` (ansi/buffer.go, ansibuffer.go, wordwrap, reflow). */
  predicate SeqTerminator(c: char) {
    ('\U{40}' <= c <= '\U{5A}') || ('\U{61}' <= c <= '\U{7A}')
  }

  /** Terminator class `0x41-0x5A | 0x61-0x7A` (ansi/writer.go, padding, indent). */
  predicate LetterTerminator(c: char) {
    ('\U{41}' <= c <= '\U{5A}') || ('\U{61}' <= c <= '\U{7A}')
  }

  /** `bytes.HasSuffix`. */
  predicate HasSuffix(s: string, suffix: string) {
    |suffix| <= |s| && s[|s| - |suffix|..] == suffix
  }

  /** `strings.Repeat(string(c), n)`. */
  function Repeat(c: char, n: nat): (r: string)
    ensures |r| == n
    ensures forall i :: 0 <= i < n ==> r[i] == c
  {
    seq(n, _ => c)
  }

  /** `inGroup`: linear search for a rune in a rune slice. */
  method InGroup(a: seq<char>, c: char) returns (found: bool)
    ensures found <==> c in a
  {
    for i := 0 to |a|
      invariant c !in a[..i]
    {
      if a[i] == c {
        return true;
      }
    }
    return false;
  }

  /** The runes of `s` that are not whitespace, in order. */
  function Visible(s: string): (v: string)
    ensures |v| <= |s|
    decreases |s|
  {
    if s == [] then [] else (if IsSpace(s[0]) then [] else [s[0]]) + Visible(s[1..])
  }

  lemma {:induction false} VisibleAppend(a: string, b: string)
    ensures Visible(a + b) == Visible(a) + Visible(b)
    decreases |a|
  {
    if a == [] {
      assert a + b == b;
    } else {
      assert (a + b)[0] == a[0] && (a + b)[1..] == a[1..] + b;
      VisibleAppend(a[1..], b);
    }
  }

  /** Every rune is whitespace. */
  predicate Blank(s: string) {
    forall i :: 0 <= i < |s| ==> IsSpace(s[i])
  }

  lemma {:induction false} BlankInvisible(s: string)
    requires Blank(s)
    ensures Visible(s) == []
    decreases |s|
  {
    if s != [] {
      BlankInvisible(s[1..]);
    }
  }

  /** `strings.Split(s, "\n")`: the lines of `s`, at least one, without their line ends. */
  function Lines(s: string): (ls: seq<string>)
    ensures |ls| >= 1
    decreases |s|
  {
    if s == [] then [[]]
    else
      var rest := Lines(s[1..]);
      if s[0] == NEWLINE then [[]] + rest else [[s[0]] + rest[0]] + rest[1..]
  }

  /** `strings.Join(ls, "\n")`. */
  function JoinLines(ls: seq<string>): string
    requires |ls| >= 1
    decreases |ls|
  {
    if |ls| == 1 then ls[0] else ls[0] + [NEWLINE] + JoinLines(ls[1..])
  }

  /** Splitting and joining again gives the text back, and no line holds a line end. */
  lemma {:induction false} LinesJoin(s: string)
    ensures JoinLines(Lines(s)) == s
    ensures forall i :: 0 <= i < |Lines(s)| ==> NEWLINE !in Lines(s)[i]
    decreases |s|
  {
    if s != [] {
      var rest := Lines(s[1..]);
      LinesJoin(s[1..]);
      if s[0] == NEWLINE {
        assert Lines(s)[1..] == rest;
      } else {
        var ls := Lines(s);
        assert ls[0] == [s[0]] + rest[0] && ls[1..] == rest[1..];
        forall i | 0 <= i < |ls|
          ensures NEWLINE !in ls[i]
        {
          if i > 0 {
            assert ls[i] == rest[i];
          }
        }
        if |rest| > 1 {
          assert JoinLines(ls) == ls[0] + [NEWLINE] + JoinLines(rest[1..]);
        }
        assert [s[0]] + s[1..] == s;
      }
    }
  }

  /** Text without line ends is one line. */
  lemma {:induction false} LinesPlain(a: string)
    requires NEWLINE !in a
    ensures Lines(a) == [a]
    decreases |a|
  {
    if a != [] {
      assert NEWLINE !in a[1..] by { assert forall c :: c in a[1..] ==> c in a; }
      LinesPlain(a[1..]);
      assert [a[0]] + a[1..] == a;
    }
  }

  /** The first line end ends the first line. */
  lemma {:induction false} LinesCons(a: string, b: string)
    requires NEWLINE !in a
    ensures Lines(a + [NEWLINE] + b) == [a] + Lines(b)
    decreases |a|
  {
    if a == [] {
      assert a + [NEWLINE] + b == [NEWLINE] + b;
      assert ([NEWLINE] + b)[1..] == b;
    } else {
      assert (a + [NEWLINE] + b)[1..] == a[1..] + [NEWLINE] + b;
      assert NEWLINE !in a[1..] by { assert forall c :: c in a[1..] ==> c in a; }
      LinesCons(a[1..], b);
      assert [a[0]] + a[1..] == a;
    }
  }

  /** Joining lines that hold no line end and splitting again gives the lines back. */
  lemma {:induction false} JoinLinesSplit(ls: seq<string>)
    requires |ls| >= 1 && forall i :: 0 <= i < |ls| ==> NEWLINE !in ls[i]
    ensures Lines(JoinLines(ls)) == ls
    decreases |ls|
  {
    if |ls| == 1 {
      LinesPlain(ls[0]);
    } else {
      JoinLinesSplit(ls[1..]);
      LinesCons(ls[0], JoinLines(ls[1..]));
    }
  }

  /**
   * The collaborators the cluster-based writers (wrap, truncate) call:
   * `runewidth` (through `ansi.PrintableRuneWidth`), `uniseg`'s segmentation
   * and cluster width, and `ansi.Marker` / `ansi.IsTerminator`, whose
   * definitions are not part of this model. The lemmas that depend on the
   * segmentation being one ask for `IsSegmenter(seg)`.
   */
  datatype Env = Env(width: WidthFn, seg: string -> seq<string>, clusterWidth: ClusterWidthFn, marker: char, isTerm: char -> bool)

  /**
   * A downstream writer. `data` is everything it accepted; a failing sink
   * (`failing`) rejects every write, returning zero bytes and an error.
   */
  class Sink {
    var data: string
    const failing: bool

    constructor (failing: bool)
      ensures data == [] && this.failing == failing
    {
      data := [];
      this.failing := failing;
    }

    method Write(b: string) returns (n: nat, err: bool)
      modifies this
      ensures err == failing
      ensures data == if failing then old(data) else old(data) + b
      ensures n == if failing then 0 else ByteLen(b)
    {
      if failing {
        n, err := 0, true;
      } else {
        data := data + b;
        n, err := ByteLen(b), false;
      }
    }
  }
}
