/**
 * reflow.go: the older soft word-wrapping writer. It runs the same loop as
 * wordwrap, but measures a word by its printable rune count
 * (`ANSIBuffer.PrintableRuneCount`), treats the line-end runes as line ends
 * only when `KeepNewlines` is set (otherwise they are ordinary whitespace),
 * and never trims its input.
 */
module Reflow {
  import opened Unicode
  import opened Text
  import opened AnsiWidth
  import opened SoftWrap

  /** The loop settings: one column per printable rune; line ends only when kept. */
  function ReflowRules(limit: int, breakpoints: seq<char>, newline: seq<char>, keepNewlines: bool): Rules {
    Rules(UnitWidth, limit, breakpoints, if keepNewlines then newline else [])
  }

  /** The settings `NewReflow(limit)` installs. */
  function Defaults(limit: int): Rules {
    ReflowRules(limit, ['-'], [NEWLINE], true)
  }

  /** What `Write(b)` does to the state: a plain copy when `Limit == 0`, the loop otherwise. */
  function Written(r: Rules, st: State, b: string): State {
    if r.limit == 0 then st.(buf := st.buf + b) else Run(r, st, b)
  }

  /** `String(s, limit)`: a fresh default writer, one `Write`, then `Close`. */
  function Reflowed(s: string, limit: int): string {
    AddWord(UnitWidth, Written(Defaults(limit), Empty, s)).buf
  }

  /** The break test and `lineLen` use the printable rune count. */
  lemma CountIsWidth(s: string)
    ensures PrintableWidth(UnitWidth, s) == PrintableCount(s)
    ensures PrintableCount(s) <= |s|
    ensures ESC !in s ==> PrintableCount(s) == |s|
  {
    CountProperties(s);
  }

  /** With `Limit == 0`, `Write` appends its input unchanged. */
  lemma WrittenUnlimited(r: Rules, st: State, b: string)
    requires r.limit == 0
    ensures Written(r, st, b).buf == st.buf + b
    ensures Written(r, st, b).word == st.word && Written(r, st, b).space == st.space
  {
  }

  /** `Write` never loses or reorders visible text. */
  lemma WrittenContent(r: Rules, st: State, b: string)
    requires Blank(st.space) && Blank(r.newlines) && (r.limit == 0 ==> st.word == [])
    ensures Blank(Written(r, st, b).space)
    ensures Content(Written(r, st, b)) == Content(st) + Visible(b)
  {
    if r.limit == 0 {
      VisibleAppend(st.buf, b);
    } else {
      RunContent(r, st, b);
    }
  }

  /** `Write` keeps the line-fitting invariant, counted in printable runes. */
  lemma WrittenInv(r: Rules, st: State, b: string)
    requires Inv(r, st)
    ensures Inv(r, Written(r, st, b))
  {
    if r.limit != 0 {
      RunInv(r, st, b);
    }
  }

  /** With `Limit == 0`, `String` is the identity. */
  lemma ReflowedUnlimited(s: string)
    ensures Reflowed(s, 0) == s
  {
  }

  /** `String` keeps the visible text: only whitespace is changed. */
  lemma ReflowedVisible(s: string, limit: int)
    ensures Visible(Reflowed(s, limit)) == Visible(s)
  {
    var r := Defaults(limit);
    assert Visible([]) == [];
    assert Content(Empty) == [];
    assert Blank(r.newlines);
    WrittenContent(r, Empty, s);
    var st := Written(r, Empty, s);
    AddWordContent(UnitWidth, st);
    var fin := AddWord(UnitWidth, st);
    calc {
      Visible(fin.buf);
      Content(fin);
      Content(st);
      Content(Empty) + Visible(s);
      Visible(s);
    }
  }

  /** `String` of plain text is the output of a replay of it. */
  lemma ReflowedByTrace(limit: int, s: string, t: Trace, o: string)
    requires limit != 0 && Replays(limit, t, s, o)
    ensures Reflowed(s, limit) == o
  {
    ReplayRun(Defaults(limit), t, s, o);
  }

  /**
   * Without `KeepNewlines`, a line-end rune is ordinary whitespace: it ends
   * the pending word and becomes pending space.
   */
  lemma NewlineIsSpaceUnlessKept(limit: int, breakpoints: seq<char>, newline: seq<char>, st: State, c: char)
    requires c != ESC && !st.ansi && IsSpace(c)
    ensures var r := ReflowRules(limit, breakpoints, newline, false);
      Step(r, st, c) == AddWord(UnitWidth, st).(space := AddWord(UnitWidth, st).space + [c])
  {
  }

  /** `Reflow`: settings (`Limit`, `Breakpoints`, `Newline`, `KeepNewlines`) and state. */
  class Reflow {
    const limit: int
    const breakpoints: seq<char>
    const newline: seq<char>
    const keepNewlines: bool

    var buf: string
    var space: string
    /** The pending word, an `ANSIBuffer`. */
    var word: string
    var lineLen: nat
    var ansi: bool

    function Config(): Rules {
      ReflowRules(limit, breakpoints, newline, keepNewlines)
    }

    function Fields(): State
      reads this
    {
      State(buf, space, word, lineLen, ansi)
    }

    /** A writer with the given settings; `NewReflow(limit)` is `limit, ['-'], ['\n'], true`. */
    constructor (limit: int, breakpoints: seq<char>, newline: seq<char>, keepNewlines: bool)
      ensures Config() == ReflowRules(limit, breakpoints, newline, keepNewlines)
      ensures Fields() == Empty
    {
      this.limit, this.breakpoints, this.newline, this.keepNewlines := limit, breakpoints, newline, keepNewlines;
      buf, space, word, lineLen, ansi := [], [], [], 0, false;
    }

    method AddSpace()
      modifies this
      ensures Fields() == SoftWrap.AddSpace(old(Fields()))
    {
      lineLen := lineLen + ByteLen(space);
      buf := buf + space;
      space := [];
    }

    method AddWord()
      modifies this
      ensures Fields() == SoftWrap.AddWord(UnitWidth, old(Fields()))
    {
      if |word| > 0 {
        AddSpace();
        var n := PrintableRuneCount(word);
        lineLen := lineLen + n;
        buf := buf + word;
        word := [];
      }
    }

    method AddNewLine()
      modifies this
      ensures Fields() == SoftWrap.AddNewLine(old(Fields()))
    {
      buf := buf + [NEWLINE];
      lineLen := 0;
      space := [];
    }

    /** One iteration of the `Write` loop. */
    method Consume(c: char)
      modifies this
      ensures Fields() == Step(Config(), old(Fields()), c)
    {
      var isNewline := false;
      if keepNewlines {
        isNewline := InGroup(newline, c);
      }
      if c == ESC {
        word := word + [c];
        ansi := true;
      } else if ansi {
        word := word + [c];
        if SeqTerminator(c) {
          ansi := false;
        }
      } else if isNewline {
        if |word| == 0 {
          if lineLen + ByteLen(space) > limit {
            lineLen := 0;
          } else {
            buf := buf + space;
          }
          space := [];
        }
        AddWord();
        AddNewLine();
      } else if IsSpace(c) {
        AddWord();
        space := space + [c];
      } else {
        var isBreakpoint := InGroup(breakpoints, c);
        if isBreakpoint {
          AddSpace();
          AddWord();
          buf := buf + [c];
        } else {
          word := word + [c];
          var n := PrintableRuneCount(word);
          if lineLen + ByteLen(space) + n > limit && n < limit {
            AddNewLine();
          }
        }
      }
    }

    /** `Write`: always reports `len(b)` bytes and no error. */
    method Write(b: string) returns (n: nat, err: bool)
      modifies this
      ensures n == ByteLen(b) && !err
      ensures Fields() == Written(Config(), old(Fields()), b)
    {
      if limit == 0 {
        buf := buf + b;
        return ByteLen(b), false;
      }
      ghost var st0 := Fields();
      var i := 0;
      while i < |b|
        invariant 0 <= i <= |b|
        invariant Run(Config(), st0, b) == Run(Config(), Fields(), b[i..])
      {
        assert b[i..][0] == b[i] && b[i..][1..] == b[i + 1..];
        Consume(b[i]);
        i := i + 1;
      }
      assert b[|b|..] == [];
      return ByteLen(b), false;
    }

    /** `Close`: flushes the pending word with its space; trailing space is never emitted. */
    method Close()
      modifies this
      ensures Fields() == SoftWrap.AddWord(UnitWidth, old(Fields()))
    {
      AddWord();
    }
  }

  /** `String(s, limit)` (and `Bytes`): reflow with a fresh default writer. */
  method String(s: string, limit: int) returns (r: string)
    ensures r == Reflowed(s, limit)
  {
    var f := new Reflow(limit, ['-'], [NEWLINE], true);
    var _, _ := f.Write(s);
    f.Close();
    r := f.buf;
  }
}
