/**
 * wordwrap/wordwrap.go: the soft word-wrapping writer. Words are measured
 * in terminal cells (`ansi.Buffer.PrintableRuneWidth`), and the line-end
 * runes are always honoured; with `KeepNewlines` off the input is trimmed and
 * its newlines turned into spaces before wrapping.
 */
module WordWrap {
  import opened Unicode
  import opened Text
  import opened AnsiWidth
  import opened SoftWrap

  /** The input the loop sees. */
  function Prepared(keepNewlines: bool, b: string): string {
    if keepNewlines then b else NewlinesToSpaces(TrimSpace(b))
  }

  /** What `Write(b)` does to the state: a plain copy when `Limit == 0`, the wrap loop otherwise. */
  function Written(r: Rules, keepNewlines: bool, st: State, b: string): State {
    if r.limit == 0 then st.(buf := st.buf + b) else Run(r, st, Prepared(keepNewlines, b))
  }

  /** The settings `NewWriter(limit)` installs. */
  function Defaults(width: char -> nat, limit: int): Rules {
    Rules(width, limit, ['-'], [NEWLINE])
  }

  /** `String(s, limit)`: a fresh default writer, one `Write`, then `addWord`. */
  function Wrapped(width: char -> nat, s: string, limit: int): string {
    AddWord(width, Written(Defaults(width, limit), true, Empty, s)).buf
  }

  /** `Write` never loses or reorders visible text, whatever `KeepNewlines` says. */
  lemma WrittenContent(r: Rules, keepNewlines: bool, st: State, b: string)
    requires Blank(st.space) && Blank(r.newlines) && (r.limit == 0 ==> st.word == [])
    ensures Blank(Written(r, keepNewlines, st, b).space)
    ensures Content(Written(r, keepNewlines, st, b)) == Content(st) + Visible(b)
  {
    if r.limit == 0 {
      VisibleAppend(st.buf, b);
    } else {
      RunContent(r, st, Prepared(keepNewlines, b));
    }
  }

  /** `Write` keeps the line-fitting invariant. */
  lemma WrittenInv(r: Rules, keepNewlines: bool, st: State, b: string)
    requires Inv(r, st)
    ensures Inv(r, Written(r, keepNewlines, st, b))
  {
    if r.limit != 0 {
      RunInv(r, st, Prepared(keepNewlines, b));
    }
  }

  /** With `Limit == 0`, `String` is the identity. */
  lemma WrappedUnlimited(width: char -> nat, s: string)
    ensures Wrapped(width, s, 0) == s
  {
  }

  /** `String` keeps the visible text: only whitespace is changed. */
  lemma WrappedVisible(width: char -> nat, s: string, limit: int)
    ensures Visible(Wrapped(width, s, limit)) == Visible(s)
  {
    var r := Defaults(width, limit);
    assert Visible([]) == [];
    assert Content(Empty) == [];
    WrittenContent(r, true, Empty, s);
    var st := Written(r, true, Empty, s);
    AddWordContent(width, st);
    var fin := AddWord(width, st);
    assert fin.word == [];
    calc {
      Visible(fin.buf);
      Content(fin);
      Content(st);
      Content(Empty) + Visible(s);
      Visible(s);
    }
  }

  /** `String` of plain text is the output of a replay of it. */
  lemma WrappedByTrace(width: WidthFn, limit: int, s: string, t: Trace, o: string)
    requires limit != 0 && Replays(limit, t, s, o)
    ensures Wrapped(width, s, limit) == o
  {
    ReplayRun(Defaults(width, limit), t, s, o);
  }

  /** `WordWrap`: settings (`Limit`, `Breakpoints`, `Newline`, `KeepNewlines`) and wrapping state. */
  class WordWrap {
    /** The cell width of a rune. */
    const width: WidthFn
    const limit: int
    const breakpoints: seq<char>
    const newline: seq<char>
    const keepNewlines: bool

    var buf: string
    var space: string
    var word: string
    var lineLen: nat
    var ansi: bool

    function Config(): Rules {
      Rules(width, limit, breakpoints, newline)
    }

    function Fields(): State
      reads this
    {
      State(buf, space, word, lineLen, ansi)
    }

    /** A writer with the given settings; `NewWriter(limit)` is `limit, ['-'], ['\n'], true`. */
    constructor (width: WidthFn, limit: int, breakpoints: seq<char>, newline: seq<char>, keepNewlines: bool)
      ensures Config() == Rules(width, limit, breakpoints, newline) && this.keepNewlines == keepNewlines
      ensures Fields() == Empty
    {
      this.width, this.limit, this.breakpoints, this.newline, this.keepNewlines :=
        width, limit, breakpoints, newline, keepNewlines;
      buf, space, word, lineLen, ansi := [], [], [], 0, false;
    }

    method AddSpace()
      modifies this
      ensures Fields() == SoftWrap.AddSpace(old(Fields()))
    {
      lineLen := lineLen + ByteLen(space);
      buf := buf + space;
      space := [];
    }

    method AddWord()
      modifies this
      ensures Fields() == SoftWrap.AddWord(width, old(Fields()))
    {
      if |word| > 0 {
        AddSpace();
        var w := PrintableRuneWidth(width, word);
        lineLen := lineLen + w;
        buf := buf + word;
        word := [];
      }
    }

    method AddNewLine()
      modifies this
      ensures Fields() == SoftWrap.AddNewLine(old(Fields()))
    {
      buf := buf + [NEWLINE];
      lineLen := 0;
      space := [];
    }

    /** One iteration of the `Write` loop. */
    method Consume(c: char)
      modifies this
      ensures Fields() == Step(Config(), old(Fields()), c)
    {
      if c == ESC {
        word := word + [c];
        ansi := true;
      } else if ansi {
        word := word + [c];
        if SeqTerminator(c) {
          ansi := false;
        }
      } else {
        var isNewline := InGroup(newline, c);
        if isNewline {
          if |word| == 0 {
            if lineLen + ByteLen(space) > limit {
              lineLen := 0;
            } else {
              buf := buf + space;
            }
            space := [];
          }
          AddWord();
          AddNewLine();
        } else if IsSpace(c) {
          AddWord();
          space := space + [c];
        } else {
          var isBreakpoint := InGroup(breakpoints, c);
          if isBreakpoint {
            AddSpace();
            AddWord();
            buf := buf + [c];
          } else {
            word := word + [c];
            var w := PrintableRuneWidth(width, word);
            if lineLen + ByteLen(space) + w > limit && w < limit {
              AddNewLine();
            }
          }
        }
      }
    }

    /** `Write`: always reports `len(b)` bytes and no error. */
    method Write(b: string) returns (n: nat, err: bool)
      modifies this
      ensures n == ByteLen(b) && !err
      ensures Fields() == Written(Config(), keepNewlines, old(Fields()), b)
    {
      if limit == 0 {
        buf := buf + b;
        return ByteLen(b), false;
      }
      var s := if !keepNewlines then NewlinesToSpaces(TrimSpace(b)) else b;
      ghost var st0 := Fields();
      var i := 0;
      while i < |s|
        invariant 0 <= i <= |s|
        invariant Run(Config(), st0, s) == Run(Config(), Fields(), s[i..])
      {
        assert s[i..][0] == s[i] && s[i..][1..] == s[i + 1..];
        Consume(s[i]);
        i := i + 1;
      }
      assert s[|s|..] == [];
      return ByteLen(b), false;
    }

    /** `Close`: flushes the pending word with its space; trailing space is never emitted. */
    method Close()
      modifies this
      ensures Fields() == SoftWrap.AddWord(width, old(Fields()))
    {
      AddWord();
    }
  }

  /** `String(s, limit)` (and `Bytes`): wrap with a fresh default writer. */
  method String(width: WidthFn, s: string, limit: int) returns (r: string)
    ensures r == Wrapped(width, s, limit)
  {
    var w := new WordWrap(width, limit, ['-'], [NEWLINE], true);
    var _, _ := w.Write(s);
    w.AddWord();
    r := w.buf;
  }
}
