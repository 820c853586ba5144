/**
 * indent/indent.go: a writer that indents every line. Before the first rune
 * of a line that is not part of an escape sequence (a line end included) it
 * writes `Indent` cells of fill through the `ansi.Writer` it forwards to,
 * after a `ResetAnsi` and before a `RestoreAnsi`, so the indentation itself
 * is not coloured. An empty last line gets no indentation.
 */
module Indent {
  import opened Unicode
  import opened Text
  import opened Fills
  import AnsiWriter

  /** The settings `Indent` and `IndentFunc`. */
  datatype Config = Config(indent: nat, fill: Fill)

  /** The fields `skipIndent` and `ansi`, and the state of the `Forward` writer. */
  datatype State = State(skipIndent: bool, ansi: bool, aw: AnsiWriter.State)

  /** A writer fresh from `NewWriter` over a zero `ansi.Writer`. */
  const Fresh: State := State(false, false, AnsiWriter.Initial)

  /** The state, what the `ansi.Writer`'s sink holds, and whether a write returned an error. */
  datatype Outcome = Outcome(st: State, out: string, failed: bool)

  /** `ResetAnsi`, the indentation, `RestoreAnsi`; only the write of spaces can report an error. */
  function Indentation(cfg: Config, failing: bool, aw: AnsiWriter.State, out: string): AnsiWriter.Outcome {
    var f := Filled(failing, aw, out + AnsiWriter.ResetOut(failing, aw), cfg.fill, cfg.indent);
    if f.failed then f
    else AnsiWriter.Outcome(f.st, f.out + AnsiWriter.RestoreOut(failing, f.st), false)
  }

  /** The part of one iteration before the rune is forwarded: the scanner, and at a line start the indentation. */
  function Before(cfg: Config, failing: bool, st: State, out: string, c: char): Outcome {
    if c == ESC then Outcome(st.(ansi := true), out, false)
    else if st.ansi then Outcome(if LetterTerminator(c) then st.(ansi := false) else st, out, false)
    else
      var i := if st.skipIndent then AnsiWriter.Outcome(st.aw, out, false) else Indentation(cfg, failing, st.aw, out);
      if i.failed then Outcome(st.(aw := i.st), i.out, true)
      else Outcome(st.(skipIndent := c != NEWLINE, aw := i.st), i.out, false)
  }

  /** One iteration of `Write`'s loop: `Before`, then the rune itself through the `ansi.Writer`. */
  function Step(cfg: Config, failing: bool, st: State, out: string, c: char): Outcome {
    var b := Before(cfg, failing, st, out, c);
    if b.failed then b
    else
      var r := AnsiWriter.Run(failing, b.st.aw, b.out, [c]);
      Outcome(b.st.(aw := r.st), r.out, r.failed)
  }

  /** `Write(s)`; it stops at the first failed write. */
  function Run(cfg: Config, failing: bool, st: State, out: string, s: string): Outcome
    decreases |s|
  {
    if s == [] then Outcome(st, out, false)
    else
      var o := Step(cfg, failing, st, out, s[0]);
      if o.failed then o else Run(cfg, failing, o.st, o.out, s[1..])
  }

  /** One `Write(s)` through a fresh writer over an empty buffer. */
  function Indented(cfg: Config, s: string): string {
    Run(cfg, false, Fresh, [], s).out
  }

  /** Writing `a` and then `b` is writing `a + b`, unless writing `a` already failed. */
  lemma {:induction false} RunAppend(cfg: Config, failing: bool, st: State, out: string, a: string, b: string)
    ensures var r := Run(cfg, failing, st, out, a);
      Run(cfg, failing, st, out, a + b) == if r.failed then r else Run(cfg, failing, r.st, r.out, b)
    decreases |a|
  {
    if a == [] {
      assert a + b == b;
    } else {
      assert (a + b)[0] == a[0];
      assert (a + b)[1..] == a[1..] + b;
      var o := Step(cfg, failing, st, out, a[0]);
      if !o.failed {
        RunAppend(cfg, failing, o.st, o.out, a[1..], b);
      }
    }
  }

  // The indentation.

  /**
   * Outside a sequence, on a working sink, the indentation is the reset
   * sequence if a sequence was seen since the last reset, the fill, and the
   * remembered colours again.
   */
  lemma IndentationPlain(cfg: Config, aw: AnsiWriter.State, out: string)
    requires !aw.ansi && PlainFill(cfg.fill)
    ensures Indentation(cfg, false, aw, out)
         == AnsiWriter.Outcome(aw, out + AnsiWriter.ResetOut(false, aw) + FillText(cfg.fill, cfg.indent) + aw.lastseq, false)
  {
    FilledPlain(aw, out + AnsiWriter.ResetOut(false, aw), cfg.fill, cfg.indent);
  }

  /** On a failing sink the indentation forwards nothing, and fails exactly when it writes at least one space. */
  lemma IndentationFailing(cfg: Config, aw: AnsiWriter.State, out: string)
    requires !aw.ansi
    ensures var i := Indentation(cfg, true, aw, out);
      i.out == out && (i.failed <==> cfg.fill == Spaces && cfg.indent > 0)
  {
    assert out + AnsiWriter.ResetOut(true, aw) == out;
    FilledFailing(aw, out, cfg.fill, cfg.indent);
    var f := Filled(true, aw, out, cfg.fill, cfg.indent);
    assert f.out + AnsiWriter.RestoreOut(true, f.st) == f.out;
  }

  // The scanner and the `ansi.Writer` agree.

  /** The writer's own `ansi` flag and the `ansi.Writer`'s follow the same rule, so they never disagree. */
  ghost predicate Sync(st: State) {
    st.ansi == st.aw.ansi
  }

  /** One iteration keeps the two flags together, as long as the fill is plain text. */
  lemma StepSync(cfg: Config, failing: bool, st: State, out: string, c: char)
    requires Sync(st) && PlainFill(cfg.fill)
    ensures !Step(cfg, failing, st, out, c).failed ==> Sync(Step(cfg, failing, st, out, c).st)
  {
    var b := Before(cfg, failing, st, out, c);
    if !st.ansi && c != ESC && !st.skipIndent {
      FilledKeepsAnsi(failing, st.aw, out + AnsiWriter.ResetOut(failing, st.aw), cfg.fill, cfg.indent);
    }
    if !b.failed {
      AnsiWriter.RunOne(failing, b.st.aw, b.out, c);
    }
  }

  /** `Write` keeps the two flags together. */
  lemma {:induction false} RunSync(cfg: Config, failing: bool, st: State, out: string, s: string)
    requires Sync(st) && PlainFill(cfg.fill)
    ensures !Run(cfg, failing, st, out, s).failed ==> Sync(Run(cfg, failing, st, out, s).st)
    decreases |s|
  {
    if s != [] {
      StepSync(cfg, failing, st, out, s[0]);
      var o := Step(cfg, failing, st, out, s[0]);
      if !o.failed {
        RunSync(cfg, failing, o.st, o.out, s[1..]);
      }
    }
  }

  /** `Write` only fails when the sink does. */
  lemma {:induction false} WorkingNeverFails(cfg: Config, st: State, out: string, s: string)
    ensures !Run(cfg, false, st, out, s).failed
    decreases |s|
  {
    if s != [] {
      var c := s[0];
      FilledNeverFails(st.aw, out + AnsiWriter.ResetOut(false, st.aw), cfg.fill, cfg.indent);
      var b := Before(cfg, false, st, out, c);
      AnsiWriter.WorkingNeverFails(b.st.aw, b.out, [c]);
      var o := Step(cfg, false, st, out, c);
      WorkingNeverFails(cfg, o.st, o.out, s[1..]);
    }
  }

  // Escape sequences.

  /** Inside a sequence nothing is indented: the runes go to the `ansi.Writer` and the line state stays. */
  lemma {:induction false} InSequence(cfg: Config, failing: bool, st: State, out: string, body: string)
    requires Sync(st) && st.ansi && AnsiWriter.NoLetter(body)
    ensures var r := AnsiWriter.Run(failing, st.aw, out, body);
      Run(cfg, failing, st, out, body) == Outcome(st.(aw := r.st), r.out, false) && r.st.ansi
    decreases |body|
  {
    if body != [] {
      var c := body[0];
      AnsiWriter.RunOne(failing, st.aw, out, c);
      var o := Step(cfg, failing, st, out, c);
      assert AnsiWriter.NoLetter(body[1..]) by {
        forall i | 0 <= i < |body[1..]| ensures body[1..][i] == ESC || !LetterTerminator(body[1..][i]) {
          assert body[1..][i] == body[i + 1];
        }
      }
      InSequence(cfg, failing, o.st, o.out, body[1..]);
      AnsiWriter.RunAppend(failing, st.aw, out, [c], body[1..]);
      assert [c] + body[1..] == body;
    }
  }

  /**
   * A complete colour sequence is forwarded, remembered by the `ansi.Writer`,
   * and leaves the line state as it was: a sequence at a line start does not
   * count as the start of the line.
   */
  lemma StyleRun(cfg: Config, st: State, out: string, body: string)
    requires Sync(st) && !st.ansi && st.aw.ansiseq == []
    requires AnsiWriter.NoLetter(body) && !HasSuffix([ESC] + body + ['m'], "[0m")
    ensures var q := [ESC] + body + ['m'];
      Run(cfg, false, st, out, q)
      == Outcome(st.(aw := st.aw.(seqchanged := true, lastseq := st.aw.lastseq + q)), out + q, false)
  {
    var q := [ESC] + body + ['m'];
    AnsiWriter.ColorRemembered(st.aw, out, body);
    var aw0 := AnsiWriter.Step(false, st.aw, ESC).st;
    var st0 := st.(ansi := true, aw := aw0);
    assert Run(cfg, false, st, out, [ESC]) == Outcome(st0, out, false) by {
      AnsiWriter.RunOne(false, st.aw, out, ESC);
    }
    InSequence(cfg, false, st0, out, body);
    RunAppend(cfg, false, st, out, [ESC], body);
    var r := AnsiWriter.Run(false, aw0, out, body);
    var st1 := st0.(aw := r.st);
    AnsiWriter.RunAppend(false, st.aw, out, [ESC], body);
    assert Run(cfg, false, st1, r.out, ['m']) == Outcome(st1.(ansi := false, aw := AnsiWriter.Run(false, r.st, r.out, ['m']).st), AnsiWriter.Run(false, r.st, r.out, ['m']).out, false) by {
      AnsiWriter.RunOne(false, r.st, r.out, 'm');
    }
    RunAppend(cfg, false, st, out, [ESC] + body, ['m']);
    AnsiWriter.RunAppend(false, st.aw, out, [ESC] + body, ['m']);
  }

  // Plain text.

  /** Text within an indented line is forwarded as it is. */
  lemma {:induction false} TextRun(cfg: Config, st: State, out: string, text: string)
    requires Sync(st) && !st.ansi && st.skipIndent && ESC !in text && NEWLINE !in text
    ensures Run(cfg, false, st, out, text) == Outcome(st, out + text, false)
    decreases |text|
  {
    if text != [] {
      var c := text[0];
      AnsiWriter.PlainPassesThrough(st.aw, out, [c]);
      assert ESC !in text[1..] && NEWLINE !in text[1..] by {
        assert forall x :: x in text[1..] ==> x in text;
      }
      TextRun(cfg, st, out + [c], text[1..]);
      assert out + [c] + text[1..] == out + text;
    }
  }

  /** The first rune of a line outside a sequence: the indentation, then the rune. */
  lemma LineStart(cfg: Config, st: State, out: string, c: char)
    requires Sync(st) && !st.ansi && !st.skipIndent && PlainFill(cfg.fill) && c != ESC
    ensures Step(cfg, false, st, out, c)
         == Outcome(st.(skipIndent := c != NEWLINE),
                    out + AnsiWriter.ResetOut(false, st.aw) + FillText(cfg.fill, cfg.indent) + st.aw.lastseq + [c], false)
  {
    IndentationPlain(cfg, st.aw, out);
    AnsiWriter.PlainPassesThrough(st.aw, out + AnsiWriter.ResetOut(false, st.aw) + FillText(cfg.fill, cfg.indent) + st.aw.lastseq, [c]);
  }

  /**
   * Reference definition of indented plain text: every line prefixed with
   * the indentation `pre`, except an empty last line; `skip` says the first
   * line has been indented already.
   */
  function IndentLines(pre: string, skip: bool, ls: seq<string>): seq<string>
    requires |ls| >= 1
    ensures |IndentLines(pre, skip, ls)| == |ls|
    decreases |ls|
  {
    var first := if skip || (|ls| == 1 && ls[0] == []) then ls[0] else pre + ls[0];
    [first] + (if |ls| == 1 then [] else IndentLines(pre, false, ls[1..]))
  }

  /** Whether the last line has been indented once all of `ls` is written. */
  function EndSkip(skip: bool, ls: seq<string>): bool
    requires |ls| >= 1
    decreases |ls|
  {
    if |ls| == 1 then skip || ls[0] != [] else EndSkip(false, ls[1..])
  }

  /** A plain state: outside every sequence and no colour set, so no reset or colour is written. */
  ghost predicate Plain(st: State) {
    !st.ansi && st.aw == AnsiWriter.Initial
  }

  /** What `PlainRun` states, for the lines `ls` of `s`. */
  ghost predicate PlainClaim(cfg: Config, st: State, out: string, s: string, ls: seq<string>)
    requires |ls| >= 1
  {
    Run(cfg, false, st, out, s)
    == Outcome(st.(skipIndent := EndSkip(st.skipIndent, ls)),
               out + JoinLines(IndentLines(FillText(cfg.fill, cfg.indent), st.skipIndent, ls)), false)
  }

  /** `Write` of plain text on a working sink, line by line. */
  lemma {:induction false} PlainRun(cfg: Config, st: State, out: string, s: string)
    requires Plain(st) && PlainFill(cfg.fill) && ESC !in s
    ensures PlainClaim(cfg, st, out, s, Lines(s))
    decreases |s|
  {
    if s == [] {
      assert out + [] == out;
    } else {
      var c, tail := s[0], s[1..];
      var rest := Lines(tail);
      assert ESC !in tail by { assert forall x :: x in tail ==> x in s; }
      var head := (if st.skipIndent then [] else FillText(cfg.fill, cfg.indent)) + [c];
      PlainRun(cfg, st.(skipIndent := c != NEWLINE), out + head, tail);
      if c == NEWLINE {
        assert Lines(s) == [[]] + rest;
        PlainNewline(cfg, st, out, s, rest);
      } else {
        assert Lines(s) == [[c] + rest[0]] + rest[1..];
        PlainRune(cfg, st, out, s, rest);
      }
    }
  }

  lemma PlainNewline(cfg: Config, st: State, out: string, s: string, rest: seq<string>)
    requires Plain(st) && PlainFill(cfg.fill) && s != [] && s[0] == NEWLINE && |rest| >= 1
    requires var head := (if st.skipIndent then [] else FillText(cfg.fill, cfg.indent)) + [NEWLINE];
      PlainClaim(cfg, st.(skipIndent := false), out + head, s[1..], rest)
    ensures PlainClaim(cfg, st, out, s, [[]] + rest)
  {
    var pre := FillText(cfg.fill, cfg.indent);
    var head := (if st.skipIndent then [] else pre) + [NEWLINE];
    FirstRuneRun(cfg, st, out, s);
    IndentNewline(pre, st.skipIndent, rest);
    var e := JoinLines(IndentLines(pre, false, rest));
    assert out + head + e == out + (head + e);
  }

  lemma PlainRune(cfg: Config, st: State, out: string, s: string, rest: seq<string>)
    requires Plain(st) && PlainFill(cfg.fill) && s != [] && s[0] != NEWLINE && s[0] != ESC && |rest| >= 1
    requires var head := (if st.skipIndent then [] else FillText(cfg.fill, cfg.indent)) + [s[0]];
      PlainClaim(cfg, st.(skipIndent := true), out + head, s[1..], rest)
    ensures PlainClaim(cfg, st, out, s, [[s[0]] + rest[0]] + rest[1..])
  {
    var pre := FillText(cfg.fill, cfg.indent);
    var head := (if st.skipIndent then [] else pre) + [s[0]];
    var ls := [[s[0]] + rest[0]] + rest[1..];
    var st1 := st.(skipIndent := true);
    InnerRuneRun(cfg, st, out, s);
    IndentRune(pre, st.skipIndent, s[0], rest);
    var e := JoinLines(IndentLines(pre, true, rest));
    assert JoinLines(IndentLines(pre, st.skipIndent, ls)) == head + e;
    assert st1.(skipIndent := EndSkip(true, rest)) == st.(skipIndent := EndSkip(st.skipIndent, ls));
    assert out + head + e == out + (head + e);
  }

  lemma InnerRuneRun(cfg: Config, st: State, out: string, s: string)
    requires Plain(st) && PlainFill(cfg.fill) && s != [] && s[0] != NEWLINE && s[0] != ESC
    ensures Run(cfg, false, st, out, s)
         == Run(cfg, false, st.(skipIndent := true), out + ((if st.skipIndent then [] else FillText(cfg.fill, cfg.indent)) + [s[0]]), s[1..])
  {
    FirstRuneRun(cfg, st, out, s);
  }

  lemma FirstRuneRun(cfg: Config, st: State, out: string, s: string)
    requires Plain(st) && PlainFill(cfg.fill) && s != [] && s[0] != ESC
    ensures Run(cfg, false, st, out, s)
         == Run(cfg, false, st.(skipIndent := s[0] != NEWLINE), out + ((if st.skipIndent then [] else FillText(cfg.fill, cfg.indent)) + [s[0]]), s[1..])
  {
    FirstRune(cfg, st, out, s[0]);
    assert out + (if st.skipIndent then [] else FillText(cfg.fill, cfg.indent)) + [s[0]]
        == out + ((if st.skipIndent then [] else FillText(cfg.fill, cfg.indent)) + [s[0]]);
  }

  /** One rune other than ESC from a plain state: the indentation if the line starts here, then the rune. */
  lemma FirstRune(cfg: Config, st: State, out: string, c: char)
    requires Plain(st) && PlainFill(cfg.fill) && c != ESC
    ensures Step(cfg, false, st, out, c)
         == Outcome(st.(skipIndent := c != NEWLINE), out + (if st.skipIndent then [] else FillText(cfg.fill, cfg.indent)) + [c], false)
  {
    if st.skipIndent {
      AnsiWriter.PlainPassesThrough(st.aw, out, [c]);
      assert out + [] + [c] == out + [c];
    } else {
      LineStart(cfg, st, out, c);
      assert out + AnsiWriter.ResetOut(false, st.aw) + FillText(cfg.fill, cfg.indent) + st.aw.lastseq == out + FillText(cfg.fill, cfg.indent);
    }
  }

  /** A line end closes the first line: its indentation if due, the line end, then the rest from a fresh line. */
  lemma IndentNewline(pre: string, skip: bool, rest: seq<string>)
    requires |rest| >= 1
    ensures JoinLines(IndentLines(pre, skip, [[]] + rest))
         == (if skip then [] else pre) + [NEWLINE] + JoinLines(IndentLines(pre, false, rest))
    ensures EndSkip(skip, [[]] + rest) == EndSkip(false, rest)
  {
    var ls := [[]] + rest;
    assert ls[1..] == rest;
    var il := IndentLines(pre, skip, ls);
    assert il[0] == (if skip then [] else pre) + [];
    assert il[1..] == IndentLines(pre, false, rest);
  }

  /** A rune other than a line end joins the first line. */
  lemma IndentRune(pre: string, skip: bool, c: char, rest: seq<string>)
    requires |rest| >= 1
    ensures var ls := [[c] + rest[0]] + rest[1..];
      JoinLines(IndentLines(pre, skip, ls)) == (if skip then [] else pre) + [c] + JoinLines(IndentLines(pre, true, rest))
      && EndSkip(skip, ls) == EndSkip(true, rest)
  {
    var ls := [[c] + rest[0]] + rest[1..];
    IndentRuneLines(pre, skip, c, rest);
    JoinAfterHead((if skip then [] else pre) + [c], IndentLines(pre, skip, ls), IndentLines(pre, true, rest));
    if |rest| > 1 {
      assert ls[1..] == rest[1..];
    }
  }

  /** Indenting the longer first line adds the rune after the indentation, and changes no later line. */
  lemma IndentRuneLines(pre: string, skip: bool, c: char, rest: seq<string>)
    requires |rest| >= 1
    ensures var ls := [[c] + rest[0]] + rest[1..];
      var il, ir := IndentLines(pre, skip, ls), IndentLines(pre, true, rest);
      il[0] == (if skip then [] else pre) + [c] + ir[0] && il[1..] == ir[1..]
  {
    var ls := [[c] + rest[0]] + rest[1..];
    assert ls[0] == [c] + rest[0] && ls[0] != [];
    if |rest| > 1 {
      assert ls[1..] == rest[1..];
    }
  }

  /** Lines that differ only by a prefix `h` of the first join into texts that differ by `h`. */
  lemma JoinAfterHead(h: string, il: seq<string>, ir: seq<string>)
    requires |il| == |ir| >= 1 && il[0] == h + ir[0] && il[1..] == ir[1..]
    ensures JoinLines(il) == h + JoinLines(ir)
  {
    if |il| > 1 {
      var t := JoinLines(il[1..]);
      assert JoinLines(il) == (h + ir[0]) + [NEWLINE] + t;
      assert JoinLines(ir) == ir[0] + [NEWLINE] + t;
    }
  }


  /**
   * One `Write` of plain text: every line is prefixed with the indentation,
   * except an empty last line; reading the result back line by line gives
   * those lines.
   */
  lemma IndentedPlain(cfg: Config, s: string)
    requires ESC !in s && PlainFill(cfg.fill) && NEWLINE !in FillText(cfg.fill, cfg.indent)
    ensures Indented(cfg, s) == JoinLines(IndentLines(FillText(cfg.fill, cfg.indent), false, Lines(s)))
    ensures Lines(Indented(cfg, s)) == IndentLines(FillText(cfg.fill, cfg.indent), false, Lines(s))
  {
    PlainRun(cfg, Fresh, [], s);
    var pre := FillText(cfg.fill, cfg.indent);
    var il := IndentLines(pre, false, Lines(s));
    assert [] + JoinLines(il) == JoinLines(il);
    LinesJoin(s);
    IndentLinesPlain(pre, false, Lines(s));
    JoinLinesSplit(il);
  }

  lemma {:induction false} IndentLinesPlain(pre: string, skip: bool, ls: seq<string>)
    requires |ls| >= 1 && NEWLINE !in pre && forall i :: 0 <= i < |ls| ==> NEWLINE !in ls[i]
    ensures forall i :: 0 <= i < |ls| ==> NEWLINE !in IndentLines(pre, skip, ls)[i]
    decreases |ls|
  {
    var il := IndentLines(pre, skip, ls);
    assert NEWLINE !in il[0] by {
      assert NEWLINE !in ls[0];
    }
    if |ls| > 1 {
      IndentLinesPlain(pre, false, ls[1..]);
      forall i | 1 <= i < |ls| ensures NEWLINE !in il[i] {
        assert il[i] == IndentLines(pre, false, ls[1..])[i - 1];
        assert ls[1..][i - 1] == ls[i];
      }
    }
  }

  /** Without indentation, plain text passes through unchanged. */
  lemma Unindented(fill: Fill, s: string)
    requires ESC !in s && PlainFill(fill)
    ensures Indented(Config(0, fill), s) == s
  {
    var cfg := Config(0, fill);
    assert FillText(fill, 0) == [];
    IndentedPlain(cfg, s);
    NoPrefix(false, Lines(s));
    LinesJoin(s);
  }

  lemma {:induction false} NoPrefix(skip: bool, ls: seq<string>)
    requires |ls| >= 1
    ensures IndentLines([], skip, ls) == ls
    decreases |ls|
  {
    assert [] + ls[0] == ls[0];
    if |ls| > 1 {
      NoPrefix(false, ls[1..]);
    }
  }

  // Failures.

  /** On a failing sink, a line start fails when there are spaces to write, and nothing is forwarded. */
  lemma FailsOnIndentation(cfg: Config, st: State, out: string, s: string)
    requires Sync(st) && !st.ansi && !st.skipIndent && s != [] && s[0] != ESC
    requires cfg.fill == Spaces && cfg.indent > 0
    ensures Run(cfg, true, st, out, s) == Outcome(st, out, true)
  {
    IndentationFailing(cfg, st.aw, out);
    assert Filled(true, st.aw, out + AnsiWriter.ResetOut(true, st.aw), cfg.fill, cfg.indent).st == st.aw by {
      AnsiWriter.FailsOnPrintable(st.aw, out, Repeat(' ', cfg.indent));
    }
  }

  /** On a failing sink, any rune outside a sequence fails, indentation or not, and nothing is forwarded. */
  lemma FailsOnRune(cfg: Config, st: State, out: string, s: string)
    requires Sync(st) && !st.ansi && PlainFill(cfg.fill) && s != [] && s[0] != ESC
    ensures Run(cfg, true, st, out, s).failed && Run(cfg, true, st, out, s).out == out
  {
    var i := if st.skipIndent then AnsiWriter.Outcome(st.aw, out, false) else Indentation(cfg, true, st.aw, out);
    if !st.skipIndent {
      IndentationFailing(cfg, st.aw, out);
      assert out + AnsiWriter.ResetOut(true, st.aw) == out;
      FilledKeepsAnsi(true, st.aw, out, cfg.fill, cfg.indent);
    }
    if !i.failed {
      AnsiWriter.FailsOnPrintable(i.st, i.out, [s[0]]);
    }
  }

  /** `Writer`: `Forward` is the `ansi.Writer` the indented text goes to. */
  class Writer {
    const forward: AnsiWriter.Writer
    const indent: nat
    const fill: Fill
    var skipIndent: bool
    var ansi: bool

    function Settings(): Config {
      Config(indent, fill)
    }

    function Fields(): State
      reads this, forward
    {
      State(skipIndent, ansi, forward.Fields())
    }

    /** `NewWriter(w, indent, indentFunc)`. */
    constructor NewWriter(w: AnsiWriter.Writer, indent: nat, fill: Fill)
      ensures Settings() == Config(indent, fill) && forward == w
      ensures !skipIndent && !ansi
    {
      forward, this.indent, this.fill := w, indent, fill;
      skipIndent, ansi := false, false;
    }

    /** `Write`: returns `len(b)` bytes, or zero and the error of the first failed write. */
    method Write(b: string) returns (n: nat, err: bool)
      modifies this, forward, forward.forward
      ensures var r := Run(Settings(), forward.forward.failing, old(Fields()), old(forward.forward.data), b);
        Fields() == r.st && forward.forward.data == r.out && err == r.failed
        && n == if r.failed then 0 else ByteLen(b)
    {
      ghost var st0, out0 := Fields(), forward.forward.data;
      var i := 0;
      while i < |b|
        invariant 0 <= i <= |b|
        invariant Run(Settings(), forward.forward.failing, st0, out0, b)
               == Run(Settings(), forward.forward.failing, Fields(), forward.forward.data, b[i..])
      {
        assert b[i..][0] == b[i] && b[i..][1..] == b[i + 1..];
        var failed := Consume(b[i]);
        if failed {
          return 0, true;
        }
        i := i + 1;
      }
      return ByteLen(b), false;
    }

    /** One iteration of `Write`'s loop. */
    method Consume(c: char) returns (failed: bool)
      modifies this, forward, forward.forward
      ensures var o := Step(Settings(), forward.forward.failing, old(Fields()), old(forward.forward.data), c);
        Fields() == o.st && forward.forward.data == o.out && failed == o.failed
    {
      if c == ESC {
        ansi := true;
      } else if ansi {
        if LetterTerminator(c) {
          ansi := false;
        }
      } else {
        if !skipIndent {
          var err := WriteIndentation();
          if err {
            return true;
          }
          skipIndent := true;
        }
        if c == NEWLINE {
          skipIndent := false;
        }
      }
      var _, err := forward.Write([c]);
      return err;
    }

    /** `ResetAnsi`, `Indent` cells of fill, `RestoreAnsi`. */
    method WriteIndentation() returns (err: bool)
      modifies forward, forward.forward
      ensures var i := Indentation(Settings(), forward.forward.failing, old(forward.Fields()), old(forward.forward.data));
        forward.Fields() == i.st && forward.forward.data == i.out && err == i.failed
    {
      forward.ResetAnsi();
      match fill {
        case Spaces =>
          var _, e := forward.Write(Repeat(' ', indent));
          if e {
            return true;
          }
        case Unit(u) =>
          ghost var aw0, out0 := forward.Fields(), forward.forward.data;
          var i := 0;
          while i < indent
            invariant 0 <= i <= indent
            invariant Units(forward.forward.failing, aw0, out0, u, indent)
                   == Units(forward.forward.failing, forward.Fields(), forward.forward.data, u, indent - i)
          {
            var _, _ := forward.Write(u);
            i := i + 1;
          }
      }
      forward.RestoreAnsi();
      return false;
    }
  }
}
