/**
 * padding/padding.go: a writer that pads every line to a minimum cell width.
 * It counts the cell width of the runes outside escape sequences; at each
 * line end, and on `Close` for a last line that is not empty, it fills the
 * line up to `Padding` cells. Everything, fill included, goes through an
 * `ansi.Writer` (the `AnsiWriter` module), which resets the colours at each
 * line end.
 *
 * `PadFunc` is modelled by a fixed fill unit: either no function (the gap
 * is written as spaces in one write, whose error counts) or a function that
 * writes the same string on each call, ignoring errors.
 */
module Padding {
  import opened Unicode
  import opened Text
  import opened AnsiWidth
  import AnsiWriter
  import opened Fills

  /** The settings: `runewidth`'s cell width, `Padding` and `PadFunc`. */
  datatype Config = Config(width: WidthFn, padding: nat, fill: Fill)

  /** The fields `lineLen` and `ansi`, and the `ansi.Writer`'s state. */
  datatype State = State(lineLen: nat, ansi: bool, aw: AnsiWriter.State)

  /** A writer fresh from `NewWriter` or `NewWriterPipe`. */
  const Fresh: State := State(0, false, AnsiWriter.Initial)

  /** The state, what the forward writer holds, and whether a write returned an error. */
  datatype Outcome = Outcome(st: State, out: string, failed: bool)

  /** How many fill units `pad` writes: the gap up to `Padding`, if there is one. */
  function Gap(padding: nat, lineLen: nat): (n: nat)
    ensures n > 0 <==> padding > 0 && lineLen < padding
    ensures n > 0 ==> lineLen + n == padding
  {
    if padding > 0 && lineLen < padding then padding - lineLen else 0
  }

  /** `pad`: writes the gap through the `ansi.Writer`; only the write of spaces can report an error. */
  function PadOut(cfg: Config, failing: bool, lineLen: nat, aw: AnsiWriter.State, out: string): AnsiWriter.Outcome {
    var n := Gap(cfg.padding, lineLen);
    if n == 0 then AnsiWriter.Outcome(aw, out, false) else Filled(failing, aw, out, cfg.fill, n)
  }

  /** The part of one iteration before the rune is forwarded: the scanner, and at a line end the padding. */
  function Before(cfg: Config, failing: bool, st: State, out: string, c: char): Outcome {
    if c == ESC then Outcome(st.(ansi := true), out, false)
    else if st.ansi then Outcome(if LetterTerminator(c) then st.(ansi := false) else st, out, false)
    else
      var len := st.lineLen + cfg.width(c);
      if c != NEWLINE then Outcome(st.(lineLen := len), out, false)
      else
        var p := PadOut(cfg, failing, len, st.aw, out);
        if p.failed then Outcome(st.(lineLen := len, aw := p.st), p.out, true)
        else Outcome(st.(lineLen := 0, aw := p.st), p.out + AnsiWriter.ResetOut(failing, p.st), false)
  }

  /** One iteration of `Write`'s loop: `Before`, then the rune itself through the `ansi.Writer`. */
  function Step(cfg: Config, failing: bool, st: State, out: string, c: char): Outcome {
    var b := Before(cfg, failing, st, out, c);
    if b.failed then b
    else
      var r := AnsiWriter.Run(failing, b.st.aw, b.out, [c]);
      Outcome(b.st.(aw := r.st), r.out, r.failed)
  }

  /** `Write(s)`; it stops at the first failed write. */
  function Run(cfg: Config, failing: bool, st: State, out: string, s: string): Outcome
    decreases |s|
  {
    if s == [] then Outcome(st, out, false)
    else
      var o := Step(cfg, failing, st, out, s[0]);
      if o.failed then o else Run(cfg, failing, o.st, o.out, s[1..])
  }

  /** `Close`: pads the last line unless it is empty. */
  function Closed(cfg: Config, failing: bool, st: State, out: string): Outcome {
    if st.lineLen == 0 then Outcome(st, out, false)
    else
      var p := PadOut(cfg, failing, st.lineLen, st.aw, out);
      Outcome(st.(aw := p.st), p.out, p.failed)
  }

  /** `String(s, width)` (and `Bytes`): a fresh writer over an empty buffer, one `Write`, then `Close`. */
  function Padded(width: WidthFn, padding: nat, s: string): string {
    var cfg := Config(width, padding, Spaces);
    var r := Run(cfg, false, Fresh, [], s);
    Closed(cfg, false, r.st, r.out).out
  }

  // Properties of `pad`.

  /** Spaces are written in one write: the gap, or nothing. */
  lemma PadSpaces(cfg: Config, lineLen: nat, aw: AnsiWriter.State, out: string)
    requires cfg.fill == Spaces && !aw.ansi
    ensures PadOut(cfg, false, lineLen, aw, out) == AnsiWriter.Outcome(aw, out + Repeat(' ', Gap(cfg.padding, lineLen)), false)
  {
    var n := Gap(cfg.padding, lineLen);
    if n > 0 {
      FilledPlain(aw, out, Spaces, n);
    } else {
      assert out + Repeat(' ', 0) == out;
    }
  }

  /** `pad` writes nothing when there is no gap, whatever the fill. */
  lemma NoGap(cfg: Config, failing: bool, lineLen: nat, aw: AnsiWriter.State, out: string)
    requires cfg.padding == 0 || lineLen >= cfg.padding
    ensures PadOut(cfg, failing, lineLen, aw, out) == AnsiWriter.Outcome(aw, out, false)
  {
  }

  /** On a failing sink `pad` forwards nothing, and fails exactly when it writes spaces. */
  lemma PadFailing(cfg: Config, lineLen: nat, aw: AnsiWriter.State, out: string)
    requires !aw.ansi && Gap(cfg.padding, lineLen) > 0
    ensures var p := PadOut(cfg, true, lineLen, aw, out);
      p.out == out && (p.failed <==> cfg.fill == Spaces)
  {
    FilledFailing(aw, out, cfg.fill, Gap(cfg.padding, lineLen));
  }

  // The scanner and the `ansi.Writer` agree.

  /**
   * The writer's own `ansi` flag and the `ansi.Writer`'s follow the same
   * rule (ESC opens, a letter in `0x41-0x5A | 0x61-0x7A` closes), so they
   * never disagree.
   */
  ghost predicate Sync(st: State) {
    st.ansi == st.aw.ansi
  }

  lemma PadKeepsAnsi(cfg: Config, failing: bool, lineLen: nat, aw: AnsiWriter.State, out: string)
    requires !aw.ansi && PlainFill(cfg.fill)
    ensures !PadOut(cfg, failing, lineLen, aw, out).st.ansi
  {
    var n := Gap(cfg.padding, lineLen);
    if n > 0 {
      FilledKeepsAnsi(failing, aw, out, cfg.fill, n);
    }
  }

  /** One iteration keeps the two flags together, as long as the fill is plain text. */
  lemma StepSync(cfg: Config, failing: bool, st: State, out: string, c: char)
    requires Sync(st) && PlainFill(cfg.fill)
    ensures var o := Step(cfg, failing, st, out, c);
      !o.failed ==> Sync(o.st)
  {
    var b := Before(cfg, failing, st, out, c);
    if !st.ansi && c != ESC && c == NEWLINE {
      PadKeepsAnsi(cfg, failing, st.lineLen + cfg.width(c), st.aw, out);
    }
    if !b.failed {
      AnsiWriter.RunOne(failing, b.st.aw, b.out, c);
    }
  }

  // Where padding is written.

  /**
   * Within a line the writer is transparent: on a chunk without line ends it
   * forwards exactly what the `ansi.Writer` forwards for the chunk, and
   * `lineLen` grows by the printable width of the chunk, measured with the
   * letter terminators.
   */
  lemma {:induction false} WithinLine(cfg: Config, failing: bool, st: State, out: string, s: string)
    requires Sync(st) && NEWLINE !in s
    ensures var o := Run(cfg, failing, st, out, s);
      var r := AnsiWriter.Run(failing, st.aw, out, s);
      var sc := ScanFrom(LetterTerminator, cfg.width, Scan(st.lineLen, st.ansi), s);
      o.out == r.out && o.failed == r.failed && o.st.aw == r.st
      && (!o.failed ==> o.st.lineLen == sc.n && o.st.ansi == sc.ansi)
    decreases |s|
  {
    if s != [] {
      var c := s[0];
      StepWithinLine(cfg, failing, st, out, c);
      var o := Step(cfg, failing, st, out, c);
      if !o.failed {
        assert NEWLINE !in s[1..] by { assert forall x :: x in s[1..] ==> x in s; }
        WithinLine(cfg, failing, o.st, o.out, s[1..]);
      }
    }
  }

  /** One rune other than a line end: the `ansi.Writer`'s step, and the scanner's. */
  lemma StepWithinLine(cfg: Config, failing: bool, st: State, out: string, c: char)
    requires Sync(st) && c != NEWLINE
    ensures var o := Step(cfg, failing, st, out, c);
      var e := AnsiWriter.Step(failing, st.aw, c);
      var sc := Acc(LetterTerminator, cfg.width, Scan(st.lineLen, st.ansi), c);
      o.failed == e.err && o.st.aw == e.st && o.out == (if e.err then out else out + e.emit)
      && o.st.lineLen == sc.n && o.st.ansi == sc.ansi && Sync(o.st)
  {
    AnsiWriter.RunOne(failing, st.aw, out, c);
  }

  /** At a line end outside a sequence: the gap, the colour reset if needed, then the line end. */
  lemma LineEnd(cfg: Config, st: State, out: string)
    requires Sync(st) && !st.ansi && cfg.fill == Spaces
    ensures var gap := Repeat(' ', Gap(cfg.padding, st.lineLen));
      Step(cfg, false, st, out, NEWLINE)
      == Outcome(State(0, false, st.aw), out + gap + AnsiWriter.ResetOut(false, st.aw) + [NEWLINE], false)
  {
    assert cfg.width(NEWLINE) == 0;
    PadSpaces(cfg, st.lineLen, st.aw, out);
    AnsiWriter.PlainPassesThrough(st.aw, out + Repeat(' ', Gap(cfg.padding, st.lineLen)) + AnsiWriter.ResetOut(false, st.aw), [NEWLINE]);
  }

  /** `Close` pads a last line that is not empty, and writes nothing after an empty one. */
  lemma CloseRule(cfg: Config, st: State, out: string)
    requires Sync(st) && !st.ansi && cfg.fill == Spaces
    ensures Closed(cfg, false, st, out).out == out + (if st.lineLen == 0 then [] else Repeat(' ', Gap(cfg.padding, st.lineLen)))
  {
    if st.lineLen != 0 {
      PadSpaces(cfg, st.lineLen, st.aw, out);
    }
  }

  /** Writing `a` and then `b` is writing `a + b`, unless writing `a` already failed. */
  lemma {:induction false} RunAppend(cfg: Config, failing: bool, st: State, out: string, a: string, b: string)
    ensures var r := Run(cfg, failing, st, out, a);
      Run(cfg, failing, st, out, a + b) == if r.failed then r else Run(cfg, failing, r.st, r.out, b)
    decreases |a|
  {
    if a == [] {
      assert a + b == b;
    } else {
      assert (a + b)[0] == a[0];
      assert (a + b)[1..] == a[1..] + b;
      var o := Step(cfg, failing, st, out, a[0]);
      if !o.failed {
        RunAppend(cfg, failing, o.st, o.out, a[1..], b);
      }
    }
  }

  // Plain text, line by line.

  /** A line filled with spaces up to `padding` cells. */
  function PadLine(width: WidthFn, padding: nat, line: string): string {
    line + Repeat(' ', Gap(padding, SumWidth(width, line)))
  }

  /**
   * Reference definition of padded plain text: every line is padded and
   * followed by its line end, except the last, which is padded only when it
   * is not empty.
   */
  function PaddedLines(width: WidthFn, padding: nat, ls: seq<string>): string
    requires |ls| >= 1
    decreases |ls|
  {
    if |ls| == 1 then
      (if SumWidth(width, ls[0]) == 0 then ls[0] else PadLine(width, padding, ls[0]))
    else PadLine(width, padding, ls[0]) + [NEWLINE] + PaddedLines(width, padding, ls[1..])
  }

  /** What `Write` emits for plain lines when the first line already holds `len0` cells. */
  function Emitted(width: WidthFn, padding: nat, len0: nat, ls: seq<string>): string
    requires |ls| >= 1
    decreases |ls|
  {
    if |ls| == 1 then ls[0]
    else ls[0] + Repeat(' ', Gap(padding, len0 + SumWidth(width, ls[0]))) + [NEWLINE] + Emitted(width, padding, 0, ls[1..])
  }

  /** The cell count of the last line, where `Write` leaves `lineLen`. */
  function EndLen(width: WidthFn, len0: nat, ls: seq<string>): nat
    requires |ls| >= 1
    decreases |ls|
  {
    if |ls| == 1 then len0 + SumWidth(width, ls[0]) else EndLen(width, 0, ls[1..])
  }

  /** A plain state: outside every sequence and no colour set, so no reset is ever written. */
  ghost predicate Plain(st: State) {
    !st.ansi && st.aw == AnsiWriter.Initial
  }

  /** `Write` of plain text on a working sink, line by line. */
  lemma {:induction false} PlainRun(cfg: Config, st: State, out: string, s: string)
    requires Plain(st) && cfg.fill == Spaces && ESC !in s
    ensures PlainClaim(cfg, st, out, s, Lines(s))
    decreases |s|
  {
    if s == [] {
      assert out + [] == out;
    } else {
      var c, tail := s[0], s[1..];
      var rest := Lines(tail);
      assert ESC !in tail by { assert forall x :: x in tail ==> x in s; }
      if c == NEWLINE {
        PlainRun(cfg, State(0, false, st.aw), out + Repeat(' ', Gap(cfg.padding, st.lineLen)) + [NEWLINE], tail);
        PlainNewline(cfg, st, out, s, rest);
      } else {
        PlainRun(cfg, st.(lineLen := st.lineLen + cfg.width(c)), out + [c], tail);
        PlainRune(cfg, st, out, s, rest);
      }
    }
  }

  /** What `PlainRun` states, for the lines `ls` of `s`. */
  ghost predicate PlainClaim(cfg: Config, st: State, out: string, s: string, ls: seq<string>)
    requires |ls| >= 1
  {
    Run(cfg, false, st, out, s)
    == Outcome(State(EndLen(cfg.width, st.lineLen, ls), false, st.aw),
               out + Emitted(cfg.width, cfg.padding, st.lineLen, ls), false)
  }

  lemma PlainNewline(cfg: Config, st: State, out: string, s: string, rest: seq<string>)
    requires Plain(st) && cfg.fill == Spaces && s != [] && s[0] == NEWLINE && |rest| >= 1
    requires PlainClaim(cfg, State(0, false, st.aw), out + Repeat(' ', Gap(cfg.padding, st.lineLen)) + [NEWLINE], s[1..], rest)
    ensures PlainClaim(cfg, st, out, s, [[]] + rest)
  {
    var w, padding := cfg.width, cfg.padding;
    var head := Repeat(' ', Gap(padding, st.lineLen)) + [NEWLINE];
    NewlineStep(cfg, st, out, s);
    var e := Emitted(w, padding, 0, rest);
    EmittedNewline(w, padding, st.lineLen, rest);
    assert out + head + e == out + (head + e);
  }

  lemma PlainRune(cfg: Config, st: State, out: string, s: string, rest: seq<string>)
    requires Plain(st) && cfg.fill == Spaces && s != [] && s[0] != NEWLINE && s[0] != ESC && |rest| >= 1
    requires PlainClaim(cfg, st.(lineLen := st.lineLen + cfg.width(s[0])), out + [s[0]], s[1..], rest)
    ensures PlainClaim(cfg, st, out, s, [[s[0]] + rest[0]] + rest[1..])
  {
    var w, padding, c := cfg.width, cfg.padding, s[0];
    var st1 := st.(lineLen := st.lineLen + w(c));
    RuneStep(cfg, st, out, s);
    var e := Emitted(w, padding, st1.lineLen, rest);
    EmittedRune(w, padding, st.lineLen, c, rest);
    assert out + [c] + e == out + ([c] + e);
  }

  lemma NewlineStep(cfg: Config, st: State, out: string, s: string)
    requires Plain(st) && cfg.fill == Spaces && s != [] && s[0] == NEWLINE
    ensures Run(cfg, false, st, out, s)
         == Run(cfg, false, State(0, false, st.aw), out + Repeat(' ', Gap(cfg.padding, st.lineLen)) + [NEWLINE], s[1..])
  {
    var gap := Repeat(' ', Gap(cfg.padding, st.lineLen));
    LineEnd(cfg, st, out);
    assert AnsiWriter.ResetOut(false, st.aw) == [];
    assert out + gap + AnsiWriter.ResetOut(false, st.aw) + [NEWLINE] == out + gap + [NEWLINE];
    assert Step(cfg, false, st, out, s[0]) == Outcome(State(0, false, st.aw), out + gap + [NEWLINE], false);
  }

  lemma RuneStep(cfg: Config, st: State, out: string, s: string)
    requires Plain(st) && s != [] && s[0] != NEWLINE && s[0] != ESC
    ensures Run(cfg, false, st, out, s) == Run(cfg, false, st.(lineLen := st.lineLen + cfg.width(s[0])), out + [s[0]], s[1..])
  {
    AnsiWriter.PlainPassesThrough(st.aw, out, [s[0]]);
  }

  /** A line end starts a new line: the gap of the empty line, the line end, then the rest from zero cells. */
  lemma EmittedNewline(w: WidthFn, padding: nat, len0: nat, rest: seq<string>)
    requires |rest| >= 1
    ensures Emitted(w, padding, len0, [[]] + rest) == Repeat(' ', Gap(padding, len0)) + [NEWLINE] + Emitted(w, padding, 0, rest)
    ensures EndLen(w, len0, [[]] + rest) == EndLen(w, 0, rest)
  {
    var ls := [[]] + rest;
    assert ls[1..] == rest;
    assert SumWidth(w, ls[0]) == 0;
  }

  /** A rune other than a line end joins the current line and counts its cells. */
  lemma EmittedRune(w: WidthFn, padding: nat, len0: nat, c: char, rest: seq<string>)
    requires |rest| >= 1
    ensures var ls := [[c] + rest[0]] + rest[1..];
      Emitted(w, padding, len0, ls) == [c] + Emitted(w, padding, len0 + w(c), rest)
      && EndLen(w, len0, ls) == EndLen(w, len0 + w(c), rest)
  {
    var ls := [[c] + rest[0]] + rest[1..];
    assert ls[0] == [c] + rest[0];
    assert SumWidth(w, ls[0]) == w(c) + SumWidth(w, rest[0]) by {
      assert ls[0][0] == c && ls[0][1..] == rest[0];
    }
    if |rest| > 1 {
      assert ls[1..] == rest[1..];
      var tail := Repeat(' ', Gap(padding, len0 + w(c) + SumWidth(w, rest[0]))) + [NEWLINE] + Emitted(w, padding, 0, rest[1..]);
      assert Emitted(w, padding, len0, ls) == ([c] + rest[0]) + tail;
      assert Emitted(w, padding, len0 + w(c), rest) == rest[0] + tail;
    }
  }


  /** From a fresh line, what `Write` emits and `Close` adds make up the reference. */
  lemma {:induction false} EmittedPadded(width: WidthFn, padding: nat, ls: seq<string>)
    requires |ls| >= 1
    ensures var n := EndLen(width, 0, ls);
      Emitted(width, padding, 0, ls) + (if n == 0 then [] else Repeat(' ', Gap(padding, n)))
      == PaddedLines(width, padding, ls)
    decreases |ls|
  {
    if |ls| > 1 {
      EmittedPadded(width, padding, ls[1..]);
    }
  }

  /**
   * `String(s, width)` of plain text is the reference: each line padded to
   * `padding` cells, an empty last line left alone.
   */
  lemma PaddedPlain(width: WidthFn, padding: nat, s: string)
    requires ESC !in s
    ensures Padded(width, padding, s) == PaddedLines(width, padding, Lines(s))
  {
    var cfg := Config(width, padding, Spaces);
    PlainRun(cfg, Fresh, [], s);
    var r := Run(cfg, false, Fresh, [], s);
    assert r.st.lineLen == EndLen(width, 0, Lines(s)) && r.out == Emitted(width, padding, 0, Lines(s));
    CloseRule(cfg, r.st, r.out);
    EmittedPadded(width, padding, Lines(s));
  }

  /** With `Padding == 0`, plain text passes through unchanged. */
  lemma Unpadded(width: WidthFn, s: string)
    requires ESC !in s
    ensures Padded(width, 0, s) == s
  {
    PaddedPlain(width, 0, s);
    UnpaddedLines(width, Lines(s));
    LinesJoin(s);
  }

  lemma {:induction false} UnpaddedLines(width: WidthFn, ls: seq<string>)
    requires |ls| >= 1
    ensures PaddedLines(width, 0, ls) == JoinLines(ls)
    decreases |ls|
  {
    assert forall l :: PadLine(width, 0, l) == l by {
      forall l ensures PadLine(width, 0, l) == l {
        assert l + Repeat(' ', 0) == l;
      }
    }
    if |ls| > 1 {
      UnpaddedLines(width, ls[1..]);
    }
  }

  // Styled text.

  /** Plain text within a line is forwarded as it is and counted cell by cell. */
  lemma TextRun(cfg: Config, st: State, out: string, text: string)
    requires Sync(st) && !st.ansi && ESC !in text && NEWLINE !in text
    ensures Run(cfg, false, st, out, text) == Outcome(st.(lineLen := st.lineLen + SumWidth(cfg.width, text)), out + text, false)
  {
    WithinLine(cfg, false, st, out, text);
    AnsiWriter.PlainPassesThrough(st.aw, out, text);
    PlainText(LetterTerminator, cfg.width, st.lineLen, text);
  }

  /**
   * A colour sequence is forwarded, takes no cells, and is remembered by the
   * `ansi.Writer`, so the next line end writes a reset.
   */
  lemma StyleRun(cfg: Config, st: State, out: string, body: string)
    requires Sync(st) && !st.ansi && st.aw.ansiseq == []
    requires AnsiWriter.NoLetter(body) && !HasSuffix([ESC] + body + ['m'], "[0m") && NEWLINE !in body
    ensures var q := [ESC] + body + ['m'];
      Run(cfg, false, st, out, q)
      == Outcome(st.(aw := st.aw.(seqchanged := true, lastseq := st.aw.lastseq + q)), out + q, false)
  {
    var q := [ESC] + body + ['m'];
    assert NEWLINE !in q;
    WithinLine(cfg, false, st, out, q);
    AnsiWriter.ColorRemembered(st.aw, out, body);
    SequenceInvisible(LetterTerminator, cfg.width, Scan(st.lineLen, false), body, 'm');
  }

  /**
   * At a line end outside a sequence, `ResetAnsi` writes a reset after the
   * gap whenever the `ansi.Writer` has seen a sequence since its last reset
   * sequence; writing that reset does not clear `seqchanged`, so every later
   * line end gets one too.
   */
  lemma LineEndRun(cfg: Config, st: State, out: string)
    requires Sync(st) && !st.ansi && cfg.fill == Spaces
    ensures Run(cfg, false, st, out, [NEWLINE])
         == Outcome(State(0, false, st.aw), out + Repeat(' ', Gap(cfg.padding, st.lineLen)) + AnsiWriter.ResetOut(false, st.aw) + [NEWLINE], false)
    ensures st.aw.seqchanged ==> AnsiWriter.ResetOut(false, st.aw) == RESET
  {
    LineEnd(cfg, st, out);
  }

  // Failures.

  /** `Write` and `Close` only fail when the forward writer does. */
  lemma {:induction false} WorkingNeverFails(cfg: Config, st: State, out: string, s: string)
    ensures !Run(cfg, false, st, out, s).failed
    ensures !Closed(cfg, false, st, out).failed
    decreases |s|
  {
    PadNeverFails(cfg, st.lineLen, st.aw, out);
    if s != [] {
      var c := s[0];
      var b := Before(cfg, false, st, out, c);
      if !st.ansi && c != ESC && c == NEWLINE {
        PadNeverFails(cfg, st.lineLen + cfg.width(c), st.aw, out);
      }
      AnsiWriter.WorkingNeverFails(b.st.aw, b.out, [c]);
      var o := Step(cfg, false, st, out, c);
      WorkingNeverFails(cfg, o.st, o.out, s[1..]);
    }
  }

  lemma PadNeverFails(cfg: Config, lineLen: nat, aw: AnsiWriter.State, out: string)
    ensures !PadOut(cfg, false, lineLen, aw, out).failed
  {
    if Gap(cfg.padding, lineLen) > 0 {
      FilledNeverFails(aw, out, cfg.fill, Gap(cfg.padding, lineLen));
    }
  }

  /** A failing sink makes `Write` fail on the first printable rune, which is not forwarded. */
  lemma FailsOnPrintable(cfg: Config, st: State, out: string, s: string)
    requires Sync(st) && !st.ansi && s != [] && s[0] != ESC && s[0] != NEWLINE
    ensures Run(cfg, true, st, out, s).failed && Run(cfg, true, st, out, s).out == out
  {
  }

  /** A line end whose gap is written as spaces makes `Write` fail on a failing sink. */
  lemma FailsOnGap(cfg: Config, st: State, out: string, s: string)
    requires Sync(st) && !st.ansi && s != [] && s[0] == NEWLINE
    requires cfg.fill == Spaces && Gap(cfg.padding, st.lineLen + cfg.width(NEWLINE)) > 0
    ensures Run(cfg, true, st, out, s).failed && Run(cfg, true, st, out, s).out == out
  {
    PadFailing(cfg, st.lineLen + cfg.width(NEWLINE), st.aw, out);
    AnsiWriter.FailsOnPrintable(st.aw, out, Repeat(' ', Gap(cfg.padding, st.lineLen + cfg.width(NEWLINE))));
  }

  /** `Writer`: `ansiWriter` forwards to `buf` (`NewWriter`) or to an outside writer (`NewWriterPipe`). */
  class Writer {
    const padding: nat
    const fill: Fill
    const width: WidthFn
    const ansiWriter: AnsiWriter.Writer
    const buf: Sink
    var lineLen: nat
    var ansi: bool

    function Settings(): Config {
      Config(width, padding, fill)
    }

    function Fields(): State
      reads this, ansiWriter
    {
      State(lineLen, ansi, ansiWriter.Fields())
    }

    /** `NewWriter(width, paddingFunc)`: the `ansi.Writer` forwards to the writer's own buffer. */
    constructor NewWriter(width: WidthFn, padding: nat, fill: Fill)
      ensures Settings() == Config(width, padding, fill) && Fields() == Fresh
      ensures ansiWriter.forward == buf && buf.data == [] && !buf.failing
      ensures fresh(buf) && fresh(ansiWriter)
    {
      this.width, this.padding, this.fill := width, padding, fill;
      var b := new Sink(false);
      buf := b;
      ansiWriter := new AnsiWriter.Writer(b);
      lineLen, ansi := 0, false;
    }

    /** `NewWriterPipe(forward, width, paddingFunc)`. */
    constructor NewWriterPipe(forward: Sink, width: WidthFn, padding: nat, fill: Fill)
      ensures Settings() == Config(width, padding, fill) && Fields() == Fresh
      ensures ansiWriter.forward == forward && fresh(ansiWriter)
    {
      this.width, this.padding, this.fill := width, padding, fill;
      buf := new Sink(false);
      ansiWriter := new AnsiWriter.Writer(forward);
      lineLen, ansi := 0, false;
    }

    /** `Write`: returns `len(b)` bytes, or zero and the error of the first failed write. */
    method Write(b: string) returns (n: nat, err: bool)
      modifies this, ansiWriter, ansiWriter.forward
      ensures var r := Run(Settings(), ansiWriter.forward.failing, old(Fields()), old(ansiWriter.forward.data), b);
        Fields() == r.st && ansiWriter.forward.data == r.out && err == r.failed
        && n == if r.failed then 0 else ByteLen(b)
    {
      ghost var st0, out0 := Fields(), ansiWriter.forward.data;
      var i := 0;
      while i < |b|
        invariant 0 <= i <= |b|
        invariant Run(Settings(), ansiWriter.forward.failing, st0, out0, b)
               == Run(Settings(), ansiWriter.forward.failing, Fields(), ansiWriter.forward.data, b[i..])
      {
        assert b[i..][0] == b[i] && b[i..][1..] == b[i + 1..];
        var failed := Consume(b[i]);
        if failed {
          return 0, true;
        }
        i := i + 1;
      }
      return ByteLen(b), false;
    }

    /** One iteration of `Write`'s loop. */
    method Consume(c: char) returns (failed: bool)
      modifies this, ansiWriter, ansiWriter.forward
      ensures var o := Step(Settings(), ansiWriter.forward.failing, old(Fields()), old(ansiWriter.forward.data), c);
        Fields() == o.st && ansiWriter.forward.data == o.out && failed == o.failed
    {
      if c == ESC {
        ansi := true;
      } else if ansi {
        if LetterTerminator(c) {
          ansi := false;
        }
      } else {
        lineLen := lineLen + width(c);
        if c == NEWLINE {
          var err := Pad();
          if err {
            return true;
          }
          ansiWriter.ResetAnsi();
          lineLen := 0;
        }
      }
      var _, err := ansiWriter.Write([c]);
      return err;
    }

    /** `pad`. */
    method Pad() returns (err: bool)
      modifies ansiWriter, ansiWriter.forward
      ensures var p := PadOut(Settings(), ansiWriter.forward.failing, lineLen, old(ansiWriter.Fields()), old(ansiWriter.forward.data));
        ansiWriter.Fields() == p.st && ansiWriter.forward.data == p.out && err == p.failed
    {
      if padding > 0 && lineLen < padding {
        var n := padding - lineLen;
        match fill {
          case Spaces =>
            var _, e := ansiWriter.Write(Repeat(' ', n));
            return e;
          case Unit(u) =>
            ghost var aw0, out0 := ansiWriter.Fields(), ansiWriter.forward.data;
            var i := 0;
            while i < n
              invariant 0 <= i <= n
              invariant Units(ansiWriter.forward.failing, aw0, out0, u, n)
                     == Units(ansiWriter.forward.failing, ansiWriter.Fields(), ansiWriter.forward.data, u, n - i)
            {
              var _, _ := ansiWriter.Write(u);
              i := i + 1;
            }
        }
      }
      return false;
    }

    /** `Close`: pads the last line unless it is empty. */
    method Close() returns (err: bool)
      modifies ansiWriter, ansiWriter.forward
      ensures var o := Closed(Settings(), ansiWriter.forward.failing, old(Fields()), old(ansiWriter.forward.data));
        Fields() == o.st && ansiWriter.forward.data == o.out && err == o.failed
    {
      if lineLen == 0 {
        return false;
      }
      err := Pad();
    }

    /** `String` and `Bytes`: the writer's own buffer. */
    function String(): string
      reads buf
    {
      buf.data
    }
  }

  /** `String(s, width)`: pad with a fresh default writer. */
  method String(s: string, width: WidthFn, padding: nat) returns (r: string)
    ensures r == Padded(width, padding, s)
  {
    var f := new Writer.NewWriter(width, padding, Spaces);
    var _, _ := f.Write(s);
    var _ := f.Close();
    r := f.String();
  }
}
