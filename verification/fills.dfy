/**
 * The fill callbacks of padding/padding.go (`PadFunc`) and indent/indent.go
 * (`IndentFunc`), and how `n` cells of fill reach an `ansi.Writer`: without a
 * callback, `n` spaces in one write whose error is returned; with one, `n`
 * calls of the callback, whose errors nobody sees. A callback is modelled
 * by the fixed string it writes on every call.
 */
module Fills {
  import opened Text
  import AnsiWriter

  /** No callback (`nil`), or a callback writing `unit` on every call. */
  datatype Fill = Spaces | Unit(unit: string)

  /** `unit` repeated `n` times. */
  function Times(unit: string, n: nat): (r: string)
    ensures |r| == n * |unit|
    decreases n
  {
    if n == 0 then [] else unit + Times(unit, n - 1)
  }

  /** `n` calls of a callback that writes `unit` and drops the error. */
  function Units(failing: bool, aw: AnsiWriter.State, out: string, unit: string, n: nat): (r: AnsiWriter.Outcome)
    ensures !r.failed
    decreases n
  {
    if n == 0 then AnsiWriter.Outcome(aw, out, false)
    else
      var r := AnsiWriter.Run(failing, aw, out, unit);
      Units(failing, r.st, r.out, unit, n - 1)
  }

  /** `n` cells of fill written through the `ansi.Writer`. */
  function Filled(failing: bool, aw: AnsiWriter.State, out: string, fill: Fill, n: nat): AnsiWriter.Outcome {
    match fill
    case Spaces => AnsiWriter.Run(failing, aw, out, Repeat(' ', n))
    case Unit(u) => Units(failing, aw, out, u, n)
  }

  /** The text of `n` cells of fill. */
  function FillText(fill: Fill, n: nat): string {
    match fill
    case Spaces => Repeat(' ', n)
    case Unit(u) => Times(u, n)
  }

  /** A callback without escape sequences is plain text. */
  predicate PlainFill(fill: Fill) {
    fill.Unit? ==> ESC !in fill.unit
  }

  /** Outside a sequence, on a working sink, plain fill is forwarded as it is and leaves the writer as it was. */
  lemma FilledPlain(aw: AnsiWriter.State, out: string, fill: Fill, n: nat)
    requires !aw.ansi && PlainFill(fill)
    ensures Filled(false, aw, out, fill, n) == AnsiWriter.Outcome(aw, out + FillText(fill, n), false)
  {
    match fill
    case Spaces =>
      assert ESC !in Repeat(' ', n);
      AnsiWriter.PlainPassesThrough(aw, out, Repeat(' ', n));
    case Unit(u) =>
      UnitsPlain(aw, out, u, n);
  }

  lemma {:induction false} UnitsPlain(aw: AnsiWriter.State, out: string, unit: string, n: nat)
    requires !aw.ansi && ESC !in unit
    ensures Units(false, aw, out, unit, n) == AnsiWriter.Outcome(aw, out + Times(unit, n), false)
    decreases n
  {
    if n > 0 {
      AnsiWriter.PlainPassesThrough(aw, out, unit);
      UnitsPlain(aw, out + unit, unit, n - 1);
      assert out + unit + Times(unit, n - 1) == out + Times(unit, n);
    }
  }

  /** Fill never fails on a working sink. */
  lemma FilledNeverFails(aw: AnsiWriter.State, out: string, fill: Fill, n: nat)
    ensures !Filled(false, aw, out, fill, n).failed
  {
    if fill == Spaces {
      AnsiWriter.WorkingNeverFails(aw, out, Repeat(' ', n));
    }
  }

  /**
   * On a failing sink nothing of the fill arrives, and the error surfaces
   * exactly when there is no callback and at least one cell to write.
   */
  lemma {:induction false} FilledFailing(aw: AnsiWriter.State, out: string, fill: Fill, n: nat)
    requires !aw.ansi
    ensures var r := Filled(true, aw, out, fill, n);
      r.out == out && (r.failed <==> fill == Spaces && n > 0)
  {
    match fill
    case Spaces =>
      AnsiWriter.FailingForwardsNothing(aw, out, Repeat(' ', n));
      if n > 0 {
        AnsiWriter.FailsOnPrintable(aw, out, Repeat(' ', n));
      }
    case Unit(u) =>
      UnitsForwardNothing(aw, out, u, n);
  }

  lemma {:induction false} UnitsForwardNothing(aw: AnsiWriter.State, out: string, unit: string, n: nat)
    ensures Units(true, aw, out, unit, n).out == out
    decreases n
  {
    if n > 0 {
      var r := AnsiWriter.Run(true, aw, out, unit);
      AnsiWriter.FailingForwardsNothing(aw, out, unit);
      UnitsForwardNothing(r.st, r.out, unit, n - 1);
    }
  }

  /** Plain fill leaves the `ansi.Writer` outside a sequence, whether or not the sink fails. */
  lemma FilledKeepsAnsi(failing: bool, aw: AnsiWriter.State, out: string, fill: Fill, n: nat)
    requires !aw.ansi && PlainFill(fill)
    ensures !Filled(failing, aw, out, fill, n).st.ansi
  {
    match fill
    case Spaces =>
      assert ESC !in Repeat(' ', n);
      PlainKeepsAnsi(failing, aw, out, Repeat(' ', n));
    case Unit(u) =>
      UnitsKeepAnsi(failing, aw, out, u, n);
  }

  lemma {:induction false} UnitsKeepAnsi(failing: bool, aw: AnsiWriter.State, out: string, unit: string, n: nat)
    requires !aw.ansi && ESC !in unit
    ensures !Units(failing, aw, out, unit, n).st.ansi
    decreases n
  {
    if n > 0 {
      var r := AnsiWriter.Run(failing, aw, out, unit);
      PlainKeepsAnsi(failing, aw, out, unit);
      UnitsKeepAnsi(failing, r.st, r.out, unit, n - 1);
    }
  }

  /** Text without ESC leaves the `ansi.Writer` outside a sequence. */
  lemma {:induction false} PlainKeepsAnsi(failing: bool, aw: AnsiWriter.State, out: string, s: string)
    requires !aw.ansi && ESC !in s
    ensures !AnsiWriter.Run(failing, aw, out, s).st.ansi
    decreases |s|
  {
    if s != [] {
      var e := AnsiWriter.Step(failing, aw, s[0]);
      if !e.err {
        assert ESC !in s[1..] by { assert forall c :: c in s[1..] ==> c in s; }
        PlainKeepsAnsi(failing, e.st, out + e.emit, s[1..]);
      }
    }
  }
}
