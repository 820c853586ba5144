/**
 * ansi/compressor/writer.go: a writer that forwards text while dropping
 * redundant SGR resets. A reset sequence is never forwarded when it arrives:
 * it is owed (`resetreq`) and paid just before the next printable rune, the
 * next other sequence, or on `Close`. A sequence that re-establishes exactly
 * the style the owed reset cleared (`prevlastseq`) cancels the reset and is
 * dropped itself.
 *
 * `ansi.Marker` and `ansi.IsTerminator` are not part of this model: they are
 * the parameters `marker` and `isTerm`. The Go code walks the runes of its
 * input, as the model does.
 */
module Compressor {
  import opened Unicode
  import opened Text

  /** The unexported fields `ansi`, `ansiseq`, `lastseq`, `prevlastseq` and `resetreq`. */
  datatype State = State(ansi: bool, ansiseq: string, lastseq: string, prevlastseq: string, resetreq: bool)

  /** A zero `Writer`. */
  const Initial: State := State(false, [], [], [], false)

  /** What one rune does: the new state, what the sink accepted, and whether `Write` fails there. */
  datatype Effect = Effect(st: State, emit: string, err: bool)

  /** The state after `Write`, everything the sink holds, and whether `Write` returned an error. */
  datatype Outcome = Outcome(st: State, out: string, failed: bool)

  /** What a sink that fails every write (`failing`) or none keeps of a write. */
  function Accepted(failing: bool, s: string): string {
    if failing then [] else s
  }

  /**
   * One iteration of `Write`'s loop. Only the write of a printable rune can
   * make `Write` fail; the errors of the other writes are ignored.
   */
  function Step(marker: char, isTerm: char -> bool, failing: bool, st: State, c: char): Effect {
    if c == marker then
      Effect(st.(ansi := true, ansiseq := st.ansiseq + [c]), [], false)
    else if st.ansi then
      var held := st.ansiseq + [c];
      if !isTerm(c) then
        Effect(st.(ansiseq := held), [], false)
      else if HasSuffix(held, "[0m") then
        Effect(st.(ansi := false, ansiseq := [], prevlastseq := st.lastseq, lastseq := [], resetreq := true), [], false)
      else
        var lastseq := if c == 'm' then st.lastseq + held else st.lastseq;
        var dropped := held == st.prevlastseq;
        var paid := !dropped && st.resetreq;
        var sent := (if paid then RESET else []) + (if dropped then [] else held);
        Effect(State(false, [], lastseq, [], false), Accepted(failing, sent), false)
    else
      var st1 := if st.resetreq then st.(prevlastseq := [], resetreq := false) else st;
      var sent := (if st.resetreq then RESET else []) + [c];
      Effect(st1, Accepted(failing, sent), failing)
  }

  /** `Write(s)` from state `st`, after the sink already holds `out`; it stops at the first failed write. */
  function Run(marker: char, isTerm: char -> bool, failing: bool, st: State, out: string, s: string): Outcome
    decreases |s|
  {
    if s == [] then Outcome(st, out, false)
    else
      var e := Step(marker, isTerm, failing, st, s[0]);
      if e.err then Outcome(e.st, out, true)
      else Run(marker, isTerm, failing, e.st, out + e.emit, s[1..])
  }

  /** `Close`: pays a reset that is still owed. */
  function Closed(failing: bool, st: State): Effect {
    if st.resetreq then Effect(st.(prevlastseq := [], resetreq := false), Accepted(failing, RESET), false)
    else Effect(st, [], false)
  }

  /** A zero writer over an empty working sink: one `Write(s)`, then `Close`. */
  function Compressed(marker: char, isTerm: char -> bool, s: string): string {
    var r := Run(marker, isTerm, false, Initial, [], s);
    r.out + Closed(false, r.st).emit
  }

  /** Every rune after the marker keeps a sequence open: it is a marker or not a terminator. */
  ghost predicate Inside(marker: char, isTerm: char -> bool, body: string) {
    forall i :: 0 <= i < |body| ==> body[i] == marker || !isTerm(body[i])
  }

  /**
   * The shape every reachable state has: bytes are held exactly while a
   * sequence is open, and they are an unterminated sequence; a style to
   * compare against is kept only while a reset is owed.
   */
  ghost predicate Valid(marker: char, isTerm: char -> bool, st: State) {
    && (st.ansi ==> st.ansiseq != [] && st.ansiseq[0] == marker && Inside(marker, isTerm, st.ansiseq[1..]))
    && (!st.ansi ==> st.ansiseq == [])
    && (st.prevlastseq != [] ==> st.resetreq)
  }

  lemma StepValid(marker: char, isTerm: char -> bool, failing: bool, st: State, c: char)
    requires Valid(marker, isTerm, st)
    ensures Valid(marker, isTerm, Step(marker, isTerm, failing, st, c).st)
  {
    if c != marker && st.ansi && !isTerm(c) {
      var held := st.ansiseq + [c];
      assert held[1..] == st.ansiseq[1..] + [c];
    } else if c == marker && st.ansi {
      var held := st.ansiseq + [c];
      assert held[1..] == st.ansiseq[1..] + [c];
    }
  }

  lemma {:induction false} RunValid(marker: char, isTerm: char -> bool, failing: bool, st: State, out: string, s: string)
    requires Valid(marker, isTerm, st)
    ensures Valid(marker, isTerm, Run(marker, isTerm, failing, st, out, s).st)
    decreases |s|
  {
    if s != [] {
      StepValid(marker, isTerm, failing, st, s[0]);
      var e := Step(marker, isTerm, failing, st, s[0]);
      if !e.err {
        RunValid(marker, isTerm, failing, e.st, out + e.emit, s[1..]);
      }
    }
  }

  /** Writing `a` and then `b` is writing `a + b`, unless writing `a` already failed. */
  lemma {:induction false} RunAppend(marker: char, isTerm: char -> bool, failing: bool, st: State, out: string, a: string, b: string)
    ensures var r := Run(marker, isTerm, failing, st, out, a);
      Run(marker, isTerm, failing, st, out, a + b) == if r.failed then r else Run(marker, isTerm, failing, r.st, r.out, b)
    decreases |a|
  {
    if a == [] {
      assert a + b == b;
    } else {
      assert (a + b)[0] == a[0];
      assert (a + b)[1..] == a[1..] + b;
      var e := Step(marker, isTerm, failing, st, a[0]);
      if !e.err {
        RunAppend(marker, isTerm, failing, e.st, out + e.emit, a[1..], b);
      }
    }
  }

  // The printable text, as a reader of the output sees it.

  /** A scanner that keeps the runes outside sequences. */
  datatype Scan = Scan(ansi: bool, text: string)

  function Next(marker: char, isTerm: char -> bool, sc: Scan, c: char): Scan {
    if c == marker then sc.(ansi := true)
    else if sc.ansi then (if isTerm(c) then sc.(ansi := false) else sc)
    else sc.(text := sc.text + [c])
  }

  function Scanned(marker: char, isTerm: char -> bool, sc: Scan, s: string): Scan
    decreases |s|
  {
    if s == [] then sc else Scanned(marker, isTerm, Next(marker, isTerm, sc, s[0]), s[1..])
  }

  /** The runes of `s` outside escape sequences, in order. */
  function Printables(marker: char, isTerm: char -> bool, s: string): string {
    Scanned(marker, isTerm, Scan(false, []), s).text
  }

  lemma {:induction false} ScannedAppend(marker: char, isTerm: char -> bool, sc: Scan, a: string, b: string)
    ensures Scanned(marker, isTerm, sc, a + b) == Scanned(marker, isTerm, Scanned(marker, isTerm, sc, a), b)
    decreases |a|
  {
    if a == [] {
      assert a + b == b;
    } else {
      assert (a + b)[1..] == a[1..] + b;
      ScannedAppend(marker, isTerm, Next(marker, isTerm, sc, a[0]), a[1..], b);
    }
  }

  /** Runes that keep a sequence open add no text. */
  lemma {:induction false} ScannedInside(marker: char, isTerm: char -> bool, text: string, body: string)
    requires Inside(marker, isTerm, body)
    ensures Scanned(marker, isTerm, Scan(true, text), body) == Scan(true, text)
    decreases |body|
  {
    if body != [] {
      assert Inside(marker, isTerm, body[1..]) by {
        forall i | 0 <= i < |body[1..]| ensures body[1..][i] == marker || !isTerm(body[1..][i]) {
          assert body[1..][i] == body[i + 1];
        }
      }
      ScannedInside(marker, isTerm, text, body[1..]);
    }
  }

  /** A held sequence completed by its terminator adds no text and closes the sequence. */
  lemma ScannedSequence(marker: char, isTerm: char -> bool, text: string, held: string, t: char)
    requires held != [] && held[0] == marker && Inside(marker, isTerm, held[1..])
    requires isTerm(t) && t != marker
    ensures Scanned(marker, isTerm, Scan(false, text), held + [t]) == Scan(false, text)
  {
    assert held + [t] == [held[0]] + held[1..] + [t];
    ScannedAppend(marker, isTerm, Scan(false, text), [held[0]] + held[1..], [t]);
    ScannedAppend(marker, isTerm, Scan(false, text), [held[0]], held[1..]);
    ScannedInside(marker, isTerm, text, held[1..]);
  }

  /** The collaborators recognise the reset sequence as one escape sequence. */
  ghost predicate ResetIsSequence(marker: char, isTerm: char -> bool) {
    marker == ESC && !isTerm('[') && !isTerm('0') && isTerm('m')
  }

  lemma ScannedReset(marker: char, isTerm: char -> bool, text: string)
    requires ResetIsSequence(marker, isTerm)
    ensures Scanned(marker, isTerm, Scan(false, text), RESET) == Scan(false, text)
  {
    ScannedSequence(marker, isTerm, text, [ESC, '[', '0'], 'm');
    assert [ESC, '[', '0'] + ['m'] == RESET;
  }

  /** One rune on a working sink: the text it adds to the output is the text it adds to the input. */
  lemma StepText(marker: char, isTerm: char -> bool, st: State, c: char, text: string)
    requires Valid(marker, isTerm, st) && ResetIsSequence(marker, isTerm)
    ensures var e := Step(marker, isTerm, false, st, c);
      var sc := Next(marker, isTerm, Scan(st.ansi, text), c);
      !e.err && e.st.ansi == sc.ansi && Scanned(marker, isTerm, Scan(false, text), e.emit) == Scan(false, sc.text)
  {
    var e := Step(marker, isTerm, false, st, c);
    if c == marker {
    } else if st.ansi {
      var held := st.ansiseq + [c];
      if isTerm(c) && !HasSuffix(held, "[0m") {
        var dropped := held == st.prevlastseq;
        var paid := !dropped && st.resetreq;
        var part := if dropped then [] else held;
        assert Scanned(marker, isTerm, Scan(false, text), part) == Scan(false, text) by {
          if !dropped {
            ScannedSequence(marker, isTerm, text, st.ansiseq, c);
          }
        }
        if paid {
          ScannedAppend(marker, isTerm, Scan(false, text), RESET, part);
          ScannedReset(marker, isTerm, text);
        } else {
          assert e.emit == part;
        }
      }
    } else {
      if st.resetreq {
        ScannedAppend(marker, isTerm, Scan(false, text), RESET, [c]);
        ScannedReset(marker, isTerm, text);
      }
    }
  }

  /**
   * On a working sink `Write` never fails, and the printable text of what
   * it forwards is exactly the printable text of its input: resets are
   * moved and dropped, never runes.
   */
  lemma {:induction false} RunText(marker: char, isTerm: char -> bool, st: State, out: string, s: string, text: string)
    requires Valid(marker, isTerm, st) && ResetIsSequence(marker, isTerm)
    requires Scanned(marker, isTerm, Scan(false, []), out) == Scan(false, text)
    ensures var r := Run(marker, isTerm, false, st, out, s);
      var sc := Scanned(marker, isTerm, Scan(st.ansi, text), s);
      !r.failed && r.st.ansi == sc.ansi && Scanned(marker, isTerm, Scan(false, []), r.out) == Scan(false, sc.text)
    decreases |s|
  {
    if s != [] {
      var e := Step(marker, isTerm, false, st, s[0]);
      var sc := Next(marker, isTerm, Scan(st.ansi, text), s[0]);
      StepText(marker, isTerm, st, s[0], text);
      StepValid(marker, isTerm, false, st, s[0]);
      ScannedAppend(marker, isTerm, Scan(false, []), out, e.emit);
      RunText(marker, isTerm, e.st, out + e.emit, s[1..], sc.text);
    }
  }

  /** Compression keeps the printable text of its input, rune for rune. */
  lemma CompressedText(marker: char, isTerm: char -> bool, s: string)
    requires ResetIsSequence(marker, isTerm)
    ensures Printables(marker, isTerm, Compressed(marker, isTerm, s)) == Printables(marker, isTerm, s)
  {
    RunText(marker, isTerm, Initial, [], s, []);
    var r := Run(marker, isTerm, false, Initial, [], s);
    var text := Printables(marker, isTerm, s);
    ScannedAppend(marker, isTerm, Scan(false, []), r.out, Closed(false, r.st).emit);
    if r.st.resetreq {
      ScannedReset(marker, isTerm, text);
    }
  }

  /** What the state still owes the output: a pending reset and the held bytes. */
  function Credit(st: State): nat {
    (if st.resetreq then |RESET| else 0) + |st.ansiseq|
  }

  lemma StepLength(marker: char, isTerm: char -> bool, failing: bool, st: State, c: char)
    requires Valid(marker, isTerm, st) && marker == ESC
    ensures var e := Step(marker, isTerm, failing, st, c);
      |e.emit| + Credit(e.st) <= Credit(st) + 1
  {
    var e := Step(marker, isTerm, failing, st, c);
    if c == marker || (st.ansi && !isTerm(c)) {
    } else if st.ansi {
      var held := st.ansiseq + [c];
      if HasSuffix(held, "[0m") {
        assert held[0] == ESC && held[|held| - 3] == '[';
        assert Credit(e.st) == 4;
      } else {
        assert |e.emit| <= (if st.resetreq then |RESET| else 0) + |held|;
      }
    } else {
      assert |e.emit| <= (if st.resetreq then |RESET| else 0) + 1;
    }
  }

  lemma {:induction false} RunLength(marker: char, isTerm: char -> bool, failing: bool, st: State, out: string, s: string)
    requires Valid(marker, isTerm, st) && marker == ESC
    ensures var r := Run(marker, isTerm, failing, st, out, s);
      |r.out| + Credit(r.st) <= |out| + Credit(st) + |s|
    decreases |s|
  {
    if s != [] {
      var e := Step(marker, isTerm, failing, st, s[0]);
      StepLength(marker, isTerm, failing, st, s[0]);
      StepValid(marker, isTerm, failing, st, s[0]);
      if !e.err {
        RunLength(marker, isTerm, failing, e.st, out + e.emit, s[1..]);
      }
    }
  }

  /** Compression never lengthens its input: every reset it writes stands for one it swallowed. */
  lemma CompressedShorter(marker: char, isTerm: char -> bool, s: string)
    requires marker == ESC
    ensures |Compressed(marker, isTerm, s)| <= |s|
  {
    RunLength(marker, isTerm, false, Initial, [], s);
  }

  /** A failing sink never receives anything. */
  lemma {:induction false} FailingForwardsNothing(marker: char, isTerm: char -> bool, st: State, out: string, s: string)
    ensures Run(marker, isTerm, true, st, out, s).out == out
    decreases |s|
  {
    if s != [] {
      var e := Step(marker, isTerm, true, st, s[0]);
      if !e.err {
        FailingForwardsNothing(marker, isTerm, e.st, out + e.emit, s[1..]);
      }
    }
  }

  /** A printable rune outside a sequence makes `Write` fail on a failing sink. */
  lemma FailsOnPrintable(marker: char, isTerm: char -> bool, st: State, out: string, s: string)
    requires !st.ansi && s != [] && s[0] != marker
    ensures Run(marker, isTerm, true, st, out, s).failed
  {
  }

  // The individual behaviours, one sequence or text run at a time.

  /** An unterminated sequence is held back; nothing is written. */
  lemma {:induction false} Held(marker: char, isTerm: char -> bool, failing: bool, st: State, out: string, body: string)
    requires !st.ansi && st.ansiseq == [] && Inside(marker, isTerm, body)
    ensures Run(marker, isTerm, failing, st, out, [marker] + body)
         == Outcome(st.(ansi := true, ansiseq := [marker] + body), out, false)
    decreases |body|
  {
    if body == [] {
      assert [marker] + body == [marker];
    } else {
      var last := body[|body| - 1];
      var init := body[..|body| - 1];
      assert [marker] + body == ([marker] + init) + [last];
      assert Inside(marker, isTerm, init) by {
        forall i | 0 <= i < |init| ensures init[i] == marker || !isTerm(init[i]) {
          assert init[i] == body[i];
        }
      }
      assert last == body[|body| - 1];
      Held(marker, isTerm, failing, st, out, init);
      RunAppend(marker, isTerm, failing, st, out, [marker] + init, [last]);
    }
  }

  /** A complete sequence, marker through terminator, is one step after its held part. */
  lemma Sequence(marker: char, isTerm: char -> bool, failing: bool, st: State, out: string, body: string, t: char)
    requires !st.ansi && st.ansiseq == [] && Inside(marker, isTerm, body) && t != marker
    ensures var held := st.(ansi := true, ansiseq := [marker] + body);
      Run(marker, isTerm, failing, st, out, [marker] + body + [t])
      == Outcome(Step(marker, isTerm, failing, held, t).st, out + Step(marker, isTerm, failing, held, t).emit, false)
  {
    Held(marker, isTerm, failing, st, out, body);
    RunAppend(marker, isTerm, failing, st, out, [marker] + body, [t]);
  }

  /** A reset sequence is swallowed: it is owed, and the style it clears is kept for comparison. */
  lemma ResetDeferred(marker: char, isTerm: char -> bool, failing: bool, st: State, out: string)
    requires !st.ansi && st.ansiseq == [] && ResetIsSequence(marker, isTerm)
    ensures Run(marker, isTerm, failing, st, out, RESET)
         == Outcome(st.(prevlastseq := st.lastseq, lastseq := [], resetreq := true), out, false)
  {
    assert RESET == [ESC] + "[0" + ['m'];
    Sequence(marker, isTerm, failing, st, out, "[0", 'm');
  }

  /** Restoring exactly the style an owed reset cleared cancels the reset and writes nothing. */
  lemma RestyleDropped(marker: char, isTerm: char -> bool, failing: bool, st: State, out: string, body: string)
    requires !st.ansi && st.ansiseq == [] && Inside(marker, isTerm, body) && isTerm('m') && marker != 'm'
    requires var q := [marker] + body + ['m'];
      !HasSuffix(q, "[0m") && st.prevlastseq == q
    ensures var q := [marker] + body + ['m'];
      Run(marker, isTerm, failing, st, out, q) == Outcome(State(false, [], st.lastseq + q, [], false), out, false)
  {
    Sequence(marker, isTerm, failing, st, out, body, 'm');
  }

  /**
   * Any other colour sequence pays an owed reset, is forwarded, and is
   * appended to `lastseq`.
   */
  lemma StyleForwarded(marker: char, isTerm: char -> bool, st: State, out: string, body: string)
    requires !st.ansi && st.ansiseq == [] && Inside(marker, isTerm, body) && isTerm('m') && marker != 'm'
    requires var q := [marker] + body + ['m'];
      !HasSuffix(q, "[0m") && st.prevlastseq != q
    ensures var q := [marker] + body + ['m'];
      Run(marker, isTerm, false, st, out, q)
      == Outcome(State(false, [], st.lastseq + q, [], false), out + (if st.resetreq then RESET else []) + q, false)
  {
    Sequence(marker, isTerm, false, st, out, body, 'm');
  }

  /** Text without the marker pays an owed reset first and is then forwarded unchanged. */
  lemma {:induction false} TextForwarded(marker: char, isTerm: char -> bool, st: State, out: string, text: string)
    requires !st.ansi && marker !in text && text != []
    ensures Run(marker, isTerm, false, st, out, text)
         == Outcome(if st.resetreq then st.(prevlastseq := [], resetreq := false) else st,
                    out + (if st.resetreq then RESET else []) + text, false)
    decreases |text|
  {
    var e := Step(marker, isTerm, false, st, text[0]);
    if |text| == 1 {
      assert text == [text[0]];
    } else {
      assert marker !in text[1..] by { assert forall c :: c in text[1..] ==> c in text; }
      TextForwarded(marker, isTerm, e.st, out + e.emit, text[1..]);
      assert e.emit + text[1..] == (if st.resetreq then RESET else []) + text;
    }
  }

  /** `Writer`: `forward` is the `Forward` writer; `marker` and `isTerm` stand for `ansi.Marker` and `ansi.IsTerminator`. */
  class Writer {
    const forward: Sink
    const marker: char
    const isTerm: char -> bool
    var ansi: bool
    var ansiseq: string
    var lastseq: string
    var prevlastseq: string
    var resetreq: bool

    /** The fields as one value. */
    function Fields(): State
      reads this
    {
      State.State(ansi, ansiseq, lastseq, prevlastseq, resetreq)
    }

    /** `&Writer{Forward: forward}`. */
    constructor (forward: Sink, marker: char, isTerm: char -> bool)
      ensures this.forward == forward && this.marker == marker && this.isTerm == isTerm
      ensures Fields() == Initial
    {
      this.forward, this.marker, this.isTerm := forward, marker, isTerm;
      ansi, ansiseq, lastseq, prevlastseq, resetreq := false, [], [], [], false;
    }

    /** `Write`: returns `len(b)` bytes unless forwarding a printable rune failed. */
    method Write(b: string) returns (n: nat, err: bool)
      modifies this, forward
      ensures var r := Run(marker, isTerm, forward.failing, old(Fields()), old(forward.data), b);
        Fields() == r.st && forward.data == r.out && err == r.failed
        && n == if r.failed then 0 else ByteLen(b)
    {
      ghost var st0, out0 := Fields(), forward.data;
      var i := 0;
      while i < |b|
        invariant 0 <= i <= |b|
        invariant Run(marker, isTerm, forward.failing, st0, out0, b)
               == Run(marker, isTerm, forward.failing, Fields(), forward.data, b[i..])
      {
        assert b[i..][0] == b[i] && b[i..][1..] == b[i + 1..];
        var failed := Consume(b[i]);
        if failed {
          return 0, true;
        }
        i := i + 1;
      }
      return ByteLen(b), false;
    }

    /** One iteration of `Write`'s loop. */
    method Consume(c: char) returns (failed: bool)
      modifies this, forward
      ensures var e := Step(marker, isTerm, forward.failing, old(Fields()), c);
        Fields() == e.st && forward.data == old(forward.data) + e.emit && failed == e.err
    {
      if c == marker {
        ansi := true;
        ansiseq := ansiseq + [c];
      } else if ansi {
        if isTerm(c) {
          EndSequence(c);
        } else {
          ansiseq := ansiseq + [c];
        }
      } else {
        if resetreq {
          ResetAnsi();
        }
        var _, err := WriteRune(c);
        if err {
          return true;
        }
      }
      return false;
    }

    /** The terminator `c` completes the held sequence. */
    method EndSequence(c: char)
      requires ansi && c != marker && isTerm(c)
      modifies this, forward
      ensures var e := Step(marker, isTerm, forward.failing, old(Fields()), c);
        Fields() == e.st && forward.data == old(forward.data) + e.emit
    {
      ansiseq := ansiseq + [c];
      ansi := false;
      if HasSuffix(ansiseq, "[0m") {
        prevlastseq := lastseq;
        lastseq := [];
        resetreq := true;
        ansiseq := [];
      } else {
        if c == 'm' {
          lastseq := lastseq + ansiseq;
        }
        Flush();
      }
    }

    /** A complete sequence other than a reset: dropped if it restores the cleared style, else forwarded. */
    method Flush()
      requires !ansi
      modifies this, forward
      ensures var dropped := old(ansiseq) == old(prevlastseq);
        var paid := !dropped && old(resetreq);
        var sent := (if paid then RESET else []) + (if dropped then [] else old(ansiseq));
        && Fields() == State.State(false, [], old(lastseq), [], false)
        && forward.data == old(forward.data) + Accepted(forward.failing, sent)
    {
      if ansiseq == prevlastseq {
        resetreq := false;
        ansiseq := [];
      }
      prevlastseq := [];
      if resetreq {
        ResetAnsi();
      }
      var _, _ := forward.Write(ansiseq);
      ansiseq := [];
    }

    /** `writeRune`: hands one rune, UTF-8 encoded, to the forward writer. */
    method WriteRune(r: char) returns (n: nat, err: bool)
      modifies forward
      ensures forward.data == old(forward.data) + Accepted(forward.failing, [r])
      ensures err == forward.failing && n == if err then 0 else RuneLen(r)
    {
      n, err := forward.Write([r]);
    }

    /** `Close`: writes a reset that is still owed; it never fails. */
    method Close() returns (err: bool)
      modifies this, forward
      ensures var e := Closed(forward.failing, old(Fields()));
        Fields() == e.st && forward.data == old(forward.data) + e.emit && !err
    {
      if resetreq {
        ResetAnsi();
      }
      return false;
    }

    /** `ResetAnsi`: writes the reset sequence and settles the debt. */
    method ResetAnsi()
      modifies this, forward
      ensures Fields() == old(Fields()).(prevlastseq := [], resetreq := false)
      ensures forward.data == old(forward.data) + Accepted(forward.failing, RESET)
    {
      prevlastseq := [];
      var _, _ := forward.Write(RESET);
      resetreq := false;
    }
  }
}
