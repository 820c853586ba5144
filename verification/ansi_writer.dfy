/**
 * ansi/writer.go: a writer that forwards text to another writer while
 * holding back escape sequences until they are terminated, and remembers
 * the SGR (colour) sequences in effect so they can be reset and restored.
 *
 * The Go code walks bytes; the model walks runes. The two agree because ESC,
 * the terminators and "[0m" are ASCII, and the bytes of any other rune are
 * never terminators.
 */
module AnsiWriter {
  import opened Unicode
  import opened Text

  /** The unexported fields `ansi`, `ansiseq`, `lastseq` and `seqchanged`. */
  datatype State = State(ansi: bool, ansiseq: string, lastseq: string, seqchanged: bool)

  /** A zero `Writer`. */
  const Initial: State := State(false, [], [], false)

  /** What one rune does: the new state, what is handed to the sink, and whether `Write` fails there. */
  datatype Effect = Effect(st: State, emit: string, err: bool)

  /** The state after `Write` and everything the sink accepted; `failed` when `Write` returned an error. */
  datatype Outcome = Outcome(st: State, out: string, failed: bool)

  /**
   * One iteration of `Write`'s loop, on a sink that fails every write
   * (`failing`) or none. A failed `ansiseq.WriteTo` keeps the held bytes.
   */
  function Step(failing: bool, st: State, c: char): Effect {
    if c == ESC then
      Effect(st.(ansi := true, seqchanged := true, ansiseq := st.ansiseq + [c]), [], false)
    else if st.ansi then
      var held := st.ansiseq + [c];
      if LetterTerminator(c) then
        var st1 :=
          if HasSuffix(held, "[0m") then st.(lastseq := [], seqchanged := false)
          else if c == 'm' then st.(lastseq := st.lastseq + held)
          else st;
        if failing then Effect(st1.(ansi := false, ansiseq := held), [], false)
        else Effect(st1.(ansi := false, ansiseq := []), held, false)
      else
        Effect(st.(ansiseq := held), [], false)
    else if failing then
      Effect(st, [], true)
    else
      Effect(st, [c], false)
  }

  /** `Write(s)` from state `st`, after the sink already holds `out`; it stops at the first failed write. */
  function Run(failing: bool, st: State, out: string, s: string): Outcome
    decreases |s|
  {
    if s == [] then Outcome(st, out, false)
    else
      var e := Step(failing, st, s[0]);
      if e.err then Outcome(e.st, out, true)
      else Run(failing, e.st, out + e.emit, s[1..])
  }

  /** The shape every reachable state has: held bytes start a sequence, remembered ones are complete SGR runs. */
  predicate Valid(st: State) {
    && (st.ansiseq == [] || st.ansiseq[0] == ESC)
    && (st.ansi ==> st.ansiseq != [])
    && (st.lastseq == [] || (st.lastseq[0] == ESC && st.lastseq[|st.lastseq| - 1] == 'm'))
  }

  lemma StepValid(failing: bool, st: State, c: char)
    requires Valid(st)
    ensures Valid(Step(failing, st, c).st)
  {
  }

  lemma {:induction false} RunValid(failing: bool, st: State, out: string, s: string)
    requires Valid(st)
    ensures Valid(Run(failing, st, out, s).st)
    decreases |s|
  {
    if s != [] {
      StepValid(failing, st, s[0]);
      var e := Step(failing, st, s[0]);
      if !e.err {
        RunValid(failing, e.st, out + e.emit, s[1..]);
      }
    }
  }

  /** Writing `a` and then `b` is writing `a + b`, unless writing `a` already failed. */
  lemma {:induction false} RunAppend(failing: bool, st: State, out: string, a: string, b: string)
    ensures var r := Run(failing, st, out, a);
      Run(failing, st, out, a + b) == if r.failed then r else Run(failing, r.st, r.out, b)
    decreases |a|
  {
    if a == [] {
      assert a + b == b;
    } else {
      assert (a + b)[0] == a[0];
      assert (a + b)[1..] == a[1..] + b;
      var e := Step(failing, st, a[0]);
      if !e.err {
        RunAppend(failing, e.st, out + e.emit, a[1..], b);
      }
    }
  }

  /** Writing one rune is one step of the loop. */
  lemma RunOne(failing: bool, st: State, out: string, c: char)
    ensures var e := Step(failing, st, c);
      Run(failing, st, out, [c]) == if e.err then Outcome(e.st, out, true) else Outcome(e.st, out + e.emit, false)
  {
    var e := Step(failing, st, c);
    if !e.err {
      assert [c][1..] == [];
    }
  }

  /**
   * On a working sink nothing is lost or reordered: what was forwarded
   * followed by what is still held is the old output, the old held bytes
   * and the input.
   */
  lemma {:induction false} Transparent(st: State, out: string, s: string)
    requires Drained(st)
    ensures var r := Run(false, st, out, s);
      !r.failed && Drained(r.st) && r.out + r.st.ansiseq == out + st.ansiseq + s
    decreases |s|
  {
    if s != [] {
      var e := Step(false, st, s[0]);
      StepTransparent(st, s[0]);
      assert Run(false, st, out, s) == Run(false, e.st, out + e.emit, s[1..]);
      Transparent(e.st, out + e.emit, s[1..]);
      Regroup(out, e.emit, e.st.ansiseq, st.ansiseq, s);
    }
  }

  lemma Regroup(out: string, emit: string, held: string, held0: string, s: string)
    requires s != [] && emit + held == held0 + [s[0]]
    ensures out + emit + held + s[1..] == out + held0 + s
  {
    calc {
      out + emit + held + s[1..];
      out + (emit + held) + s[1..];
      out + held0 + ([s[0]] + s[1..]);
      { assert [s[0]] + s[1..] == s; }
      out + held0 + s;
    }
  }

  lemma StepTransparent(st: State, c: char)
    requires Drained(st)
    ensures var e := Step(false, st, c);
      !e.err && Drained(e.st) && e.emit + e.st.ansiseq == st.ansiseq + [c]
  {
  }

  /** Outside a sequence nothing is held; a failed `WriteTo` is the only way to break this. */
  predicate Drained(st: State) {
    st.ansi || st.ansiseq == []
  }

  /** A working sink never makes `Write` fail. */
  lemma {:induction false} WorkingNeverFails(st: State, out: string, s: string)
    ensures !Run(false, st, out, s).failed
    decreases |s|
  {
    if s != [] {
      var e := Step(false, st, s[0]);
      WorkingNeverFails(e.st, out + e.emit, s[1..]);
    }
  }

  /** A failing sink never receives anything. */
  lemma {:induction false} FailingForwardsNothing(st: State, out: string, s: string)
    ensures Run(true, st, out, s).out == out
    decreases |s|
  {
    if s != [] {
      var e := Step(true, st, s[0]);
      if !e.err {
        FailingForwardsNothing(e.st, out + e.emit, s[1..]);
      }
    }
  }

  /** A printable rune outside a sequence makes `Write` fail on a failing sink, before any change. */
  lemma FailsOnPrintable(st: State, out: string, s: string)
    requires !st.ansi && s != [] && s[0] != ESC
    ensures Run(true, st, out, s) == Outcome(st, out, true)
  {
  }

  /** Text without ESC outside a sequence goes straight through. */
  lemma {:induction false} PlainPassesThrough(st: State, out: string, s: string)
    requires !st.ansi && ESC !in s
    ensures Run(false, st, out, s) == Outcome(st, out + s, false)
    decreases |s|
  {
    if s != [] {
      PlainPassesThrough(st, out + [s[0]], s[1..]);
      assert [s[0]] + s[1..] == s;
    }
  }

  /** An unterminated sequence is held back and marks the colour state as changed. */
  lemma {:induction false} HeldUntilTerminated(failing: bool, st: State, out: string, body: string)
    requires NoLetter(body)
    ensures Run(failing, st, out, [ESC] + body)
         == Outcome(st.(ansi := true, seqchanged := true, ansiseq := st.ansiseq + [ESC] + body), out, false)
    decreases |body|
  {
    if body == [] {
      assert [ESC] + body == [ESC];
    } else {
      var last := body[|body| - 1];
      var init := body[..|body| - 1];
      assert [ESC] + body == ([ESC] + init) + [last];
      RunAppend(failing, st, out, [ESC] + init, [last]);
      HeldUntilTerminated(failing, st, out, init);
    }
  }

  /** Every rune of `body` is ESC or not a letter. */
  predicate NoLetter(body: string) {
    forall i :: 0 <= i < |body| ==> body[i] == ESC || !LetterTerminator(body[i])
  }

  /** A complete colour sequence other than a reset is forwarded and appended to `lastseq`. */
  lemma ColorRemembered(st: State, out: string, body: string)
    requires !st.ansi && st.ansiseq == []
    requires NoLetter(body) && !HasSuffix([ESC] + body + ['m'], "[0m")
    ensures var q := [ESC] + body + ['m'];
      Run(false, st, out, q) == Outcome(st.(seqchanged := true, lastseq := st.lastseq + q), out + q, false)
  {
    var q := [ESC] + body + ['m'];
    var held := st.(ansi := true, seqchanged := true, ansiseq := [ESC] + body);
    var done := st.(seqchanged := true, lastseq := st.lastseq + q);
    HeldUntilTerminated(false, st, out, body);
    assert st.ansiseq + [ESC] + body == [ESC] + body;
    assert Step(false, held, 'm') == Effect(done, q, false);
    assert ['m'][1..] == [];
    assert Run(false, held, out, ['m']) == Outcome(done, out + q, false);
    RunAppend(false, st, out, [ESC] + body, ['m']);
  }

  /** A reset sequence is forwarded and forgets the remembered colours. */
  lemma ResetForgets(st: State, out: string)
    requires !st.ansi && st.ansiseq == []
    ensures Run(false, st, out, RESET) == Outcome(st.(seqchanged := false, lastseq := []), out + RESET, false)
  {
    assert RESET == [ESC] + "[0" + ['m'];
    RunAppend(false, st, out, [ESC] + "[0", ['m']);
    HeldUntilTerminated(false, st, out, "[0");
  }

  /** A colour, plain text and a reset leave a zero writer as it was and forward everything. */
  lemma ColorTextReset(out: string, body: string, text: string)
    requires NoLetter(body) && !HasSuffix([ESC] + body + ['m'], "[0m") && ESC !in text
    ensures var q := [ESC] + body + ['m'];
      Run(false, Initial, out, q + text + RESET) == Outcome(Initial, out + q + text + RESET, false)
  {
    var q := [ESC] + body + ['m'];
    ColorRemembered(Initial, out, body);
    var s1 := Initial.(seqchanged := true, lastseq := q);
    assert Run(false, Initial, out, q) == Outcome(s1, out + q, false);
    PlainPassesThrough(s1, out + q, text);
    RunAppend(false, Initial, out, q, text);
    assert Run(false, Initial, out, q + text) == Outcome(s1, out + q + text, false);
    ResetForgets(s1, out + q + text);
    assert s1.(seqchanged := false, lastseq := []) == Initial;
    RunAppend(false, Initial, out, q + text, RESET);
  }

  /**
   * What `ResetAnsi` hands to the sink: the reset sequence when a sequence
   * has been seen since the last reset sequence. It is written to the sink
   * directly, so the writer's own state does not change.
   */
  function ResetOut(failing: bool, st: State): (s: string)
    ensures s == [] || s == RESET
    ensures s == RESET <==> st.seqchanged && !failing
  {
    if st.seqchanged && !failing then RESET else []
  }

  /** What `RestoreAnsi` hands to the sink: the remembered colour sequences, also directly. */
  function RestoreOut(failing: bool, st: State): (s: string)
    ensures !failing ==> s == st.lastseq
    ensures failing ==> s == []
  {
    if failing then [] else st.lastseq
  }

  /** `Writer`: `forward` is the `Forward` writer. */
  class Writer {
    const forward: Sink
    var ansi: bool
    var ansiseq: string
    var lastseq: string
    var seqchanged: bool

    /** The fields as one value. */
    function Fields(): State
      reads this
    {
      State.State(ansi, ansiseq, lastseq, seqchanged)
    }

    constructor (forward: Sink)
      ensures this.forward == forward && Fields() == Initial
    {
      this.forward := forward;
      ansi, ansiseq, lastseq, seqchanged := false, [], [], false;
    }

    /** `Write`: returns `len(b)` bytes unless forwarding a printable rune failed. */
    method Write(b: string) returns (n: nat, err: bool)
      modifies this, forward
      ensures var r := Run(forward.failing, old(Fields()), old(forward.data), b);
        Fields() == r.st && forward.data == r.out && err == r.failed
        && n == if r.failed then 0 else ByteLen(b)
    {
      ghost var st0, out0 := Fields(), forward.data;
      var i := 0;
      while i < |b|
        invariant 0 <= i <= |b|
        invariant Run(forward.failing, st0, out0, b) == Run(forward.failing, Fields(), forward.data, b[i..])
      {
        assert b[i..][0] == b[i] && b[i..][1..] == b[i + 1..];
        var c := b[i];
        ghost var e := Step(forward.failing, Fields(), c);
        ghost var d := forward.data;
        if c == ESC {
          ansi := true;
          seqchanged := true;
          ansiseq := ansiseq + [c];
        } else if ansi {
          ansiseq := ansiseq + [c];
          if LetterTerminator(c) {
            ansi := false;
            if HasSuffix(ansiseq, "[0m") {
              lastseq := [];
              seqchanged := false;
            } else if c == 'm' {
              lastseq := lastseq + ansiseq;
            }
            var _, failed := forward.Write(ansiseq);
            if !failed {
              ansiseq := [];
            }
          }
        } else {
          var _, failed := forward.Write([c]);
          if failed {
            return 0, true;
          }
        }
        assert Fields() == e.st && forward.data == d + e.emit;
        i := i + 1;
      }
      return ByteLen(b), false;
    }

    /** `LastSequence`: the SGR sequences in effect, empty or a run of complete sequences. */
    function LastSequence(): (s: string)
      reads this
      requires Valid(Fields())
      ensures s == [] || (s[0] == ESC && s[|s| - 1] == 'm')
    {
      lastseq
    }

    /** `ResetAnsi`: writes the reset sequence only when a sequence has been seen since the last reset. */
    method ResetAnsi()
      modifies forward
      ensures forward.data == old(forward.data) + ResetOut(forward.failing, Fields())
    {
      if !seqchanged {
        return;
      }
      var _, _ := forward.Write(RESET);
    }

    /** `RestoreAnsi`: writes the remembered sequences again. */
    method RestoreAnsi()
      modifies forward
      ensures forward.data == old(forward.data) + RestoreOut(forward.failing, Fields())
    {
      var _, _ := forward.Write(lastseq);
    }
  }
}

/** The behaviour pinned down by ansi/writer_test.go. */
module AnsiWriterExamples {
  import opened Unicode
  import opened Text
  import opened AnsiWriter

  const Color: string := "\U{1B}[38;2;249;38;114m"

  /**
   * Writing "\x1B[38;2;249;38;114mfoo\x1B[0m" through a zero writer forwards it
   * unchanged, leaves `LastSequence` empty and makes `ResetAnsi` silent.
   */
  lemma ColoredFooThenReset(out: string)
    ensures var r := Run(false, Initial, out, Color + "foo" + RESET);
      r == Outcome(Initial, out + Color + "foo" + RESET, false)
  {
    ColorShape();
    ColorTextReset(out, ColorBody, "foo");
  }

  const ColorBody: string := "[38;2;249;38;114"

  lemma ColorShape()
    ensures Color == [ESC] + ColorBody + ['m']
    ensures NoLetter(ColorBody) && !HasSuffix(Color, "[0m")
  {
  }

  /** Writing "foo" to a failing sink reports the error. */
  lemma FooOnFailingSink(out: string)
    ensures Run(true, Initial, out, "foo").failed
  {
    FailsOnPrintable(Initial, out, "foo");
  }
}
