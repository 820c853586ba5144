/**
 * The behaviour pinned down by ansi/compressor/writer_test.go, for any
 * terminator class that recognises the reset sequence; the concrete cases
 * also assume the class of ansi/buffer.go.
 */
module CompressorExamples {
  import opened Unicode
  import opened Text
  import opened Compressor

  /** `q` is a complete colour sequence other than a reset. */
  ghost predicate Colour(isTerm: char -> bool, q: string, body: string) {
    q == [ESC] + body + ['m'] && Inside(ESC, isTerm, body) && !HasSuffix(q, "[0m")
  }

  /** A style, text, a reset, the same style again, more text and a reset: the inner reset and restyle go. */
  lemma Restyled(isTerm: char -> bool, s: string, q: string, body: string, t1: string, t2: string)
    requires ResetIsSequence(ESC, isTerm) && Colour(isTerm, q, body)
    requires t1 != [] && t2 != [] && ESC !in t1 && ESC !in t2
    requires s == q + t1 + RESET + q + t2 + RESET
    ensures Compressed(ESC, isTerm, s) == q + t1 + t2 + RESET
  {
    RestyledRun(isTerm, s, q, body, t1, t2);
  }

  lemma RestyledRun(isTerm: char -> bool, s: string, q: string, body: string, t1: string, t2: string)
    requires ResetIsSequence(ESC, isTerm) && Colour(isTerm, q, body)
    requires t1 != [] && t2 != [] && ESC !in t1 && ESC !in t2
    requires s == q + t1 + RESET + q + t2 + RESET
    ensures Run(ESC, isTerm, false, Initial, [], s) == Outcome(State(false, [], [], q, true), q + t1 + t2, false)
  {
    var s1 := State(false, [], q, [], false);
    var rest := (RESET + q) + (t2 + RESET);
    Opening(isTerm, q, body, t1);
    assert Run(ESC, isTerm, false, s1, q + t1, rest) == Outcome(State(false, [], [], q, true), q + t1 + t2, false) by {
      RestyledRest(isTerm, q, body, q + t1, t2);
    }
    Then(isTerm, Initial, [], q + t1, rest);
    Regroup(q, t1, RESET, q, t2, RESET);
  }

  lemma RestyledRest(isTerm: char -> bool, q: string, body: string, out: string, t2: string)
    requires ResetIsSequence(ESC, isTerm) && Colour(isTerm, q, body) && t2 != [] && ESC !in t2
    ensures var s1 := State(false, [], q, [], false);
      Run(ESC, isTerm, false, s1, out, (RESET + q) + (t2 + RESET)) == Outcome(State(false, [], [], q, true), out + t2, false)
  {
    var s1 := State(false, [], q, [], false);
    assert Run(ESC, isTerm, false, s1, out, RESET + q) == Outcome(s1, out, false) by {
      ResetThenSame(isTerm, s1, out, q, body);
    }
    assert Run(ESC, isTerm, false, s1, out, t2 + RESET) == Outcome(State(false, [], [], q, true), out + t2, false) by {
      TextThenReset(isTerm, s1, out, t2);
    }
    Then(isTerm, s1, out, RESET + q, t2 + RESET);
  }

  /** Two different styles, each closed by a reset, pass through unchanged. */
  lemma Distinct(isTerm: char -> bool, s: string, q1: string, body1: string, q2: string, body2: string, t1: string, t2: string)
    requires ResetIsSequence(ESC, isTerm) && Colour(isTerm, q1, body1) && Colour(isTerm, q2, body2) && q1 != q2
    requires t1 != [] && t2 != [] && ESC !in t1 && ESC !in t2
    requires s == q1 + t1 + RESET + q2 + t2 + RESET
    ensures Compressed(ESC, isTerm, s) == s
  {
    DistinctRun(isTerm, s, q1, body1, q2, body2, t1, t2);
  }

  lemma DistinctRun(isTerm: char -> bool, s: string, q1: string, body1: string, q2: string, body2: string, t1: string, t2: string)
    requires ResetIsSequence(ESC, isTerm) && Colour(isTerm, q1, body1) && Colour(isTerm, q2, body2) && q1 != q2
    requires t1 != [] && t2 != [] && ESC !in t1 && ESC !in t2
    requires s == q1 + t1 + RESET + q2 + t2 + RESET
    ensures Run(ESC, isTerm, false, Initial, [], s) == Outcome(State(false, [], [], q2, true), q1 + t1 + RESET + q2 + t2, false)
  {
    var s1 := State(false, [], q1, [], false);
    var rest := (RESET + q2) + (t2 + RESET);
    Opening(isTerm, q1, body1, t1);
    assert Run(ESC, isTerm, false, s1, q1 + t1, rest) == Outcome(State(false, [], [], q2, true), q1 + t1 + RESET + q2 + t2, false) by {
      DistinctRest(isTerm, q1, q2, body2, q1 + t1, t2);
    }
    Then(isTerm, Initial, [], q1 + t1, rest);
    Regroup(q1, t1, RESET, q2, t2, RESET);
  }

  lemma DistinctRest(isTerm: char -> bool, q1: string, q2: string, body2: string, out: string, t2: string)
    requires ResetIsSequence(ESC, isTerm) && Colour(isTerm, q2, body2) && q1 != q2 && t2 != [] && ESC !in t2
    ensures var s1 := State(false, [], q1, [], false);
      Run(ESC, isTerm, false, s1, out, (RESET + q2) + (t2 + RESET)) == Outcome(State(false, [], [], q2, true), out + RESET + q2 + t2, false)
  {
    var s1 := State(false, [], q1, [], false);
    var s3 := State(false, [], q2, [], false);
    assert Run(ESC, isTerm, false, s1, out, RESET + q2) == Outcome(s3, out + RESET + q2, false) by {
      ResetThenOther(isTerm, s1, out, q2, body2);
    }
    assert Run(ESC, isTerm, false, s3, out + RESET + q2, t2 + RESET) == Outcome(State(false, [], [], q2, true), out + RESET + q2 + t2, false) by {
      TextThenReset(isTerm, s3, out + RESET + q2, t2);
    }
    Then(isTerm, s1, out, RESET + q2, t2 + RESET);
  }

  lemma Regroup(a: string, b: string, c: string, d: string, e: string, f: string)
    ensures a + b + c + d + e + f == (a + b) + ((c + d) + (e + f))
  {
  }

  /** A zero writer forwards a leading colour and text, and remembers the colour. */
  lemma Opening(isTerm: char -> bool, q: string, body: string, t: string)
    requires ResetIsSequence(ESC, isTerm) && Colour(isTerm, q, body) && t != [] && ESC !in t
    ensures Run(ESC, isTerm, false, Initial, [], q + t) == Outcome(State(false, [], q, [], false), q + t, false)
  {
    StyleThenText(isTerm, Initial, [], q, body, t);
    assert [] + q == q && [] + q + t == q + t;
  }

  /** A colour and text from a writer that owes nothing: both are forwarded, the colour remembered. */
  lemma StyleThenText(isTerm: char -> bool, st: State, out: string, q: string, body: string, t: string)
    requires !st.ansi && st.ansiseq == [] && !st.resetreq && st.prevlastseq == []
    requires ResetIsSequence(ESC, isTerm) && Colour(isTerm, q, body) && t != [] && ESC !in t
    ensures Run(ESC, isTerm, false, st, out, q + t)
         == Outcome(State(false, [], st.lastseq + q, [], false), out + q + t, false)
  {
    var s1 := State(false, [], st.lastseq + q, [], false);
    assert Run(ESC, isTerm, false, st, out, q) == Outcome(s1, out + q, false) by {
      StyleForwarded(ESC, isTerm, st, out, body);
      assert out + [] + q == out + q;
    }
    assert Run(ESC, isTerm, false, s1, out + q, t) == Outcome(s1, out + q + t, false) by {
      TextForwarded(ESC, isTerm, s1, out + q, t);
      assert out + q + [] + t == out + q + t;
    }
    Then(isTerm, st, out, q, t);
  }

  /** Text and then a reset: the text is forwarded, the reset owed. */
  lemma TextThenReset(isTerm: char -> bool, st: State, out: string, t: string)
    requires !st.ansi && st.ansiseq == [] && !st.resetreq
    requires ResetIsSequence(ESC, isTerm) && t != [] && ESC !in t
    ensures Run(ESC, isTerm, false, st, out, t + RESET)
         == Outcome(st.(prevlastseq := st.lastseq, lastseq := [], resetreq := true), out + t, false)
  {
    assert Run(ESC, isTerm, false, st, out, t) == Outcome(st, out + t, false) by {
      TextForwarded(ESC, isTerm, st, out, t);
      assert out + [] + t == out + t;
    }
    assert Run(ESC, isTerm, false, st, out + t, RESET) == Outcome(st.(prevlastseq := st.lastseq, lastseq := [], resetreq := true), out + t, false) by {
      ResetDeferred(ESC, isTerm, false, st, out + t);
    }
    Then(isTerm, st, out, t, RESET);
  }

  /** A reset followed by the very style it clears: nothing is written and the style stays remembered. */
  lemma ResetThenSame(isTerm: char -> bool, st: State, out: string, q: string, body: string)
    requires st == State(false, [], q, [], false)
    requires ResetIsSequence(ESC, isTerm) && Colour(isTerm, q, body)
    ensures Run(ESC, isTerm, false, st, out, RESET + q) == Outcome(st, out, false)
  {
    var s2 := st.(prevlastseq := q, lastseq := [], resetreq := true);
    assert Run(ESC, isTerm, false, st, out, RESET) == Outcome(s2, out, false) by {
      ResetDeferred(ESC, isTerm, false, st, out);
    }
    assert Run(ESC, isTerm, false, s2, out, q) == Outcome(st, out, false) by {
      RestyleDropped(ESC, isTerm, false, s2, out, body);
      assert [] + q == q;
    }
    Then(isTerm, st, out, RESET, q);
  }

  /** A reset followed by a different style: the reset is paid and the style forwarded. */
  lemma ResetThenOther(isTerm: char -> bool, st: State, out: string, q: string, body: string)
    requires !st.ansi && st.ansiseq == [] && !st.resetreq && st.lastseq != q
    requires ResetIsSequence(ESC, isTerm) && Colour(isTerm, q, body)
    ensures Run(ESC, isTerm, false, st, out, RESET + q) == Outcome(State(false, [], q, [], false), out + RESET + q, false)
  {
    var s2 := st.(prevlastseq := st.lastseq, lastseq := [], resetreq := true);
    assert Run(ESC, isTerm, false, st, out, RESET) == Outcome(s2, out, false) by {
      ResetDeferred(ESC, isTerm, false, st, out);
    }
    assert Run(ESC, isTerm, false, s2, out, q) == Outcome(State(false, [], q, [], false), out + RESET + q, false) by {
      StyleForwarded(ESC, isTerm, s2, out, body);
      assert [] + q == q;
    }
    Then(isTerm, st, out, RESET, q);
  }

  /** A first piece that is written without failing hands its state and output on to the rest. */
  lemma Then(isTerm: char -> bool, st: State, out: string, a: string, b: string)
    requires !Run(ESC, isTerm, false, st, out, a).failed
    ensures var r := Run(ESC, isTerm, false, st, out, a);
      Run(ESC, isTerm, false, st, out, a + b) == Run(ESC, isTerm, false, r.st, r.out, b)
  {
    RunAppend(ESC, isTerm, false, st, out, a, b);
  }

  const Pink: string := "\U{1B}[38;2;249;38;114m"
  const PinkBody: string := "[38;2;249;38;114"
  const Pinker: string := "\U{1B}[38;2;249;38;115m"
  const PinkerBody: string := "[38;2;249;38;115"

  lemma PinkShapes(isTerm: char -> bool)
    requires forall c :: isTerm(c) == SeqTerminator(c)
    ensures ResetIsSequence(ESC, isTerm)
    ensures Colour(isTerm, Pink, PinkBody) && Colour(isTerm, Pinker, PinkerBody) && Pink != Pinker
  {
    assert Pink[|Pink| - 2] != Pinker[|Pinker| - 2];
  }

  /** "\x1B[..114mre\x1B[0m\x1B[..115mflow\x1B[0m" has nothing to compress. */
  lemma NothingToCompress(isTerm: char -> bool, s: string)
    requires forall c :: isTerm(c) == SeqTerminator(c)
    requires s == Pink + "re" + RESET + Pinker + "flow" + RESET
    ensures Compressed(ESC, isTerm, s) == s
  {
    PinkShapes(isTerm);
    Distinct(isTerm, s, Pink, PinkBody, Pinker, PinkerBody, "re", "flow");
  }

  /** "\x1B[..114mre\x1B[0m\x1B[..114mflow\x1B[0m" becomes "\x1B[..114mreflow\x1B[0m". */
  lemma ResetBeforeSameStyle(isTerm: char -> bool, s: string)
    requires forall c :: isTerm(c) == SeqTerminator(c)
    requires s == Pink + "re" + RESET + Pink + "flow" + RESET
    ensures Compressed(ESC, isTerm, s) == Pink + "reflow" + RESET
  {
    PinkShapes(isTerm);
    Restyled(isTerm, s, Pink, PinkBody, "re", "flow");
    assert "re" + "flow" == "reflow";
  }

  /** Writing "foo" to a failing sink returns the error. */
  lemma FooOnFailingSink(isTerm: char -> bool)
    ensures Run(ESC, isTerm, true, Initial, [], "foo").failed
  {
    FailsOnPrintable(ESC, isTerm, Initial, [], "foo");
  }
}
