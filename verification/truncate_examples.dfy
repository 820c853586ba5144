/**
 * The behaviour pinned down by truncate/truncate_test.go. The ASCII cases
 * hold for any segmentation and widths that meet the assumptions of the
 * model; the styled case also assumes the terminator class of
 * ansi/buffer.go, that `uniseg` puts every rune of its input in a cluster
 * of its own, and that 你 and 好 take two cells each.
 */
module TruncateExamples {
  import opened Unicode
  import opened Text
  import opened AnsiWidth
  import opened Truncate
  import AnsiWriter
  import AnsiWriterExamples

  /** What the ASCII cases need of the collaborators. */
  ghost predicate Plain(env: Env) {
    IsSegmenter(env.seg) && env.marker == ESC
  }

  /** Input narrower than the width passes through: "foo" at 10. */
  lemma NoOp(env: Env, s: string)
    requires Plain(env) && s == "foo"
    ensures WithTail(env, s, 10, []) == "foo"
  {
    PlainWithTail(env, s, 10, []);
  }

  /** A basic cut, also `String("foobar", 3)` and `Bytes`: "foobar" at 3 gives "foo". */
  lemma Basic(env: Env, s: string)
    requires Plain(env) && s == "foobar"
    ensures WithTail(env, s, 3, []) == "foo"
  {
    PlainWithTail(env, s, 3, []);
    assert s[..3] == "foo";
  }

  /** The tail is charged against the width: "foobar" at 4 with "." gives "foo.". */
  lemma WithDot(env: Env, s: string, tail: string)
    requires Plain(env) && s == "foobar" && tail == "."
    ensures WithTail(env, s, 4, tail) == "foo."
  {
    PlainWithTail(env, s, 4, tail);
    assert s[..3] + tail == "foo.";
  }

  /** Input exactly as wide as the width is kept whole: "foo" at 3. */
  lemma SameWidth(env: Env, s: string)
    requires Plain(env) && s == "foo"
    ensures WithTail(env, s, 3, []) == "foo"
  {
    PlainWithTail(env, s, 3, []);
  }

  /** A tail wider than the width is all that is written: "foo" at 2 with "..." gives "...". */
  lemma TailLonger(env: Env, s: string, tail: string)
    requires Plain(env) && s == "foo" && tail == "..."
    ensures WithTail(env, s, 2, tail) == "..."
  {
    PlainWithTail(env, s, 2, tail);
  }

  /** Through `NewWriterPipe`, the forward writer receives "fo" of "foo" at 2. */
  lemma Pipe(env: Env, s: string, out: string)
    requires Plain(env) && s == "foo"
    ensures var r := Written(env, [], false, Fresh(2), out, s);
      r.out + r.after == out + "fo"
  {
    PlainCut(env, s, 2, [], out);
    assert s[..2] == "fo";
  }

  /** A forward writer that fails makes `Write` fail on the first visible cluster. */
  lemma Error(env: Env, s: string, out: string)
    requires Plain(env) && s == "foo"
    ensures Written(env, [], true, Fresh(2), out, s).err
  {
    PrintableClusters(env, s);
    var cs := Singletons(s);
    assert cs[0] == "f";
    AnsiWriter.FailsOnPrintable(AnsiWriter.Initial, out, "f");
    assert Next(env, true, 2, Meter(false, 0), AnsiWriter.Initial, out, cs[0]).failed;
  }

  /** What the styled case needs of the collaborators. */
  ghost predicate Styled(env: Env, s: string) {
    && env.marker == ESC
    && (forall c :: env.isTerm(c) == SeqTerminator(c))
    && env.seg(s) == Singletons(s)
    && env.clusterWidth("你") == 2 && env.clusterWidth("好") == 2
  }

  /**
   * A cut inside styled text keeps the style, drops the rest, and resets:
   * "\x1B[38;2;249;38;114m你好\x1B[0m" at 3 gives "\x1B[38;2;249;38;114m你\x1B[0m".
   */
  lemma StyledCut(env: Env, s: string)
    requires s == AnsiWriterExamples.Color + "你好" + RESET && Styled(env, s)
    ensures WithTail(env, s, 3, []) == AnsiWriterExamples.Color + "你" + RESET
  {
    var body := AnsiWriterExamples.ColorBody;
    AnsiWriterExamples.ColorShape();
    assert forall i :: 0 <= i < |body| ==> !SeqTerminator(body[i]);
    var rest := "好" + RESET;
    assert s == AnsiWriterExamples.Color + ['你'] + rest && rest[0] == '好';
    StyledCutWith(env, s, AnsiWriterExamples.Color, body, '你', '好', rest);
  }

  /** The styled case for any colour sequence, two wide runes and anything after them. */
  lemma StyledCutWith(env: Env, s: string, color: string, body: string, x: char, y: char, rest: string)
    requires color == [ESC] + body + ['m'] && AnsiWriter.NoLetter(body) && !HasSuffix(color, "[0m")
    requires env.marker == ESC && env.isTerm('m') && forall i :: 0 <= i < |body| ==> !env.isTerm(body[i])
    requires x != ESC && y != ESC && env.clusterWidth([x]) == 2 && env.clusterWidth([y]) == 2
    requires s == color + [x] + rest && rest != [] && rest[0] == y && env.seg(s) == Singletons(s)
    ensures WithTail(env, s, 3, []) == color + [x] + RESET
  {
    var l := StyledLoop(env, s, color, body, x, y, rest);
    WrittenAfterLoop(env, [], false, Fresh(3), [], s, l);
  }

  /** The loop of the styled case stops at the second wide rune, with the style remembered. */
  lemma StyledLoop(env: Env, s: string, color: string, body: string, x: char, y: char, rest: string) returns (l: Stop)
    requires color == [ESC] + body + ['m'] && AnsiWriter.NoLetter(body) && !HasSuffix(color, "[0m")
    requires env.marker == ESC && env.isTerm('m') && forall i :: 0 <= i < |body| ==> !env.isTerm(body[i])
    requires x != ESC && y != ESC && env.clusterWidth([x]) == 2 && env.clusterWidth([y]) == 2
    requires s == color + [x] + rest && rest != [] && rest[0] == y && env.seg(s) == Singletons(s)
    ensures l == Forward(env, false, 3, Meter(false, 0), AnsiWriter.Initial, [], env.seg(s))
    ensures l.cut && l.out == color + [x] && l.aw == AnsiWriter.Initial.(seqchanged := true, lastseq := color)
  {
    var head := color + [x];
    var a, b := Singletons(head), Singletons(rest);
    SingletonsAppend(head, rest);
    HeadMeasure(env, color, body, x);
    ForwardFits(env, 3, Meter(false, 0), AnsiWriter.Initial, [], a);
    var st1 := HeadForwarded(color, body, x);
    ForwardAppend(env, false, 3, Meter(false, 0), AnsiWriter.Initial, [], a, b);
    RestCut(env, y, rest, st1, head);
    l := Forward(env, false, 3, Meter(false, 0), AnsiWriter.Initial, [], env.seg(s));
  }

  /** The style and the first wide rune measure two cells. */
  lemma HeadMeasure(env: Env, color: string, body: string, x: char)
    requires color == [ESC] + body + ['m']
    requires env.marker == ESC && env.isTerm('m') && forall i :: 0 <= i < |body| ==> !env.isTerm(body[i])
    requires x != ESC && env.clusterWidth([x]) == 2
    ensures MeasureAll(env, Meter(false, 0), Singletons(color + [x])) == Meter(false, 2)
  {
    SequenceMeasure(env, 0, body, 'm');
    SingletonsAppend(color, [x]);
    MeasureAppend(env, Meter(false, 0), Singletons(color), Singletons([x]));
    assert Singletons([x]) == [[x]];
  }

  /** The `ansi.Writer` forwards the style and the first wide rune, and remembers the style. */
  lemma HeadForwarded(color: string, body: string, x: char) returns (st1: AnsiWriter.State)
    requires color == [ESC] + body + ['m'] && AnsiWriter.NoLetter(body) && !HasSuffix(color, "[0m") && x != ESC
    ensures st1 == AnsiWriter.Initial.(seqchanged := true, lastseq := color)
    ensures var head := color + [x];
      AnsiWriter.Run(false, AnsiWriter.Initial, [], Concat(Singletons(head))) == AnsiWriter.Outcome(st1, head, false)
  {
    st1 := AnsiWriter.Initial.(seqchanged := true, lastseq := color);
    AnsiWriter.ColorRemembered(AnsiWriter.Initial, [], body);
    AnsiWriter.PlainPassesThrough(st1, color, [x]);
    AnsiWriter.RunAppend(false, AnsiWriter.Initial, [], color, [x]);
  }

  /** The second wide rune runs past the budget: the loop stops there. */
  lemma RestCut(env: Env, y: char, rest: string, st1: AnsiWriter.State, head: string)
    requires env.marker == ESC && y != ESC && env.clusterWidth([y]) == 2 && rest != [] && rest[0] == y
    ensures var l := Forward(env, false, 3, Meter(false, 2), st1, head, Singletons(rest));
      l.cut && l.aw == st1 && l.out == head
  {
    assert Singletons(rest)[0] == [y];
  }
}
