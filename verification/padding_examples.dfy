/**
 * The behaviour pinned down by padding/padding_test.go. Every case holds for
 * any cell-width function that gives printable ASCII one cell.
 */
module PaddingExamples {
  import opened Unicode
  import opened Text
  import opened AnsiWidth
  import opened Padding
  import AnsiWriter
  import AnsiWriterExamples
  import opened Fills

  /** No padding: "foobar" passes through. */
  lemma NoOp(width: WidthFn)
    ensures Padded(width, 0, "foobar") == "foobar"
  {
    Unpadded(width, "foobar");
  }

  /** A single line is filled up to ten cells: "foobar" gives "foobar    ". */
  lemma Basic(width: WidthFn, s: string)
    requires s == "foobar"
    ensures Padded(width, 10, s) == "foobar    "
  {
    OneLine(width, 10, s);
  }

  /** A printable line no wider than the padding is filled with spaces. */
  lemma OneLine(width: WidthFn, padding: nat, a: string)
    requires Printable(a) && 0 < |a| <= padding
    ensures Padded(width, padding, a) == a + Repeat(' ', padding - |a|)
  {
    PaddedPlain(width, padding, a);
    LinesPlain(a);
    PrintableSum(width, a);
  }

  /** Every line is padded: "foo\nbar" at 6 gives "foo   \nbar   ". */
  lemma MultiLine(width: WidthFn, s: string)
    requires s == "foo\nbar"
    ensures Padded(width, 6, s) == "foo   \nbar   "
  {
    assert s == "foo" + [NEWLINE] + "bar";
    TwoLines(width, 6, "foo", "bar");
  }

  /** Two printable lines no wider than the padding. */
  lemma TwoLines(width: WidthFn, padding: nat, a: string, b: string)
    requires Printable(a) && Printable(b) && |a| <= padding && 0 < |b| <= padding
    ensures Padded(width, padding, a + [NEWLINE] + b)
         == a + Repeat(' ', padding - |a|) + [NEWLINE] + b + Repeat(' ', padding - |b|)
  {
    var s := a + [NEWLINE] + b;
    PaddedPlain(width, padding, s);
    LinesCons(a, b);
    LinesPlain(b);
    PrintableSum(width, a);
    PrintableSum(width, b);
    assert Lines(s) == [a, b];
  }

  /** An empty last line is not padded: "foo\nbar\n" at 6 gives "foo   \nbar   \n". */
  lemma TrailingEmptyLine(width: WidthFn, s: string)
    requires s == "foo\nbar\n"
    ensures Padded(width, 6, s) == "foo   \nbar   \n"
  {
    assert s == "foo" + [NEWLINE] + ("bar" + [NEWLINE] + []);
    TwoLinesEnded(width, 6, "foo", "bar");
  }

  /** Two printable lines no wider than the padding, each ended by a line end. */
  lemma TwoLinesEnded(width: WidthFn, padding: nat, a: string, b: string)
    requires Printable(a) && Printable(b) && |a| <= padding && |b| <= padding
    ensures Padded(width, padding, a + [NEWLINE] + (b + [NEWLINE] + []))
         == a + Repeat(' ', padding - |a|) + [NEWLINE] + (b + Repeat(' ', padding - |b|) + [NEWLINE])
  {
    var s := a + [NEWLINE] + (b + [NEWLINE] + []);
    PaddedPlain(width, padding, s);
    LinesCons(b, []);
    LinesCons(a, b + [NEWLINE] + []);
    PrintableSum(width, a);
    PrintableSum(width, b);
    assert Lines(s) == [a, b, []];
    var ls := [a, b, []];
    assert PaddedLines(width, padding, ls[2..]) == [];
  }

  /** A colour sequence takes no cells: "\x1B[38;2;249;38;114mfoo" at 6 gives the same with three spaces. */
  lemma Colored(width: WidthFn)
    ensures Padded(width, 6, AnsiWriterExamples.Color + "foo") == AnsiWriterExamples.Color + "foo   "
  {
    var q, body := AnsiWriterExamples.Color, AnsiWriterExamples.ColorBody;
    AnsiWriterExamples.ColorShape();
    ColoredWith(width, body, q, "foo");
  }

  /** A colour sequence followed by plain text, padded and closed. */
  lemma ColoredWith(width: WidthFn, body: string, q: string, text: string)
    requires q == [ESC] + body + ['m'] && AnsiWriter.NoLetter(body) && !HasSuffix(q, "[0m") && NEWLINE !in body
    requires Printable(text) && NEWLINE !in text && 0 < |text| <= 6
    ensures Padded(width, 6, q + text) == q + text + Repeat(' ', 6 - |text|)
  {
    var cfg := Config(width, 6, Spaces);
    StyleRun(cfg, Fresh, [], body);
    var aw1 := AnsiWriter.Initial.(seqchanged := true, lastseq := q);
    var st1 := Fresh.(aw := aw1);
    assert Run(cfg, false, Fresh, [], q) == Outcome(st1, [] + q, false);
    assert ESC !in text;
    TextRun(cfg, st1, [] + q, text);
    PrintableSum(width, text);
    RunAppend(cfg, false, Fresh, [], q, text);
    var st2 := st1.(lineLen := |text|);
    assert Run(cfg, false, Fresh, [], q + text) == Outcome(st2, [] + q + text, false);
    CloseRule(cfg, st2, [] + q + text);
  }

  /** Two writes, "foo\n" then "bar", pad like one: "foo   \nbar   ". */
  method TwoWrites(width: WidthFn) returns (r: string)
    ensures r == "foo   \nbar   "
  {
    var f := new Writer.NewWriter(width, 6, Spaces);
    var _, _ := f.Write("foo\n");
    var _, _ := f.Write("bar");
    var _ := f.Close();
    r := f.String();
    Joined(width);
  }

  lemma Joined(width: WidthFn)
    ensures var cfg := Config(width, 6, Spaces);
      var r1 := Run(cfg, false, Fresh, [], "foo\n");
      var r2 := Run(cfg, false, r1.st, r1.out, "bar");
      Closed(cfg, false, r2.st, r2.out).out == "foo   \nbar   "
  {
    var a, b := "foo\n", "bar";
    assert a + b == "foo\nbar";
    MultiLine(width, a + b);
    WorkingNeverFails(Config(width, 6, Spaces), Fresh, [], a);
    SplitWrite(Config(width, 6, Spaces), a, b);
  }

  /** Two writes leave the writer as one write of both would. */
  lemma SplitWrite(cfg: Config, a: string, b: string)
    ensures var r1 := Run(cfg, false, Fresh, [], a);
      !r1.failed ==> Run(cfg, false, r1.st, r1.out, b) == Run(cfg, false, Fresh, [], a + b)
  {
    RunAppend(cfg, false, Fresh, [], a, b);
  }

  /** Through `NewWriterPipe`, the forward writer receives "foobar    ". */
  method Pipe(width: WidthFn) returns (r: string)
    ensures r == "foobar    "
  {
    var forward := new Sink(false);
    var f := new Writer.NewWriterPipe(forward, width, 10, Spaces);
    var _, _ := f.Write("foobar");
    var _ := f.Close();
    r := forward.data;
    Basic(width, "foobar");
  }

  /** A fill function writing "." is called once per missing cell: `pad` at 4 gives "....". */
  lemma DotFill(width: WidthFn)
    ensures PadOut(Config(width, 4, Unit(".")), false, 0, AnsiWriter.Initial, []) == AnsiWriter.Outcome(AnsiWriter.Initial, "....", false)
  {
    FilledPlain(AnsiWriter.Initial, [], Unit("."), 4);
    assert Times(".", 4) == "....";
  }

  /**
   * On a failing forward writer, "foo\n", "\n" and `pad` all report the
   * error. The width of `f` is counted before its write fails, so the same
   * writer meets the later calls with `lineLen` 1 and a gap of 5.
   */
  lemma Errors(width: WidthFn)
    ensures var cfg := Config(width, 6, Spaces);
      var first := Run(cfg, true, Fresh, [], "foo\n");
      var second := Run(cfg, true, first.st, first.out, "\n");
      first.failed && first.st == State(1, false, AnsiWriter.Initial) &&
      second.failed && second.st == first.st && second.out == [] &&
      PadOut(cfg, true, second.st.lineLen, second.st.aw, second.out).failed
  {
    var cfg := Config(width, 6, Spaces);
    FailsOnPrintable(cfg, Fresh, [], "foo\n");
    var first := Run(cfg, true, Fresh, [], "foo\n");
    assert width('f') == 1;
    AnsiWriter.FailsOnPrintable(AnsiWriter.Initial, [], "f");
    assert first.st == State(1, false, AnsiWriter.Initial);
    assert width(NEWLINE) == 0;
    FailsOnGap(cfg, first.st, [], "\n");
    PadFailing(cfg, 1, AnsiWriter.Initial, []);
  }
}
