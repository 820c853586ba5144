/** The behaviour pinned down by indent/indent_test.go. */
module IndentExamples {
  import opened Text
  import opened Indent
  import opened Fills
  import AnsiWriter
  import AnsiWriterExamples

  /** No indentation: "foobar" passes through. */
  lemma NoOp()
    ensures Indented(Config(0, Spaces), "foobar") == "foobar"
  {
    Unindented(Spaces, "foobar");
  }

  /** "foobar" indented by four gives "    foobar"; by three, "   foobar". */
  lemma Basic()
    ensures Indented(Config(4, Spaces), "foobar") == "    foobar"
    ensures Indented(Config(3, Spaces), "foobar") == "   foobar"
  {
    assert Indented(Config(4, Spaces), "foobar") == "    foobar" by {
      OneLine(Config(4, Spaces), "foobar");
      assert FillText(Spaces, 4) == "    ";
    }
    assert Indented(Config(3, Spaces), "foobar") == "   foobar" by {
      OneLine(Config(3, Spaces), "foobar");
      assert FillText(Spaces, 3) == "   ";
    }
  }

  /** A single non-empty line of plain text gets the indentation in front. */
  lemma OneLine(cfg: Config, a: string)
    requires PlainFill(cfg.fill) && NEWLINE !in FillText(cfg.fill, cfg.indent)
    requires a != [] && ESC !in a && NEWLINE !in a
    ensures Indented(cfg, a) == FillText(cfg.fill, cfg.indent) + a
  {
    IndentedPlain(cfg, a);
    LinesPlain(a);
  }

  /** Every line is indented: "foo\nbar" by four gives "    foo\n    bar". */
  lemma MultiLine(s: string)
    requires s == "foo\nbar"
    ensures Indented(Config(4, Spaces), s) == "    foo\n    bar"
  {
    assert s == "foo" + [NEWLINE] + "bar";
    TwoLines(Config(4, Spaces), "foo", "bar");
  }

  /** Two lines of plain text, each indented. */
  lemma TwoLines(cfg: Config, a: string, b: string)
    requires PlainFill(cfg.fill) && NEWLINE !in FillText(cfg.fill, cfg.indent)
    requires ESC !in a && NEWLINE !in a && b != [] && ESC !in b && NEWLINE !in b
    ensures var pre := FillText(cfg.fill, cfg.indent);
      Indented(cfg, a + [NEWLINE] + b) == pre + a + [NEWLINE] + pre + b
  {
    var s := a + [NEWLINE] + b;
    assert ESC !in s;
    IndentedPlain(cfg, s);
    LinesCons(a, b);
    LinesPlain(b);
    var pre := FillText(cfg.fill, cfg.indent);
    var ls := [a, b];
    assert Lines(s) == ls && ls[1..] == [b];
  }

  /**
   * A colour at the start of the text is forwarded first; the indentation
   * before "foo" is preceded by a reset and followed by the colour again:
   * "\x1B[38;2;249;38;114mfoo" by four gives
   * "\x1B[38;2;249;38;114m\x1B[0m    \x1B[38;2;249;38;114mfoo".
   */
  lemma Colored()
    ensures var q := AnsiWriterExamples.Color;
      Indented(Config(4, Spaces), q + "foo") == q + RESET + "    " + q + "foo"
  {
    AnsiWriterExamples.ColorShape();
    ColoredWith(Config(4, Spaces), AnsiWriterExamples.ColorBody, AnsiWriterExamples.Color, 'f', "oo");
    assert FillText(Spaces, 4) == "    ";
    assert "foo" == ['f'] + "oo";
  }

  lemma ColoredWith(cfg: Config, body: string, q: string, c: char, text: string)
    requires q == [ESC] + body + ['m'] && AnsiWriter.NoLetter(body) && !HasSuffix(q, "[0m")
    requires PlainFill(cfg.fill) && c != ESC && c != NEWLINE && ESC !in text && NEWLINE !in text
    ensures Indented(cfg, q + ([c] + text)) == q + RESET + FillText(cfg.fill, cfg.indent) + q + ([c] + text)
  {
    StyleRun(cfg, Fresh, [], body);
    var st1 := Fresh.(aw := AnsiWriter.Initial.(seqchanged := true, lastseq := q));
    assert Run(cfg, false, Fresh, [], q) == Outcome(st1, [] + q, false);
    var o := q + RESET + FillText(cfg.fill, cfg.indent) + q + [c];
    assert Run(cfg, false, st1, q, [c]) == Outcome(st1.(skipIndent := true), o, false) by {
      LineStart(cfg, st1, q, c);
    }
    TextRun(cfg, st1.(skipIndent := true), o, text);
    RunAppend(cfg, false, st1, q, [c], text);
    RunAppend(cfg, false, Fresh, [], q, [c] + text);
    assert o + text == q + RESET + FillText(cfg.fill, cfg.indent) + q + ([c] + text);
  }

  /** Two writes, "foo\n" then "bar", indent like one: "    foo\n    bar". */
  method TwoWrites() returns (r: string)
    ensures r == "    foo\n    bar"
  {
    r := WriteTwice(4, Spaces);
    SpacesJoined();
  }

  lemma SpacesJoined()
    ensures var cfg := Config(4, Spaces);
      var r1 := Run(cfg, false, Fresh, [], "foo\n");
      Run(cfg, false, r1.st, r1.out, "bar").out == "    foo\n    bar"
  {
    assert FillText(Spaces, 4) == "    ";
    Joined(Config(4, Spaces));
    SpacesText("    ", "foo", "bar");
  }

  lemma SpacesText(pre: string, a: string, b: string)
    requires pre == "    " && a == "foo" && b == "bar"
    ensures pre + a + [NEWLINE] + pre + b == "    foo\n    bar"
  {
  }

  /** The same with a callback writing ".": "..foo\n..bar". */
  method TwoWritesDots() returns (r: string)
    ensures r == "..foo\n..bar"
  {
    r := WriteTwice(2, Unit("."));
    DotsJoined();
  }

  lemma DotsJoined()
    ensures var cfg := Config(2, Unit("."));
      var r1 := Run(cfg, false, Fresh, [], "foo\n");
      Run(cfg, false, r1.st, r1.out, "bar").out == "..foo\n..bar"
  {
    Dots(Config(2, Unit(".")), "foo\n", "bar");
  }

  lemma Dots(cfg: Config, a: string, b: string)
    requires cfg == Config(2, Unit(".")) && a == "foo\n" && b == "bar"
    ensures var r1 := Run(cfg, false, Fresh, [], a);
      Run(cfg, false, r1.st, r1.out, b).out == "..foo\n..bar"
  {
    assert FillText(cfg.fill, cfg.indent) == ".." by {
      assert Times(".", 2) == "..";
    }
    Joined(cfg);
    DotsText("..", "foo", "bar");
  }

  lemma DotsText(pre: string, a: string, b: string)
    requires pre == ".." && a == "foo" && b == "bar"
    ensures pre + a + [NEWLINE] + pre + b == "..foo\n..bar"
  {
  }

  /** Writes "foo\n" and then "bar" through a new writer and returns what reached the buffer. */
  method WriteTwice(indent: nat, fill: Fill) returns (r: string)
    ensures var cfg := Config(indent, fill);
      var r1 := Run(cfg, false, Fresh, [], "foo\n");
      r == Run(cfg, false, r1.st, r1.out, "bar").out
  {
    var buf := new Sink(false);
    var aw := new AnsiWriter.Writer(buf);
    var f := new Writer.NewWriter(aw, indent, fill);
    var _, _ := f.Write("foo\n");
    var _, _ := f.Write("bar");
    r := buf.data;
  }

  lemma Joined(cfg: Config)
    requires PlainFill(cfg.fill) && NEWLINE !in FillText(cfg.fill, cfg.indent)
    ensures var pre := FillText(cfg.fill, cfg.indent);
      var r1 := Run(cfg, false, Fresh, [], "foo\n");
      Run(cfg, false, r1.st, r1.out, "bar").out == pre + "foo" + [NEWLINE] + pre + "bar"
  {
    var a, b := "foo\n", "bar";
    assert a + b == "foo" + [NEWLINE] + "bar";
    TwoLines(cfg, "foo", "bar");
    WorkingNeverFails(cfg, Fresh, [], a);
    RunAppend(cfg, false, Fresh, [], a, b);
  }

  /** A writer straight over a buffer: "foo" by two gives "  foo". */
  method Pipe() returns (r: string)
    ensures r == "  foo"
  {
    var buf := new Sink(false);
    var aw := new AnsiWriter.Writer(buf);
    var f := new Writer.NewWriter(aw, 2, Spaces);
    var _, _ := f.Write("foo");
    r := buf.data;
    OneLine(Config(2, Spaces), "foo");
  }

  /** On a failing buffer, "foo" reports the error, at the start of a line and within one. */
  method Errors() returns (first: bool, second: bool)
    ensures first && second
  {
    var buf := new Sink(true);
    var aw := new AnsiWriter.Writer(buf);
    var f := new Writer.NewWriter(aw, 2, Spaces);
    ghost var st := f.Fields();
    var _, e1 := f.Write("foo");
    FailsOnRune(Config(2, Spaces), st, [], "foo");
    f.skipIndent := true;
    ghost var st2 := f.Fields();
    var _, e2 := f.Write("foo");
    assert st2.ansi == st2.aw.ansi by {
      assert st2.ansi == st.ansi && st2.aw == st.aw by {
        FailsOnIndentation(Config(2, Spaces), st, [], "foo");
      }
    }
    FailsOnRune(Config(2, Spaces), st2, f.forward.forward.data, "foo");
    first, second := e1, e2;
  }
}
