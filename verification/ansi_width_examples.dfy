/** The behaviour pinned down by ansi/buffer_test.go, under a concrete cell width. */
module AnsiWidthExamples {
  import opened Unicode
  import opened Text
  import opened AnsiWidth

  /** Cell widths assumed for the examples: the two ideographs are wide, everything else narrow. */
  function TestWidth(c: char): nat {
    if c < ' ' then 0 else if c == '你' || c == '好' then 2 else 1
  }

  const Body: string := "[38;2;249;38;114"
  const Color: string := "\U{1B}[38;2;249;38;114m"

  lemma BodyIsOpen()
    ensures NoTerminator(SeqTerminator, Body)
    ensures Color == [ESC] + Body + ['m']
  {}

  /** `PrintableRuneWidth("\x1B[38;2;249;38;114mfoo") == 3`. */
  lemma ColoredFooWidth()
    ensures PrintableWidth(TestWidth, Color + "foo") == 3
  {
    BodyIsOpen();
    SkipSequence(TestWidth, Body, 'm', "foo");
    PlainWidth(TestWidth, "foo");
  }

  const Reverse: string := "\U{1B}[7m"

  lemma ReverseShape()
    ensures Reverse == [ESC] + "[7" + ['m'] && NoTerminator(SeqTerminator, "[7")
  {}

  /** Width of a reverse-video sequence followed by `rest`. */
  lemma ReverseThen(rest: string)
    ensures PrintableWidth(TestWidth, Reverse + rest) == PrintableWidth(TestWidth, rest)
  {
    ReverseShape();
    SkipSequence(TestWidth, "[7", 'm', rest);
  }

  lemma ColorThen(rest: string)
    ensures PrintableWidth(TestWidth, Color + rest) == PrintableWidth(TestWidth, rest)
  {
    BodyIsOpen();
    SkipSequence(TestWidth, Body, 'm', rest);
  }

  lemma WideThen(c: char, rest: string)
    requires c == '你' || c == '好'
    ensures PrintableWidth(TestWidth, [c] + rest) == 2 + PrintableWidth(TestWidth, rest)
  {
    SkipRune(TestWidth, c, rest);
  }

  lemma ResetWidth()
    ensures PrintableWidth(TestWidth, RESET) == 0
  {
    assert RESET == [ESC] + "[0" + ['m'] + [];
    SkipSequence(TestWidth, "[0", 'm', []);
  }

  lemma ReverseWidth()
    ensures PrintableWidth(TestWidth, Reverse) == 0
  {
    ReverseThen([]);
    assert Reverse + [] == Reverse;
  }

  /** "\x1B[38;2;249;38;114m你\x1B[7m好\x1B[0m" */
  const Sample: string := Color + "你" + Reverse + "好" + RESET

  lemma SampleWidth()
    ensures PrintableWidth(TestWidth, Sample) == 4
  {
    calc {
      PrintableWidth(TestWidth, Sample);
      { assert Sample == Color + (['你'] + (Reverse + (['好'] + RESET))); ColorThen(['你'] + (Reverse + (['好'] + RESET))); }
      PrintableWidth(TestWidth, ['你'] + (Reverse + (['好'] + RESET)));
      { WideThen('你', Reverse + (['好'] + RESET)); ReverseThen(['好'] + RESET); WideThen('好', RESET); ResetWidth(); }
      4;
    }
  }

  lemma CutAfterWide()
    ensures FirstOver(TestWidth, Sample, 2, 0) == |Color + "你" + Reverse|
  {
    var k := |Color + "你" + Reverse|;
    calc {
      PrintableWidth(TestWidth, Sample[..k]);
      { assert Sample[..k] == Color + (['你'] + Reverse); ColorThen(['你'] + Reverse); }
      PrintableWidth(TestWidth, ['你'] + Reverse);
      { WideThen('你', Reverse); ReverseWidth(); }
      2;
    }
    calc {
      PrintableWidth(TestWidth, Sample[..k + 1]);
      { assert Sample[..k + 1] == Color + (['你'] + (Reverse + ['好'])); ColorThen(['你'] + (Reverse + ['好'])); }
      PrintableWidth(TestWidth, ['你'] + (Reverse + ['好']));
      { WideThen('你', Reverse + ['好']); ReverseThen(['好']); WideThen('好', []); }
      4;
    }
    CutAt(TestWidth, Sample, 2, k);
  }

  /** Truncating `Sample` to 2 cells keeps 你 and the sequences around it. */
  lemma TruncateWideToTwo()
    ensures Truncated(TestWidth, Sample, 2, "") == Color + "你" + Reverse + RESET
    ensures PrintableWidth(TestWidth, Color + "你" + Reverse + RESET) == 2
  {
    SampleWidth();
    CutAfterWide();
    assert Sample[..|Color + "你" + Reverse|] == Color + "你" + Reverse;
    calc {
      PrintableWidth(TestWidth, Color + "你" + Reverse + RESET);
      { assert Color + "你" + Reverse + RESET == Color + (['你'] + (Reverse + RESET)); ColorThen(['你'] + (Reverse + RESET)); }
      PrintableWidth(TestWidth, ['你'] + (Reverse + RESET));
      { WideThen('你', Reverse + RESET); ReverseThen(RESET); ResetWidth(); }
      2;
    }
  }

  lemma CutBeforeWide()
    ensures FirstOver(TestWidth, Sample, 1, 0) == |Color|
  {
    var k := |Color|;
    assert Sample[..k] == Color + [];
    ColorThen([]);
    calc {
      PrintableWidth(TestWidth, Sample[..k + 1]);
      { assert Sample[..k + 1] == Color + (['你'] + []); ColorThen(['你'] + []); }
      PrintableWidth(TestWidth, ['你'] + []);
      { WideThen('你', []); }
      2;
    }
    CutAt(TestWidth, Sample, 1, k);
  }

  /** Truncating `Sample` to 1 cell keeps only the opening colour. */
  lemma TruncateWideToOne()
    ensures Truncated(TestWidth, Sample, 1, "") == Color + RESET
    ensures PrintableWidth(TestWidth, Color + RESET) == 0
  {
    SampleWidth();
    CutBeforeWide();
    assert Sample[..|Color|] == Color;
    ColorThen(RESET);
    ResetWidth();
  }

  /** "It’s me!" fits in 10 cells and is returned unchanged. */
  lemma TruncateFits()
    ensures Truncated(TestWidth, "It’s me!", 10, "") == "It’s me!"
    ensures PrintableWidth(TestWidth, "It’s me!") == 8
  {
    PlainWidth(TestWidth, "It’s me!");
  }

  /** "It’s \x1B[7mme!" cut at 5 cells keeps the sequence that precedes the cut. */
  lemma TruncateBeforeStyledWord()
    ensures var s := "It’s " + Reverse + "me!";
      Truncated(TestWidth, s, 5, "") == "It’s " + Reverse + RESET
      && PrintableWidth(TestWidth, "It’s " + Reverse + RESET) == 5
  {
    var p := "It’s ";
    var s := p + Reverse + "me!";
    var k := |p + Reverse|;
    assert ESC !in p && SumWidth(TestWidth, p) == 5;
    calc {
      PrintableWidth(TestWidth, s);
      { assert s == p + (Reverse + "me!"); SkipPlain(TestWidth, p, Reverse + "me!"); ReverseThen("me!"); PlainWidth(TestWidth, "me!"); }
      8;
    }
    calc {
      PrintableWidth(TestWidth, s[..k]);
      { assert s[..k] == p + Reverse; SkipPlain(TestWidth, p, Reverse); ReverseWidth(); }
      5;
    }
    calc {
      PrintableWidth(TestWidth, s[..k + 1]);
      { assert s[..k + 1] == p + (Reverse + "m"); SkipPlain(TestWidth, p, Reverse + "m"); ReverseThen("m"); PlainWidth(TestWidth, "m"); }
      6;
    }
    CutAt(TestWidth, s, 5, k);
    assert p + Reverse + RESET == p + (Reverse + RESET);
    SkipPlain(TestWidth, p, Reverse + RESET);
    ReverseThen(RESET);
    ResetWidth();
  }
}
