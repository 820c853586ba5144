/**
 * Reference traces of the plain-text inputs of wordwrap/wordwrap_test.go and
 * reflow_test.go. Each input is cut into words, runs of blanks, line ends and
 * hyphens; each step records what it appends to the buffer and the pending
 * space, word and line length after it. `SoftWrap.Replays` checks a trace
 * step by step against `SoftWrap.PlainNext`, and both writers run that loop
 * on such text.
 */
module PlainTraces {
  import opened Unicode
  import opened SoftWrap

  /** One word that fits. "foo" at 4 gives "foo". */
  const ShortTrace: Trace :=
    Then("foo", "", State("", "", "foo", 0, false),
    Done)

  lemma ShortSteps()
    ensures Valid(4, Empty, ShortTrace)
  {
  }

  lemma ShortPieces()
    ensures Pieces(ShortTrace)
  {
  }

  lemma ShortInput()
    ensures Input(ShortTrace) == "foo"
  {
  }

  lemma ShortOutput()
    ensures Placed(Last(Empty, ShortTrace)).buf == "foo"
  {
  }

  lemma ShortReplayed()
    ensures Replays(4, ShortTrace, "foo", "foo")
  {
    ShortSteps();
    ShortPieces();
    ShortInput();
    ShortOutput();
  }

  /** One word longer than the limit: it is never broken. "foobarfoo" at 4 gives "foobarfoo". */
  const LongWordTrace: Trace :=
    Then("foobarfoo", "", State("", "", "foobarfoo", 0, false),
    Done)

  lemma LongWordSteps()
    ensures Valid(4, Empty, LongWordTrace)
  {
  }

  lemma LongWordPieces()
    ensures Pieces(LongWordTrace)
  {
  }

  lemma LongWordInput()
    ensures Input(LongWordTrace) == "foobarfoo"
  {
  }

  lemma LongWordOutput()
    ensures Placed(Last(Empty, LongWordTrace)).buf == "foobarfoo"
  {
  }

  lemma LongWordReplayed()
    ensures Replays(4, LongWordTrace, "foobarfoo", "foobarfoo")
  {
    LongWordSteps();
    LongWordPieces();
    LongWordInput();
    LongWordOutput();
  }

  /** Each word after a blank overflows its line and moves down; the blank before it is dropped. "foo bar foo" at 4 gives "foo\nbar\nfoo". */
  const SpacesTrace: Trace :=
    Then("foo", "", State("", "", "foo", 0, false),
    Then(" ", "foo", State("", " ", "", 3, false),
    Then("bar", "\n", State("", "", "bar", 0, false),
    Then(" ", "bar", State("", " ", "", 3, false),
    Then("foo", "\n", State("", "", "foo", 0, false),
    Done)))))

  lemma SpacesSteps()
    ensures Valid(4, Empty, SpacesTrace)
  {
  }

  lemma SpacesPieces()
    ensures Pieces(SpacesTrace)
  {
  }

  lemma SpacesInput()
    ensures Input(SpacesTrace) == "foo bar foo"
  {
  }

  lemma SpacesOutput()
    ensures Placed(Last(Empty, SpacesTrace)).buf == "foo\nbar\nfoo"
  {
  }

  lemma SpacesReplayed()
    ensures Replays(4, SpacesTrace, "foo bar foo", "foo\nbar\nfoo")
  {
    SpacesSteps();
    SpacesPieces();
    SpacesInput();
    SpacesOutput();
  }

  /** A hyphen stays with the word before it; the word after it moves down however long it grows. "foo-foobar" at 4 gives "foo-\nfoobar". */
  const HyphenTrace: Trace :=
    Then("foo", "", State("", "", "foo", 0, false),
    Then("-", "foo-", State("", "", "", 3, false),
    Then("foobar", "\n", State("", "", "foobar", 0, false),
    Done)))

  lemma HyphenSteps()
    ensures Valid(4, Empty, HyphenTrace)
  {
  }

  lemma HyphenPieces()
    ensures Pieces(HyphenTrace)
  {
  }

  lemma HyphenInput()
    ensures Input(HyphenTrace) == "foo-foobar"
  {
  }

  lemma HyphenOutput()
    ensures Placed(Last(Empty, HyphenTrace)).buf == "foo-\nfoobar"
  {
  }

  lemma HyphenReplayed()
    ensures Replays(4, HyphenTrace, "foo-foobar", "foo-\nfoobar")
  {
    HyphenSteps();
    HyphenPieces();
    HyphenInput();
    HyphenOutput();
  }

  /** Pending space is placed before each hyphen. "foo --bar" at 9 gives "foo --bar". */
  const SpaceBeforeHyphensTrace: Trace :=
    Then("foo", "", State("", "", "foo", 0, false),
    Then(" ", "foo", State("", " ", "", 3, false),
    Then("-", " -", State("", "", "", 4, false),
    Then("-", "-", State("", "", "", 4, false),
    Then("bar", "", State("", "", "bar", 4, false),
    Done)))))

  lemma SpaceBeforeHyphensSteps()
    ensures Valid(9, Empty, SpaceBeforeHyphensTrace)
  {
  }

  lemma SpaceBeforeHyphensPieces()
    ensures Pieces(SpaceBeforeHyphensTrace)
  {
  }

  lemma SpaceBeforeHyphensInput()
    ensures Input(SpaceBeforeHyphensTrace) == "foo --bar"
  {
  }

  lemma SpaceBeforeHyphensOutput()
    ensures Placed(Last(Empty, SpaceBeforeHyphensTrace)).buf == "foo --bar"
  {
  }

  lemma SpaceBeforeHyphensReplayed()
    ensures Replays(9, SpaceBeforeHyphensTrace, "foo --bar", "foo --bar")
  {
    SpaceBeforeHyphensSteps();
    SpaceBeforeHyphensPieces();
    SpaceBeforeHyphensInput();
    SpaceBeforeHyphensOutput();
  }

  /** A break is written as soon as a word starts to overflow, so long words move down unbroken. "foo bars foobars" at 4 gives "foo\nbars\nfoobars". */
  const LongWordsTrace: Trace :=
    Then("foo", "", State("", "", "foo", 0, false),
    Then(" ", "foo", State("", " ", "", 3, false),
    Then("bars", "\n", State("", "", "bars", 0, false),
    Then(" ", "bars", State("", " ", "", 4, false),
    Then("foobars", "\n", State("", "", "foobars", 0, false),
    Done)))))

  lemma LongWordsSteps()
    ensures Valid(4, Empty, LongWordsTrace)
  {
  }

  lemma LongWordsPieces()
    ensures Pieces(LongWordsTrace)
  {
  }

  lemma LongWordsInput()
    ensures Input(LongWordsTrace) == "foo bars foobars"
  {
  }

  lemma LongWordsOutput()
    ensures Placed(Last(Empty, LongWordsTrace)).buf == "foo\nbars\nfoobars"
  {
  }

  lemma LongWordsReplayed()
    ensures Replays(4, LongWordsTrace, "foo bars foobars", "foo\nbars\nfoobars")
  {
    LongWordsSteps();
    LongWordsPieces();
    LongWordsInput();
    LongWordsOutput();
  }

  /** A word that would run past the limit moves down whole. "foo bar" at 5 gives "foo\nbar". */
  const OverrunTrace: Trace :=
    Then("foo", "", State("", "", "foo", 0, false),
    Then(" ", "foo", State("", " ", "", 3, false),
    Then("bar", "\n", State("", "", "bar", 0, false),
    Done)))

  lemma OverrunSteps()
    ensures Valid(5, Empty, OverrunTrace)
  {
  }

  lemma OverrunPieces()
    ensures Pieces(OverrunTrace)
  {
  }

  lemma OverrunInput()
    ensures Input(OverrunTrace) == "foo bar"
  {
  }

  lemma OverrunOutput()
    ensures Placed(Last(Empty, OverrunTrace)).buf == "foo\nbar"
  {
  }

  lemma OverrunReplayed()
    ensures Replays(5, OverrunTrace, "foo bar", "foo\nbar")
  {
    OverrunSteps();
    OverrunPieces();
    OverrunInput();
    OverrunOutput();
  }

  /** Blanks that fit stay, before a line end and after one; a tab counts as one. "foo\nb\t a\n bar" at 4 gives "foo\nb\t a\n bar". */
  const FittingSpaceTrace: Trace :=
    Then("foo", "", State("", "", "foo", 0, false),
    Then("\n", "foo\n", State("", "", "", 0, false),
    Then("b", "", State("", "", "b", 0, false),
    Then("\t ", "b", State("", "\t ", "", 1, false),
    Then("a", "", State("", "\t ", "a", 1, false),
    Then("\n", "\t a\n", State("", "", "", 0, false),
    Then(" ", "", State("", " ", "", 0, false),
    Then("bar", "", State("", " ", "bar", 0, false),
    Done))))))))

  lemma FittingSpaceSteps()
    ensures Valid(4, Empty, FittingSpaceTrace)
  {
  }

  lemma FittingSpacePieces()
    ensures Pieces(FittingSpaceTrace)
  {
  }

  lemma FittingSpaceInput()
    ensures Input(FittingSpaceTrace) == "foo\nb\t a\n bar"
  {
  }

  lemma FittingSpaceOutput()
    ensures Placed(Last(Empty, FittingSpaceTrace)).buf == "foo\nb\t a\n bar"
  {
  }

  lemma FittingSpaceReplayed()
    ensures Replays(4, FittingSpaceTrace, "foo\nb\t a\n bar", "foo\nb\t a\n bar")
  {
    FittingSpaceSteps();
    FittingSpacePieces();
    FittingSpaceInput();
    FittingSpaceOutput();
  }

  /** Blanks that overflow are dropped: before a line end, at a break and at the end. "foo    \nb   ar   " at 4 gives "foo\nb\nar". */
  const OverflowingSpaceTrace: Trace :=
    Then("foo", "", State("", "", "foo", 0, false),
    Then("    ", "foo", State("", "    ", "", 3, false),
    Then("\n", "\n", State("", "", "", 0, false),
    Then("b", "", State("", "", "b", 0, false),
    Then("   ", "b", State("", "   ", "", 1, false),
    Then("ar", "\n", State("", "", "ar", 0, false),
    Then("   ", "ar", State("", "   ", "", 2, false),
    Done)))))))

  lemma OverflowingSpaceSteps()
    ensures Valid(4, Empty, OverflowingSpaceTrace)
  {
  }

  lemma OverflowingSpacePieces()
    ensures Pieces(OverflowingSpaceTrace)
  {
  }

  lemma OverflowingSpaceInput()
    ensures Input(OverflowingSpaceTrace) == "foo    \nb   ar   "
  {
  }

  lemma OverflowingSpaceOutput()
    ensures Placed(Last(Empty, OverflowingSpaceTrace)).buf == "foo\nb\nar"
  {
  }

  lemma OverflowingSpaceReplayed()
    ensures Replays(4, OverflowingSpaceTrace, "foo    \nb   ar   ", "foo\nb\nar")
  {
    OverflowingSpaceSteps();
    OverflowingSpacePieces();
    OverflowingSpaceInput();
    OverflowingSpaceOutput();
  }

  /** A line end at the end of the input is kept. "foo bar foo\n" at 4 gives "foo\nbar\nfoo\n". */
  const TrailingBreakTrace: Trace :=
    Then("foo", "", State("", "", "foo", 0, false),
    Then(" ", "foo", State("", " ", "", 3, false),
    Then("bar", "\n", State("", "", "bar", 0, false),
    Then(" ", "bar", State("", " ", "", 3, false),
    Then("foo", "\n", State("", "", "foo", 0, false),
    Then("\n", "foo\n", State("", "", "", 0, false),
    Done))))))

  lemma TrailingBreakSteps()
    ensures Valid(4, Empty, TrailingBreakTrace)
  {
  }

  lemma TrailingBreakPieces()
    ensures Pieces(TrailingBreakTrace)
  {
  }

  lemma TrailingBreakInput()
    ensures Input(TrailingBreakTrace) == "foo bar foo\n"
  {
  }

  lemma TrailingBreakOutput()
    ensures Placed(Last(Empty, TrailingBreakTrace)).buf == "foo\nbar\nfoo\n"
  {
  }

  lemma TrailingBreakReplayed()
    ensures Replays(4, TrailingBreakTrace, "foo bar foo\n", "foo\nbar\nfoo\n")
  {
    TrailingBreakSteps();
    TrailingBreakPieces();
    TrailingBreakInput();
    TrailingBreakOutput();
  }

  /** Every line end is kept, empty lines included. "\nfoo bar\n\n\nfoo\n" at 4 gives "\nfoo\nbar\n\n\nfoo\n". */
  const ExplicitBreaksTrace: Trace :=
    Then("\n", "\n", State("", "", "", 0, false),
    Then("foo", "", State("", "", "foo", 0, false),
    Then(" ", "foo", State("", " ", "", 3, false),
    Then("bar", "\n", State("", "", "bar", 0, false),
    Then("\n", "bar\n", State("", "", "", 0, false),
    Then("\n", "\n", State("", "", "", 0, false),
    Then("\n", "\n", State("", "", "", 0, false),
    Then("foo", "", State("", "", "foo", 0, false),
    Then("\n", "foo\n", State("", "", "", 0, false),
    Done)))))))))

  lemma ExplicitBreaksSteps()
    ensures Valid(4, Empty, ExplicitBreaksTrace)
  {
  }

  lemma ExplicitBreaksPieces()
    ensures Pieces(ExplicitBreaksTrace)
  {
  }

  lemma ExplicitBreaksInput()
    ensures Input(ExplicitBreaksTrace) == "\nfoo bar\n\n\nfoo\n"
  {
  }

  lemma ExplicitBreaksOutput()
    ensures Placed(Last(Empty, ExplicitBreaksTrace)).buf == "\nfoo\nbar\n\n\nfoo\n"
  {
  }

  lemma ExplicitBreaksReplayed()
    ensures Replays(4, ExplicitBreaksTrace, "\nfoo bar\n\n\nfoo\n", "\nfoo\nbar\n\n\nfoo\n")
  {
    ExplicitBreaksSteps();
    ExplicitBreaksPieces();
    ExplicitBreaksInput();
    ExplicitBreaksOutput();
  }

  /** The blank fills the line, so the next word moves down. "foo bar" at 3 gives "foo\nbar". */
  const NarrowTrace: Trace :=
    Then("foo", "", State("", "", "foo", 0, false),
    Then(" ", "foo", State("", " ", "", 3, false),
    Then("bar", "\n", State("", "", "bar", 0, false),
    Done)))

  lemma NarrowSteps()
    ensures Valid(3, Empty, NarrowTrace)
  {
  }

  lemma NarrowPieces()
    ensures Pieces(NarrowTrace)
  {
  }

  lemma NarrowInput()
    ensures Input(NarrowTrace) == "foo bar"
  {
  }

  lemma NarrowOutput()
    ensures Placed(Last(Empty, NarrowTrace)).buf == "foo\nbar"
  {
  }

  lemma NarrowReplayed()
    ensures Replays(3, NarrowTrace, "foo bar", "foo\nbar")
  {
    NarrowSteps();
    NarrowPieces();
    NarrowInput();
    NarrowOutput();
  }

  /*
   * The complete example at 6, " This is a list: \n\n\t* foo\n\t* bar\n\n\n\t* foo  \nbar    ", gives
   * " This\nis a\nlist: \n\n\t* foo\n\t* bar\n\n\n\t* foo\nbar".
   * It is replayed in five segments, each from the state the previous one
   * ends in.
   */

  const CompleteAt1: State := State(" This\nis", " ", "", 2, false)

  const CompleteAt2: State := State(" This\nis a\nlist: \n\n", "", "", 0, false)

  const CompleteAt3: State := State(" This\nis a\nlist: \n\n\t* foo\n", "\t", "", 0, false)

  const CompleteAt4: State := State(" This\nis a\nlist: \n\n\t* foo\n\t* bar\n\n\n", "\t", "", 0, false)

  const CompleteEnd: State := State(" This\nis a\nlist: \n\n\t* foo\n\t* bar\n\n\n\t* foo\nbar", "    ", "", 3, false)

  /** Segment 0: " This is ". */
  const Complete0Trace: Trace :=
    Then(" ", "", State("", " ", "", 0, false),
    Then("This", "", State("", " ", "This", 0, false),
    Then(" ", " This", State("", " ", "", 5, false),
    Then("is", "\n", State("", "", "is", 0, false),
    Then(" ", "is", State("", " ", "", 2, false),
    Done)))))

  lemma Complete0Steps()
    ensures Valid(6, State("", "", "", 0, false), Complete0Trace)
  {
  }

  lemma Complete0Pieces()
    ensures Pieces(Complete0Trace)
  {
  }

  lemma Complete0Input()
    ensures Input(Complete0Trace) == " This is "
  {
  }

  lemma Complete0Last()
    ensures Last(Empty, Complete0Trace) == CompleteAt1
  {
  }

  lemma Complete0Continues()
    ensures Continues(6, Empty, Complete0Trace, " This is ", CompleteAt1)
  {
    Complete0Steps();
    Complete0Pieces();
    Complete0Input();
    Complete0Last();
  }

  /** Segment 1: "a list: \n\n". */
  const Complete1Trace: Trace :=
    Then("a", "", State("", " ", "a", 2, false),
    Then(" ", " a", State("", " ", "", 4, false),
    Then("list:", "\n", State("", "", "list:", 0, false),
    Then(" ", "list:", State("", " ", "", 5, false),
    Then("\n", " \n", State("", "", "", 0, false),
    Then("\n", "\n", State("", "", "", 0, false),
    Done))))))

  lemma Complete1Steps()
    ensures Valid(6, State("", " ", "", 2, false), Complete1Trace)
  {
  }

  lemma Complete1Pieces()
    ensures Pieces(Complete1Trace)
  {
  }

  lemma Complete1Input()
    ensures Input(Complete1Trace) == "a list: \n\n"
  {
  }

  lemma Complete1Last()
    ensures Last(CompleteAt1, Complete1Trace) == CompleteAt2
  {
  }

  lemma Complete1Continues()
    ensures Continues(6, CompleteAt1, Complete1Trace, "a list: \n\n", CompleteAt2)
  {
    Complete1Steps();
    Complete1Pieces();
    Complete1Input();
    Complete1Last();
  }

  /** Segment 2: "\t* foo\n\t". */
  const Complete2Trace: Trace :=
    Then("\t", "", State("", "\t", "", 0, false),
    Then("*", "", State("", "\t", "*", 0, false),
    Then(" ", "\t*", State("", " ", "", 2, false),
    Then("foo", "", State("", " ", "foo", 2, false),
    Then("\n", " foo\n", State("", "", "", 0, false),
    Then("\t", "", State("", "\t", "", 0, false),
    Done))))))

  lemma Complete2Steps()
    ensures Valid(6, State("", "", "", 0, false), Complete2Trace)
  {
  }

  lemma Complete2Pieces()
    ensures Pieces(Complete2Trace)
  {
  }

  lemma Complete2Input()
    ensures Input(Complete2Trace) == "\t* foo\n\t"
  {
  }

  lemma Complete2Last()
    ensures Last(CompleteAt2, Complete2Trace) == CompleteAt3
  {
  }

  lemma Complete2Continues()
    ensures Continues(6, CompleteAt2, Complete2Trace, "\t* foo\n\t", CompleteAt3)
  {
    Complete2Steps();
    Complete2Pieces();
    Complete2Input();
    Complete2Last();
  }

  /** Segment 3: "* bar\n\n\n\t". */
  const Complete3Trace: Trace :=
    Then("*", "", State("", "\t", "*", 0, false),
    Then(" ", "\t*", State("", " ", "", 2, false),
    Then("bar", "", State("", " ", "bar", 2, false),
    Then("\n", " bar\n", State("", "", "", 0, false),
    Then("\n", "\n", State("", "", "", 0, false),
    Then("\n", "\n", State("", "", "", 0, false),
    Then("\t", "", State("", "\t", "", 0, false),
    Done)))))))

  lemma Complete3Steps()
    ensures Valid(6, State("", "\t", "", 0, false), Complete3Trace)
  {
  }

  lemma Complete3Pieces()
    ensures Pieces(Complete3Trace)
  {
  }

  lemma Complete3Input()
    ensures Input(Complete3Trace) == "* bar\n\n\n\t"
  {
  }

  lemma Complete3Last()
    ensures Last(CompleteAt3, Complete3Trace) == CompleteAt4
  {
  }

  lemma Complete3Continues()
    ensures Continues(6, CompleteAt3, Complete3Trace, "* bar\n\n\n\t", CompleteAt4)
  {
    Complete3Steps();
    Complete3Pieces();
    Complete3Input();
    Complete3Last();
  }

  /** Segment 4: "* foo  \nbar    ". */
  const Complete4Trace: Trace :=
    Then("*", "", State("", "\t", "*", 0, false),
    Then(" ", "\t*", State("", " ", "", 2, false),
    Then("foo", "", State("", " ", "foo", 2, false),
    Then("  ", " foo", State("", "  ", "", 6, false),
    Then("\n", "\n", State("", "", "", 0, false),
    Then("bar", "", State("", "", "bar", 0, false),
    Then("    ", "bar", State("", "    ", "", 3, false),
    Done)))))))

  lemma Complete4Steps()
    ensures Valid(6, State("", "\t", "", 0, false), Complete4Trace)
  {
  }

  lemma Complete4Pieces()
    ensures Pieces(Complete4Trace)
  {
  }

  lemma Complete4Input()
    ensures Input(Complete4Trace) == "* foo  \nbar    "
  {
  }

  lemma Complete4Last()
    ensures Last(CompleteAt4, Complete4Trace) == CompleteEnd
  {
  }

  lemma Complete4Continues()
    ensures Continues(6, CompleteAt4, Complete4Trace, "* foo  \nbar    ", CompleteEnd)
  {
    Complete4Steps();
    Complete4Pieces();
    Complete4Input();
    Complete4Last();
  }

  lemma CompleteInput()
    ensures " This is a list: \n\n\t* foo\n\t* bar\n\n\n\t* foo  \nbar    " == " This is " + "a list: \n\n" + "\t* foo\n\t" + "* bar\n\n\n\t" + "* foo  \nbar    "
  {
  }

  /** Under either writer's settings at 6 the complete example gives its expected text. */
  lemma CompleteRun(r: Rules)
    requires PlainRules(r) && r.limit == 6
    ensures AddWord(r.width, Run(r, Empty, " This is a list: \n\n\t* foo\n\t* bar\n\n\n\t* foo  \nbar    ")).buf == " This\nis a\nlist: \n\n\t* foo\n\t* bar\n\n\n\t* foo\nbar"
  {
    Complete0Continues();
    Complete1Continues();
    Complete2Continues();
    Complete3Continues();
    Complete4Continues();
    CompleteInput();
    ContinueRun(r, Empty, Complete0Trace, " This is ", CompleteAt1);
    ContinueRun(r, CompleteAt1, Complete1Trace, "a list: \n\n", CompleteAt2);
    ContinueRun(r, CompleteAt2, Complete2Trace, "\t* foo\n\t", CompleteAt3);
    ContinueRun(r, CompleteAt3, Complete3Trace, "* bar\n\n\n\t", CompleteAt4);
    ContinueRun(r, CompleteAt4, Complete4Trace, "* foo  \nbar    ", CompleteEnd);
    RunAppend(r, Empty, " This is ", "a list: \n\n");
    RunAppend(r, Empty, " This is " + "a list: \n\n", "\t* foo\n\t");
    RunAppend(r, Empty, " This is " + "a list: \n\n" + "\t* foo\n\t", "* bar\n\n\n\t");
    RunAppend(r, Empty, " This is " + "a list: \n\n" + "\t* foo\n\t" + "* bar\n\n\n\t", "* foo  \nbar    ");
    PlainAddWord(r, CompleteEnd);
  }
}
