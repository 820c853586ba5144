/**
 * The behaviour pinned down by reflow_test.go, replayed on the model under
 * the default settings (one column per printable rune).
 */
module ReflowExamples {
  import opened SoftWrap
  import opened Reflow
  import opened PlainTraces

  /** Nothing to wrap: "foo" at 4 gives "foo". */
  lemma ShortPassesThrough()
    ensures Reflowed("foo", 4) == "foo"
  {
    ShortReplayed();
    ReflowedByTrace(4, "foo", ShortTrace, "foo");
  }

  /** A word longer than the limit is not broken: "foobarfoo" at 4 gives "foobarfoo". */
  lemma LongWordPassesThrough()
    ensures Reflowed("foobarfoo", 4) == "foobarfoo"
  {
    LongWordReplayed();
    ReflowedByTrace(4, "foobarfoo", LongWordTrace, "foobarfoo");
  }

  /** Lines are broken at whitespace: "foo bar foo" at 4 gives "foo\nbar\nfoo". */
  lemma BreakAtSpaces()
    ensures Reflowed("foo bar foo", 4) == "foo\nbar\nfoo"
  {
    SpacesReplayed();
    ReflowedByTrace(4, "foo bar foo", SpacesTrace, "foo\nbar\nfoo");
  }

  /** A hyphen is a breakpoint: "foo-foobar" at 4 gives "foo-\nfoobar". */
  lemma BreakAfterHyphen()
    ensures Reflowed("foo-foobar", 4) == "foo-\nfoobar"
  {
    HyphenReplayed();
    ReflowedByTrace(4, "foo-foobar", HyphenTrace, "foo-\nfoobar");
  }

  /** Lines are broken at whitespace even when the words are too long: "foo bars foobars" at 4 gives "foo\nbars\nfoobars". */
  lemma LongWordsNotBroken()
    ensures Reflowed("foo bars foobars", 4) == "foo\nbars\nfoobars"
  {
    LongWordsReplayed();
    ReflowedByTrace(4, "foo bars foobars", LongWordsTrace, "foo\nbars\nfoobars");
  }

  /** A word that would run past the limit moves to the next line: "foo bar" at 5 gives "foo\nbar". */
  lemma WordMovedToNextLine()
    ensures Reflowed("foo bar", 5) == "foo\nbar"
  {
    OverrunReplayed();
    ReflowedByTrace(5, "foo bar", OverrunTrace, "foo\nbar");
  }

  /** Whitespace that fits is kept, and a tab is one column: "foo\nb\t a\n bar" at 4 gives "foo\nb\t a\n bar". */
  lemma FittingSpaceKept()
    ensures Reflowed("foo\nb\t a\n bar", 4) == "foo\nb\t a\n bar"
  {
    FittingSpaceReplayed();
    ReflowedByTrace(4, "foo\nb\t a\n bar", FittingSpaceTrace, "foo\nb\t a\n bar");
  }

  /** Whitespace that does not fit is dropped: "foo    \nb   ar   " at 4 gives "foo\nb\nar". */
  lemma OverflowingSpaceDropped()
    ensures Reflowed("foo    \nb   ar   ", 4) == "foo\nb\nar"
  {
    OverflowingSpaceReplayed();
    ReflowedByTrace(4, "foo    \nb   ar   ", OverflowingSpaceTrace, "foo\nb\nar");
  }

  /** A line end at the end of the input is kept: "foo bar foo\n" at 4 gives "foo\nbar\nfoo\n". */
  lemma TrailingBreakKept()
    ensures Reflowed("foo bar foo\n", 4) == "foo\nbar\nfoo\n"
  {
    TrailingBreakReplayed();
    ReflowedByTrace(4, "foo bar foo\n", TrailingBreakTrace, "foo\nbar\nfoo\n");
  }

  /** Explicit line ends are always kept: "\nfoo bar\n\n\nfoo\n" at 4 gives "\nfoo\nbar\n\n\nfoo\n". */
  lemma ExplicitBreaksKept()
    ensures Reflowed("\nfoo bar\n\n\nfoo\n", 4) == "\nfoo\nbar\n\n\nfoo\n"
  {
    ExplicitBreaksReplayed();
    ReflowedByTrace(4, "\nfoo bar\n\n\nfoo\n", ExplicitBreaksTrace, "\nfoo\nbar\n\n\nfoo\n");
  }

  /** The complete example: " This is a list: \n\n\t* foo\n\t* bar\n\n\n\t* foo  \nbar    " at 6 gives " This\nis a\nlist: \n\n\t* foo\n\t* bar\n\n\n\t* foo\nbar". */
  lemma CompleteExample()
    ensures Reflowed(" This is a list: \n\n\t* foo\n\t* bar\n\n\n\t* foo  \nbar    ", 6) == " This\nis a\nlist: \n\n\t* foo\n\t* bar\n\n\n\t* foo\nbar"
  {
    CompleteRun(Defaults(6));
  }
}
