/**
 * The behaviour pinned down by wordwrap/wordwrap_test.go, replayed on the
 * model. The inputs are printable ASCII, so each holds for every cell-width
 * function.
 */
module WordWrapExamples {
  import opened Unicode
  import opened SoftWrap
  import opened WordWrap
  import opened PlainTraces

  /** With no limit the input passes through, trailing whitespace included. */
  lemma NoLimitPassesThrough(width: WidthFn)
    ensures Wrapped(width, "foobar\n ", 0) == "foobar\n "
  {
    WrappedUnlimited(width, "foobar\n ");
  }

  /** Nothing to wrap: "foo" at 4 gives "foo". */
  lemma ShortPassesThrough(width: WidthFn)
    ensures Wrapped(width, "foo", 4) == "foo"
  {
    ShortReplayed();
    WrappedByTrace(width, 4, "foo", ShortTrace, "foo");
  }

  /** A word longer than the limit is not broken: "foobarfoo" at 4 gives "foobarfoo". */
  lemma LongWordPassesThrough(width: WidthFn)
    ensures Wrapped(width, "foobarfoo", 4) == "foobarfoo"
  {
    LongWordReplayed();
    WrappedByTrace(width, 4, "foobarfoo", LongWordTrace, "foobarfoo");
  }

  /** Lines are broken at whitespace: "foo bar foo" at 4 gives "foo\nbar\nfoo". */
  lemma BreakAtSpaces(width: WidthFn)
    ensures Wrapped(width, "foo bar foo", 4) == "foo\nbar\nfoo"
  {
    SpacesReplayed();
    WrappedByTrace(width, 4, "foo bar foo", SpacesTrace, "foo\nbar\nfoo");
  }

  /** A hyphen is a breakpoint: "foo-foobar" at 4 gives "foo-\nfoobar". */
  lemma BreakAfterHyphen(width: WidthFn)
    ensures Wrapped(width, "foo-foobar", 4) == "foo-\nfoobar"
  {
    HyphenReplayed();
    WrappedByTrace(width, 4, "foo-foobar", HyphenTrace, "foo-\nfoobar");
  }

  /** Pending space is flushed before a breakpoint: "foo --bar" at 9 gives "foo --bar". */
  lemma SpaceBeforeBreakpoints(width: WidthFn)
    ensures Wrapped(width, "foo --bar", 9) == "foo --bar"
  {
    SpaceBeforeHyphensReplayed();
    WrappedByTrace(width, 9, "foo --bar", SpaceBeforeHyphensTrace, "foo --bar");
  }

  /** Lines are broken at whitespace even when the words are too long: "foo bars foobars" at 4 gives "foo\nbars\nfoobars". */
  lemma LongWordsNotBroken(width: WidthFn)
    ensures Wrapped(width, "foo bars foobars", 4) == "foo\nbars\nfoobars"
  {
    LongWordsReplayed();
    WrappedByTrace(width, 4, "foo bars foobars", LongWordsTrace, "foo\nbars\nfoobars");
  }

  /** A word that would run past the limit moves to the next line: "foo bar" at 5 gives "foo\nbar". */
  lemma WordMovedToNextLine(width: WidthFn)
    ensures Wrapped(width, "foo bar", 5) == "foo\nbar"
  {
    OverrunReplayed();
    WrappedByTrace(width, 5, "foo bar", OverrunTrace, "foo\nbar");
  }

  /** Whitespace that fits is kept, and a tab is one column: "foo\nb\t a\n bar" at 4 gives "foo\nb\t a\n bar". */
  lemma FittingSpaceKept(width: WidthFn)
    ensures Wrapped(width, "foo\nb\t a\n bar", 4) == "foo\nb\t a\n bar"
  {
    FittingSpaceReplayed();
    WrappedByTrace(width, 4, "foo\nb\t a\n bar", FittingSpaceTrace, "foo\nb\t a\n bar");
  }

  /** Whitespace that does not fit is dropped: "foo    \nb   ar   " at 4 gives "foo\nb\nar". */
  lemma OverflowingSpaceDropped(width: WidthFn)
    ensures Wrapped(width, "foo    \nb   ar   ", 4) == "foo\nb\nar"
  {
    OverflowingSpaceReplayed();
    WrappedByTrace(width, 4, "foo    \nb   ar   ", OverflowingSpaceTrace, "foo\nb\nar");
  }

  /** A line end at the end of the input is kept: "foo bar foo\n" at 4 gives "foo\nbar\nfoo\n". */
  lemma TrailingBreakKept(width: WidthFn)
    ensures Wrapped(width, "foo bar foo\n", 4) == "foo\nbar\nfoo\n"
  {
    TrailingBreakReplayed();
    WrappedByTrace(width, 4, "foo bar foo\n", TrailingBreakTrace, "foo\nbar\nfoo\n");
  }

  /** Explicit line ends are always kept: "\nfoo bar\n\n\nfoo\n" at 4 gives "\nfoo\nbar\n\n\nfoo\n". */
  lemma ExplicitBreaksKept(width: WidthFn)
    ensures Wrapped(width, "\nfoo bar\n\n\nfoo\n", 4) == "\nfoo\nbar\n\n\nfoo\n"
  {
    ExplicitBreaksReplayed();
    WrappedByTrace(width, 4, "\nfoo bar\n\n\nfoo\n", ExplicitBreaksTrace, "\nfoo\nbar\n\n\nfoo\n");
  }

  /** The complete example: " This is a list: \n\n\t* foo\n\t* bar\n\n\n\t* foo  \nbar    " at 6 gives " This\nis a\nlist: \n\n\t* foo\n\t* bar\n\n\n\t* foo\nbar". */
  lemma CompleteExample(width: WidthFn)
    ensures Wrapped(width, " This is a list: \n\n\t* foo\n\t* bar\n\n\n\t* foo  \nbar    ", 6) == " This\nis a\nlist: \n\n\t* foo\n\t* bar\n\n\n\t* foo\nbar"
  {
    CompleteRun(Defaults(width, 6));
  }

  /** `String("foo bar", 3)` gives "foo\nbar". */
  lemma StringBreaks(width: WidthFn)
    ensures Wrapped(width, "foo bar", 3) == "foo\nbar"
  {
    NarrowReplayed();
    WrappedByTrace(width, 3, "foo bar", NarrowTrace, "foo\nbar");
  }
}
