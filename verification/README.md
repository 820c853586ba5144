# reflow in Dafny

A verified model of the core of `reflow`, a Go library that lays out
terminal text. Every component treats ANSI escape sequences as taking no
width. An escape sequence runs from ESC through the first ASCII letter; this
is a crude version of the control sequences of section 5.4 of ECMA-48. Each
Go writer is a small state machine over runes, and the model keeps that
shape:

- a pure `State` datatype holding the writer's fields;
- a `Step` function for one iteration of the Go loop;
- a `Run` fold over the input, which stops at the first failed write;
- a `class` with the same fields, whose methods carry the Go loops with
  their invariants and are proved equal to `Step`/`Run` of the old state.

The properties the library promises are proved as lemmas about the folds.
Sinks are `Text.Sink` objects: an output sequence plus a flag saying whether
every write to them fails.

The modules follow the repository:

| module | models |
|---|---|
| `Unicode`, `Text` | UTF-8 byte counts, grapheme segmentation as a parameter, `strings.Split`/`Repeat`, `inGroup`, sinks |
| `AnsiWidth` | ansi/buffer.go and ansibuffer.go: the width scanner, `PrintableRuneWidth`, `Truncate`, `PrintableRuneCount` |
| `AnsiWriter` | ansi/writer.go: the style-tracking forwarder, `ResetAnsi`, `RestoreAnsi`, `LastSequence` |
| `SoftWrap`, `WordWrap`, `Reflow` | wordwrap/wordwrap.go and reflow.go: one shared engine and the two writers |
| `HardWrap` | wrap/wrap.go: the grapheme-cluster wrapper |
| `Truncate` | truncate/truncate.go: the truncating writer |
| `Compressor` | ansi/compressor/writer.go: the reset-dropping writer |
| `Fills`, `Padding`, `Indent` | padding/padding.go and indent/indent.go, with the fill callbacks as a fixed fill unit |
| `Dedent` | dedent/dedent.go |
| `PlainTraces` | reference traces of the plain-text inputs of the word-wrap and reflow tests |
| `*Examples` | the repository's test vectors, stated as lemmas or methods |

External functions are parameters with stated properties:

- `runewidth.RuneWidth` is a `WidthFn`, taking values 0 to 2. Printable
  ASCII has width 1 and control runes width 0.
- `uniseg` grapheme segmentation is a `Segmenter`. Its clusters are
  non-empty and concatenate back to the input. ESC is a cluster of its own.
  Two ASCII runes never share a cluster, except CR LF.
- `ansi.Marker` and `ansi.IsTerminator` are parameters of the hard wrapper,
  the truncating writer and the compressor.
- `unicode.IsSpace` is defined after Go's definition.

The two terminator classes of the source are both modelled:

- `0x40-0x5A | 0x61-0x7A` (`Text.SeqTerminator`) is used by ansi/buffer.go,
  ansibuffer.go, wordwrap/wordwrap.go and reflow.go.
- `0x41-0x5A | 0x61-0x7A` (`Text.LetterTerminator`) is used by
  ansi/writer.go, padding/padding.go and indent/indent.go.

Some behaviour of the source is kept as written and stated as a lemma:

- After a colour sequence, `ansi.Writer.ResetAnsi` writes a reset at every
  padded line end and every indented line start. It does this until a reset
  sequence arrives, because writing the reset does not clear `seqchanged`.
  See `Padding.LineEndRun`.
- The truncating writer takes the tail's width off its `width` field in
  place, so every later `Write` is charged for the tail again. See
  `Truncate.TailCharged`.
- `dedent.String` lets a line made only of spaces set the common
  indentation, so dedenting twice can trim more than once. See
  `DedentExamples.BlankLineCounts`.

## Model

The rows list the members whose contracts state the source's behaviour. The reference functions those contracts are stated in appear in the rows' wording rather than in rows of their own. These are the `Step`/`Run` folds of each writer, `Written`, `Wrapped`, `Reflowed`, `Padded`, `Indented`, `Dedented`, `Compressed`, `PrintableWidth` and `Truncated`, and `Truncate.Next`, `Forward` and `WithTail`. So do the getters `Padding.Writer.String` and `Truncate.Writer.String`, which return the own buffer.

| member | source | states |
|---|---|---|
| Unicode.RuneLen | ansi/compressor/writer.go:82-88 | a rune's UTF-8 encoding takes 1 to 4 bytes, and 1 exactly for ASCII |
| Unicode.ByteLen | ansi/writer.go:50 | `len(b)` of a string is at least its rune count, and 0 only for the empty string |
| Unicode.ByteLenAppend | ansi/writer.go:50 | byte length is additive over concatenation |
| Unicode.ConcatAppend | wrap/wrap.go:84-85 | joining clusters back is additive over cluster lists |
| Unicode.Singletons | wrap/wrap.go:85 | one cluster per rune is a valid segmentation of the text |
| Unicode.SingletonsAppend | wrap/wrap.go:85 | the one-rune-per-cluster segmentation is additive |
| Unicode.AsciiSegmentation | truncate/truncate.go:88 | any segmenter splits ASCII text without CR into one cluster per rune |
| Text.Repeat | dedent/dedent.go:33 | `strings.Repeat(" ", n)` has length n and every rune is the repeated one |
| Text.InGroup | wordwrap/wordwrap.go:86-93 | the linear search finds the rune exactly when it is in the group |
| Text.Visible | wordwrap/wordwrap.go:132-135 | the non-whitespace runes of a text are never more than its runes |
| Text.VisibleAppend | wordwrap/wordwrap.go:132-135 | the visible text of a concatenation is the concatenation of visible texts |
| Text.BlankInvisible | wordwrap/wordwrap.go:132-135 | text made of whitespace has no visible runes |
| Text.Lines | dedent/dedent.go:13 | `strings.Split(s, "\n")` returns at least one line |
| Text.LinesJoin | dedent/dedent.go:13 | splitting on line ends and joining again gives the text back, and no line holds a line end |
| Text.LinesPlain | dedent/dedent.go:13 | text without line ends splits into itself alone |
| Text.LinesCons | dedent/dedent.go:13 | the first line end closes the first line |
| Text.JoinLinesSplit | dedent/dedent.go:31-36 | joining lines that hold no line end and splitting again gives the lines back |
| Text.Sink.Write | ansi/writer_test.go:35-39 | a working sink appends and reports the byte count; a failing sink changes nothing and reports an error |
| AnsiWidth.ScanAppend | ansi/buffer.go:26-28 | scanning `a + b` is scanning `a` and then `b` from where it stopped |
| AnsiWidth.ScanShift | ansi/buffer.go:60-72 | the count reached so far only offsets the result; the in-sequence flag evolves independently of it |
| AnsiWidth.ScanGrows | ansi/buffer.go:60-72 | each rune adds a non-negative amount, so the count never decreases |
| AnsiWidth.PlainText | ansi/buffer.go:69-71 | without ESC the scanner adds every rune's width and stays outside sequences |
| AnsiWidth.InsideSequence | ansi/buffer.go:64-68 | inside a sequence, runes that do not terminate it count nothing |
| AnsiWidth.SequenceInvisible | ansi/buffer.go:60-68 | ESC, a body without terminator, and a terminator count 0 and leave the scanner outside |
| AnsiWidth.SkipSequence | ansi/buffer.go:60-68 | a complete leading sequence adds nothing to the width of what follows |
| AnsiWidth.SkipRune | ansi/buffer.go:69-71 | a leading rune other than ESC adds its own width |
| AnsiWidth.SkipPlain | ansi/buffer.go:69-71 | a leading run without ESC adds the sum of its widths |
| AnsiWidth.PlainWidth | ansi/buffer.go:22-31 | without ESC, `PrintableRuneWidth` is the sum of `RuneWidth` over the runes |
| AnsiWidth.PrintableWidthIsLength | ansi/buffer.go:22-31 | under a width of 1 per rune, the width of ESC-free text is its rune count |
| AnsiWidth.WidthAdditive | ansi/buffer.go:22-31 | width is additive over `a + b` when `a` ends outside a sequence |
| AnsiWidth.WidthMonotone | ansi/buffer.go:26-28 | width is monotone over rune prefixes |
| AnsiWidth.ScanPrefix | ansi/buffer.go:26-28 | extending a prefix by one rune is one call of `accPrintableRuneWidth` |
| AnsiWidth.CountBound | ansibuffer.go:23-25 | the printable count never exceeds the number of runes scanned |
| AnsiWidth.CountProperties | ansibuffer.go:14-26 | `PrintableRuneCount` is at most the rune count, and equals it when there is no ESC |
| AnsiWidth.FirstOver | ansi/buffer.go:44-49 | the search for the cut never moves backwards and stops within the string |
| AnsiWidth.FirstOverSpec | ansi/buffer.go:44-49 | the cut index is the first prefix whose width exceeds `w`; every shorter prefix fits |
| AnsiWidth.TruncatedLongestPrefix | ansi/buffer.go:44-55 | the truncating branch keeps the longest rune prefix of width at most `w`, then the reset, then the tail |
| AnsiWidth.TruncatedWidth | ansi/buffer.go:53-54 | the reset and tail never reopen a sequence: the result's width is the prefix's plus the tail's |
| AnsiWidth.PrintableRuneWidth | ansi/buffer.go:22-31 | the rune loop computes the printable width of the string |
| AnsiWidth.Truncate | ansi/buffer.go:35-56 | the method returns `s` when it fits and otherwise the prefix, the reset and the tail |
| AnsiWidth.PrintableRuneCount | ansibuffer.go:12-28 | the loop counts the runes outside escape sequences |
| AnsiWidth.Buffer.PrintableRuneWidth | ansi/buffer.go:17-19 | a buffer's width is `PrintableRuneWidth` of its contents |
| AnsiWidth.AnsiBuffer.PrintableRuneCount | ansibuffer.go:10-29 | a buffer's count is the printable count of its contents |
| AnsiWidthExamples.ColoredFooWidth | ansi/buffer_test.go:9-19 | a 24-bit colour sequence followed by "foo" is 3 cells wide |
| AnsiWidthExamples.TruncateWideToTwo | ansi/buffer_test.go:43-48 | cutting colour, 你, reverse video and 好 at 2 keeps 你 and the sequence after it, then resets; width 2 |
| AnsiWidthExamples.TruncateWideToOne | ansi/buffer_test.go:49-54 | cutting the same text at 1 keeps only the opening colour, then resets; width 0 |
| AnsiWidthExamples.TruncateFits | ansi/buffer_test.go:55-60 | "It’s me!" fits 10 cells, comes back unchanged, and is 8 wide |
| AnsiWidthExamples.TruncateBeforeStyledWord | ansi/buffer_test.go:61-66 | "It’s \x1B[7mme!" at 5 keeps the sequence before the cut and appends the reset although no style is open |
| AnsiWriter.StepValid | ansi/writer.go:19-47 | one byte keeps the writer in a reachable state: `lastseq` is a run of complete colour sequences |
| AnsiWriter.RunValid | ansi/writer.go:18-51 | `Write` keeps the writer in a reachable state |
| AnsiWriter.RunAppend | ansi/writer.go:18-51 | writing `a` and then `b` is writing `a + b`, unless writing `a` failed |
| AnsiWriter.RunOne | ansi/writer.go:19-47 | writing one rune is one iteration of the loop |
| AnsiWriter.Transparent | ansi/writer.go:18-51 | on a working sink, the forwarded output followed by the held `ansiseq` is the old output, the old held bytes and the input |
| AnsiWriter.StepTransparent | ansi/writer.go:19-47 | one byte on a working sink never fails and loses nothing |
| AnsiWriter.WorkingNeverFails | ansi/writer.go:43-46 | a working sink never makes `Write` fail |
| AnsiWriter.FailingForwardsNothing | ansi/writer.go:18-51 | a failing sink never receives anything |
| AnsiWriter.FailsOnPrintable | ansi/writer.go:42-46 | a printable rune outside a sequence makes `Write` fail on a failing sink, before any field changes |
| AnsiWriter.PlainPassesThrough | ansi/writer.go:42-46 | text without ESC outside a sequence goes straight through |
| AnsiWriter.HeldUntilTerminated | ansi/writer.go:20-26 | ESC and an unterminated body are held back, set the in-sequence flag and mark `seqchanged` |
| AnsiWriter.ColorRemembered | ansi/writer.go:35-40 | a complete colour sequence other than a reset is forwarded and appended to `lastseq`, not replacing it |
| AnsiWriter.ResetForgets | ansi/writer.go:31-34 | the reset sequence is forwarded, empties `lastseq` and clears `seqchanged` |
| AnsiWriter.ColorTextReset | ansi/writer.go:18-51 | a colour, text and a reset forward everything and leave a zero writer as it was |
| AnsiWriter.ResetOut | ansi/writer.go:57-62 | `ResetAnsi` writes the reset sequence exactly when `seqchanged` is set, and nothing otherwise |
| AnsiWriter.RestoreOut | ansi/writer.go:64-66 | `RestoreAnsi` writes exactly `lastseq` |
| AnsiWriter.Writer.constructor | ansi/writer.go:8-15 | a new writer has all fields zero and forwards to the given sink |
| AnsiWriter.Writer.Write | ansi/writer.go:18-51 | the byte loop leaves the fields and the sink as `Run` says; it returns `len(b)`, or 0 with the error |
| AnsiWriter.Writer.LastSequence | ansi/writer.go:53-55 | the remembered sequences are empty or start with ESC and end with `m` |
| AnsiWriter.Writer.ResetAnsi | ansi/writer.go:57-62 | the sink receives `ResetOut` and no field changes |
| AnsiWriter.Writer.RestoreAnsi | ansi/writer.go:64-66 | the sink receives `RestoreOut` and no field changes |
| AnsiWriterExamples.ColoredFooThenReset | ansi/writer_test.go:10-31 | a colour, "foo" and a reset are forwarded unchanged and leave `LastSequence` empty |
| AnsiWriterExamples.FooOnFailingSink | ansi/writer_test.go:41-49 | "foo" on a failing sink reports the error |
| Fills.Times | padding/padding.go:99-101 | n units of fill are n times the unit's length |
| Fills.Units | padding/padding.go:99-101 | the callback loop drops every error, so it never fails |
| Fills.FilledPlain | padding/padding.go:98-107 | on a working sink outside a sequence, plain fill is forwarded as it is and leaves the `ansi.Writer` unchanged |
| Fills.UnitsPlain | indent/indent.go:43-46 | n callback calls forward the unit n times |
| Fills.FilledNeverFails | padding/padding.go:98-107 | fill never fails on a working sink |
| Fills.FilledFailing | padding/padding.go:98-107 | on a failing sink nothing of the fill arrives, and the error surfaces exactly when spaces are written for at least one cell |
| Fills.UnitsForwardNothing | indent/indent.go:43-46 | on a failing sink the callback loop forwards nothing |
| Fills.UnitsKeepAnsi | indent/indent.go:43-46 | the callback loop never leaves the `ansi.Writer` inside a sequence |
| Fills.FilledKeepsAnsi | padding/padding.go:98-107 | plain fill leaves the `ansi.Writer` outside a sequence |
| Fills.PlainKeepsAnsi | ansi/writer.go:42-46 | text without ESC leaves the `ansi.Writer` outside a sequence |
| SoftWrap.RunAppend | wordwrap/wordwrap.go:106-152 | the loop over `a + b` is the loop over `a` and then over `b` |
| SoftWrap.RuneJoinsWord | wordwrap/wordwrap.go:141-150 | an ordinary rune joins the pending word; a line break is emitted exactly when the grown word overflows the line and is narrower than the limit |
| SoftWrap.RunInsideSequence | wordwrap/wordwrap.go:111-116 | inside a sequence, runes that do not end it only grow the pending word |
| SoftWrap.SequenceJoinsWord | wordwrap/wordwrap.go:107-116 | a complete escape sequence joins the word, whatever the line length, and adds no width |
| SoftWrap.StepContent | wordwrap/wordwrap.go:106-152 | one rune moves its visible part into the written text or the pending word, and pending space stays blank |
| SoftWrap.RunContent | wordwrap/wordwrap.go:106-152 | the visible text of the input reaches the output or the pending word unchanged and in order |
| SoftWrap.StepInv | wordwrap/wordwrap.go:106-152 | one rune keeps the line-fitting invariant: a word narrower than the limit never leaves the line past the limit |
| SoftWrap.RunInv | wordwrap/wordwrap.go:106-152 | the loop keeps the line-fitting invariant |
| SoftWrap.PlacedWordFits | wordwrap/wordwrap.go:71-78 | under the invariant, a placed word narrower than the limit leaves the line within the limit |
| SoftWrap.TrimLeftSuffix | wordwrap/wordwrap.go:103 | trimming the head keeps a suffix of the input and drops only whitespace |
| SoftWrap.TrimRightPrefix | wordwrap/wordwrap.go:103 | trimming the tail keeps a prefix of the input and drops only whitespace |
| SoftWrap.TrimSpace | wordwrap/wordwrap.go:103 | `strings.TrimSpace` returns the slice of the input between its leading and its trailing whitespace; that slice neither starts nor ends with whitespace, and the visible text is kept |
| SoftWrap.NewlinesToSpaces | wordwrap/wordwrap.go:103 | `strings.Replace(s, "\n", " ", -1)` replaces exactly the line ends by spaces |
| SoftWrap.PlainWord | wordwrap/wordwrap.go:141-150 | on printable ASCII, a word without blank or hyphen joins the pending word; a break goes before it exactly when it comes to overflow the line while narrower than the limit, every measure being a length |
| SoftWrap.PlainEnd | wordwrap/wordwrap.go:117-140 | on plain text a line end keeps the pending word, and the pending space unless that overflows a line with no word; a hyphen places space, word and itself |
| SoftWrap.PlainAddWord | wordwrap/wordwrap.go:71-78 | on plain text `addWord` moves the pending space and word to the line, counting their lengths |
| SoftWrap.PlainBlanks | wordwrap/wordwrap.go:132-135 | on plain text a run of blanks and tabs places the pending word and is held as pending space |
| SoftWrap.PlainPiece | wordwrap/wordwrap.go:106-152 | on plain text the loop over one piece (a word, a run of blanks, a line end or a hyphen) is the reference step `PlainNext`, and the state stays plain |
| SoftWrap.TraceRun | wordwrap/wordwrap.go:106-152 | on plain text the loop ends in the state a trace of reference steps over the same pieces ends in |
| SoftWrap.ContinueRun | wordwrap/wordwrap.go:106-152 | a segment of a replay, started from any plain state, ends where its trace does |
| SoftWrap.ReplayRun | wordwrap/wordwrap.go:106-162 | the loop and the closing `addWord` turn replayed plain text into the replay's output |
| PlainTraces.CompleteRun | wordwrap/wordwrap.go:106-162 | under either writer's settings at 6 the loop and the closing `addWord` turn the complete example of the tests into its expected text |
| WordWrap.WrittenContent | wordwrap/wordwrap.go:96-155 | `Write` never loses or reorders visible text, whatever `KeepNewlines` says |
| WordWrap.WrittenInv | wordwrap/wordwrap.go:96-155 | `Write` keeps the line-fitting invariant |
| WordWrap.WrappedUnlimited | wordwrap/wordwrap.go:97-99 | with `Limit == 0`, `String` is the identity |
| WordWrap.WrappedVisible | wordwrap/wordwrap.go:49-63 | `String` changes only whitespace |
| WordWrap.WordWrap.constructor | wordwrap/wordwrap.go:38-45 | a new writer has the given settings and empty buffers |
| WordWrap.WordWrap.AddSpace | wordwrap/wordwrap.go:65-69 | pending space moves to the line and its bytes are counted |
| WordWrap.WordWrap.AddWord | wordwrap/wordwrap.go:71-78 | a non-empty pending word moves to the line after the pending space |
| WordWrap.WordWrap.AddNewLine | wordwrap/wordwrap.go:80-84 | a line end is written, `lineLen` drops to 0 and pending space is discarded |
| WordWrap.WordWrap.Consume | wordwrap/wordwrap.go:107-151 | one iteration of the loop is `Step` |
| WordWrap.WordWrap.Write | wordwrap/wordwrap.go:96-155 | the loop leaves the fields as `Written` says and reports `len(b)` and no error |
| WordWrap.WordWrap.Close | wordwrap/wordwrap.go:159-162 | the pending word is flushed with its space; trailing space is never emitted |
| WordWrap.String | wordwrap/wordwrap.go:49-63 | `String` is a fresh writer, `Write` and a final `addWord` |
| WordWrap.WrappedByTrace | wordwrap/wordwrap.go:49-63 | with a limit set, `String` of plain text is the output of any replay of that text by reference steps |
| WordWrapExamples.NoLimitPassesThrough | wordwrap/wordwrap_test.go:15-22 | "foobar\n " with no limit is unchanged, trailing whitespace included |
| WordWrapExamples.ShortPassesThrough | wordwrap/wordwrap_test.go:23-30 | "foo" at 4 is unchanged |
| WordWrapExamples.LongWordPassesThrough | wordwrap/wordwrap_test.go:31-39 | "foobarfoo" at 4 is unchanged: a word longer than the limit is not broken |
| WordWrapExamples.BreakAtSpaces | wordwrap/wordwrap_test.go:40-47 | "foo bar foo" at 4 gives "foo\nbar\nfoo" |
| WordWrapExamples.BreakAfterHyphen | wordwrap/wordwrap_test.go:48-55 | a hyphen stays on its line and the next word moves down: "foo-foobar" at 4 gives "foo-\nfoobar" |
| WordWrapExamples.SpaceBeforeBreakpoints | wordwrap/wordwrap_test.go:56-63 | "foo --bar" at 9 is unchanged: pending space is placed before each hyphen |
| WordWrapExamples.LongWordsNotBroken | wordwrap/wordwrap_test.go:64-72 | "foo bars foobars" at 4 gives "foo\nbars\nfoobars" |
| WordWrapExamples.WordMovedToNextLine | wordwrap/wordwrap_test.go:73-80 | "foo bar" at 5 gives "foo\nbar" |
| WordWrapExamples.FittingSpaceKept | wordwrap/wordwrap_test.go:81-90 | "foo\nb\t a\n bar" at 4 is unchanged: fitting space before a line end stays, and a tab is one byte |
| WordWrapExamples.OverflowingSpaceDropped | wordwrap/wordwrap_test.go:91-99 | "foo    \nb   ar   " at 4 gives "foo\nb\nar" |
| WordWrapExamples.TrailingBreakKept | wordwrap/wordwrap_test.go:100-107 | "foo bar foo\n" at 4 gives "foo\nbar\nfoo\n" |
| WordWrapExamples.ExplicitBreaksKept | wordwrap/wordwrap_test.go:108-115 | "\nfoo bar\n\n\nfoo\n" at 4 gives "\nfoo\nbar\n\n\nfoo\n" |
| WordWrapExamples.CompleteExample | wordwrap/wordwrap_test.go:124-131 | the complete example at 6 gives " This\nis a\nlist: \n\n\t* foo\n\t* bar\n\n\n\t* foo\nbar" |
| WordWrapExamples.StringBreaks | wordwrap/wordwrap_test.go:167-172 | `String("foo bar", 3)` gives "foo\nbar" |
| Reflow.CountIsWidth | reflow.go:65 | the reflow measure, one per printable rune, is `PrintableRuneCount` |
| Reflow.WrittenUnlimited | reflow.go:88-90 | with `Limit == 0`, `Write` appends its input unchanged and leaves the pending word and space alone |
| Reflow.WrittenContent | reflow.go:87-141 | `Write` never loses or reorders visible text |
| Reflow.WrittenInv | reflow.go:87-141 | `Write` keeps the line-fitting invariant, counted in printable runes |
| Reflow.ReflowedUnlimited | reflow.go:88-90 | with `Limit == 0`, `String` is the identity |
| Reflow.ReflowedVisible | reflow.go:42-54 | `String` changes only whitespace |
| Reflow.NewlineIsSpaceUnlessKept | reflow.go:103-121 | without `KeepNewlines` a line-end rune ends the pending word and becomes pending space |
| Reflow.Reflow.constructor | reflow.go:31-38 | a new writer has the given settings and empty buffers |
| Reflow.Reflow.AddSpace | reflow.go:56-60 | pending space moves to the line and its bytes are counted |
| Reflow.Reflow.AddWord | reflow.go:62-69 | a non-empty pending word moves to the line after the pending space, counted in printable runes |
| Reflow.Reflow.AddNewLine | reflow.go:71-75 | a line end is written, `lineLen` drops to 0 and pending space is discarded |
| Reflow.Reflow.Consume | reflow.go:93-137 | one iteration of the loop is `Step` |
| Reflow.Reflow.Write | reflow.go:87-141 | the loop leaves the fields as `Written` says and reports `len(b)` and no error |
| Reflow.Reflow.Close | reflow.go:145-148 | the pending word is flushed with its space; trailing space is never emitted |
| Reflow.String | reflow.go:42-54 | `String` is a fresh writer, `Write` and `Close` |
| Reflow.ReflowedByTrace | reflow.go:42-54 | with a limit set, `String` of plain text is the output of any replay of that text by reference steps |
| ReflowExamples.ShortPassesThrough | reflow_test.go:13-18 | "foo" at 4 is unchanged |
| ReflowExamples.LongWordPassesThrough | reflow_test.go:19-25 | "foobarfoo" at 4 is unchanged: a word longer than the limit is not broken |
| ReflowExamples.BreakAtSpaces | reflow_test.go:26-31 | "foo bar foo" at 4 gives "foo\nbar\nfoo" |
| ReflowExamples.BreakAfterHyphen | reflow_test.go:32-37 | a hyphen stays on its line and the next word moves down: "foo-foobar" at 4 gives "foo-\nfoobar" |
| ReflowExamples.LongWordsNotBroken | reflow_test.go:38-44 | "foo bars foobars" at 4 gives "foo\nbars\nfoobars" |
| ReflowExamples.WordMovedToNextLine | reflow_test.go:45-50 | "foo bar" at 5 gives "foo\nbar" |
| ReflowExamples.FittingSpaceKept | reflow_test.go:51-58 | "foo\nb\t a\n bar" at 4 is unchanged: fitting space before a line end stays, and a tab is one byte |
| ReflowExamples.OverflowingSpaceDropped | reflow_test.go:59-65 | "foo    \nb   ar   " at 4 gives "foo\nb\nar" |
| ReflowExamples.TrailingBreakKept | reflow_test.go:66-71 | "foo bar foo\n" at 4 gives "foo\nbar\nfoo\n" |
| ReflowExamples.ExplicitBreaksKept | reflow_test.go:72-77 | "\nfoo bar\n\n\nfoo\n" at 4 gives "\nfoo\nbar\n\n\nfoo\n" |
| ReflowExamples.CompleteExample | reflow_test.go:78-83 | the complete example at 6 gives " This\nis a\nlist: \n\n\t* foo\n\t* bar\n\n\n\t* foo\nbar" |
| HardWrap.ExpandTabsSpec | wrap/wrap.go:69 | no tab survives expansion, and text without tabs is left alone |
| HardWrap.ExpandTabsAppend | wrap/wrap.go:69 | tab expansion distributes over concatenation |
| HardWrap.ExpandTabsRune | wrap/wrap.go:69 | a tab becomes exactly `TabWidth` spaces and any other rune stays as it is; with `ExpandTabsAppend` this fixes the result rune by rune |
| HardWrap.DropNewlinesSpec | wrap/wrap.go:70-72 | no line end survives, and text without line ends is left alone |
| HardWrap.DropNewlinesAppend | wrap/wrap.go:71 | dropping line ends is additive over concatenation |
| HardWrap.DropNewlinesBefore | wrap/wrap.go:71 | a line end followed by text without line ends is simply removed |
| HardWrap.RunAppend | wrap/wrap.go:84-117 | the cluster loop over `a + b` is the loop over `a` and then over `b` |
| HardWrap.EscapeClusterUnmeasured | wrap/wrap.go:89-93 | the marker and every cluster inside a sequence are copied without touching `lineLen` or `forcefulNewline` |
| HardWrap.NewlineClusterBreaks | wrap/wrap.go:94-97 | an input line end writes `\n`, sets `lineLen` to 0 and clears `forcefulNewline` |
| HardWrap.BreakIffOverflow | wrap/wrap.go:98-116 | a `\n` is inserted before a measured cluster exactly when it would run past the limit, and a lone whitespace cluster after a forced break is dropped unless `PreserveSpace` |
| HardWrap.FitClearsForceful | wrap/wrap.go:109-113 | on a non-empty line a fitting cluster is written, counted, and clears `forcefulNewline` |
| HardWrap.ForcedBreakSpace | wrap/wrap.go:99-108 | a whitespace cluster that forces a break sets `forcefulNewline` and vanishes unless `PreserveSpace` |
| HardWrap.ExpandTabsVisible | wrap/wrap.go:69 | tab expansion keeps the visible text |
| HardWrap.DropNewlinesVisible | wrap/wrap.go:71 | dropping line ends keeps the visible text |
| HardWrap.PreparedVisible | wrap/wrap.go:69-72 | the prepared text has the input's visible text |
| HardWrap.StepVisible | wrap/wrap.go:88-116 | one cluster adds exactly its own visible text to the output |
| HardWrap.RunVisible | wrap/wrap.go:84-117 | the cluster loop adds exactly the visible text of the clusters |
| HardWrap.WrittenVisible | wrap/wrap.go:68-120 | `Write` never loses or reorders visible text |
| HardWrap.StepFits | wrap/wrap.go:99-113 | a cluster no wider than the limit leaves `lineLen` within the limit |
| HardWrap.RunFits | wrap/wrap.go:84-117 | `lineLen` stays within the limit across the loop when every cluster fits a line |
| HardWrap.WrittenFits | wrap/wrap.go:68-120 | with a positive limit, a line that fits keeps fitting across `Write`, provided every cluster the loop measures (outside escape sequences and not a line end) is at most `Limit` cells wide |
| HardWrap.WrittenUnlimited | wrap/wrap.go:76-79 | with `Limit <= 0` the original bytes are copied, tabs and line ends included |
| HardWrap.WrittenFitting | wrap/wrap.go:74-79 | input that fits the line is copied unchanged and `lineLen` grows by its width |
| HardWrap.Wrap.constructor | wrap/wrap.go:32-46 | a new writer has the given settings and an empty buffer |
| HardWrap.Wrap.AddNewLine | wrap/wrap.go:57-60 | a line end is written and `lineLen` drops to 0 |
| HardWrap.Wrap.Consume | wrap/wrap.go:85-116 | one iteration of the cluster loop is `Step` |
| HardWrap.Wrap.Write | wrap/wrap.go:68-120 | the fields end as `Written` says, and `Write` reports `len(b)` and no error |
| HardWrap.String | wrap/wrap.go:50-66 | `String` is a fresh default writer and one `Write` |
| HardWrapExamples.AsciiLoop | wrap/wrap.go:81-117 | text too wide for the line goes through the cluster loop one rune at a time |
| HardWrapExamples.NoLimitPassesThrough | wrap/wrap_test.go:16-24 | "foobar\n " with no limit is copied, trailing whitespace included |
| HardWrapExamples.ShortPassesThrough | wrap/wrap_test.go:25-33 | "foo" at 4 is copied |
| HardWrapExamples.LongWordBroken | wrap/wrap_test.go:34-42 | "foobarfoo" at 4 gives "foob\narfo\no" |
| HardWrapExamples.NewlinesKept | wrap/wrap_test.go:43-51 | "f\no\nobar" at 3 gives "f\no\noba\nr" |
| HardWrapExamples.NewlinesDropped | wrap/wrap_test.go:52-60 | without `KeepNewlines`, "f\no\nobar" at 3 gives "foo\nbar" |
| HardWrapExamples.SpacePreserved | wrap/wrap_test.go:61-69 | with `PreserveSpace`, "foo bar\n  baz" at 3 gives "foo\n ba\nr\n  b\naz" |
| HardWrapExamples.SpaceDropped | wrap/wrap_test.go:70-78 | without it, "foo bar\n  baz" at 3 gives "foo\nbar\n  b\naz" |
| HardWrapExamples.TabPreserved | wrap/wrap_test.go:79-87 | "foo\tbar" at 4 with `TabWidth` 3 and `PreserveSpace` gives "foo \n  ba\nr" |
| HardWrapExamples.TabDropped | wrap/wrap_test.go:88-96 | "foo\tbar" at 4 with `TabWidth` 3 gives "foo \nbar" |
| HardWrapExamples.StringBreaks | wrap/wrap_test.go:134-140 | `String("foo bar", 3)` gives "foo\nbar" |
| Truncate.WrittenAfterLoop | truncate/truncate.go:79-116 | after the loop, the budget is net of the tail, the tail follows a cut, and the count and error follow how the loop ended |
| Truncate.MeasureAppend | truncate/truncate.go:86-100 | measuring `a + b` is measuring `a` and then `b` |
| Truncate.MeasureGrows | truncate/truncate.go:90-100 | the measured width never decreases |
| Truncate.PrintableMeasure | truncate/truncate.go:98-100 | printable ASCII clusters are measured one cell each |
| Truncate.InsideMeasure | truncate/truncate.go:93-97 | clusters inside a sequence that do not end it are not measured |
| Truncate.SequenceMeasure | truncate/truncate.go:90-97 | a complete escape sequence, one rune per cluster, takes no width |
| Truncate.ForwardValid | truncate/truncate.go:110-113 | the loop keeps the `ansi.Writer` in a reachable state |
| Truncate.ForwardAppend | truncate/truncate.go:86-114 | the loop over `a + b` is the loop over `a` and then, unless it stopped, over `b` |
| Truncate.ForwardFits | truncate/truncate.go:86-114 | when every cluster fits the budget, all of them go through the `ansi.Writer` in order |
| Truncate.ForwardCut | truncate/truncate.go:97-108 | otherwise the loop stops at the first cluster past the budget, which is visible; everything before it went through |
| Truncate.CutIffOverBudget | truncate/truncate.go:99-108 | on a working sink the loop is cut exactly when the clusters do not fit, and never fails |
| Truncate.ForwardFailing | truncate/truncate.go:110-113 | a failing forward writer receives nothing |
| Truncate.TailTooWide | truncate/truncate.go:74-77 | a tail wider than `width` is all that is written, and its byte count returned |
| Truncate.TailCharged | truncate/truncate.go:79 | otherwise the tail's width is taken off the `width` field itself |
| Truncate.WrittenFits | truncate/truncate.go:73-117 | input that fits is forwarded unchanged, the tail is not written and `len(b)` is returned |
| Truncate.WrittenCut | truncate/truncate.go:97-108 | input that does not fit is cut before the first visible cluster past the budget, so no sequence is split; then the tail, and a reset when colours are in effect |
| Truncate.WrittenFailing | truncate/truncate.go:110-113 | a failing forward writer receives nothing |
| Truncate.WrittenValid | truncate/truncate.go:73-117 | `Write` keeps the `ansi.Writer` in a reachable state |
| Truncate.PlainWithTail | truncate/truncate.go:51-69 | on printable ASCII the result is the tail alone, the input, or the longest prefix that leaves room for the tail followed by it |
| Truncate.PlainFits | truncate/truncate.go:86-116 | printable ASCII that fits is forwarded whole and `len(b)` returned |
| Truncate.PlainCut | truncate/truncate.go:99-108 | printable ASCII that does not fit is forwarded up to the budget, with no reset after the tail |
| Truncate.PlainPrefix | truncate/truncate.go:99-102 | the cut of printable ASCII falls after exactly `budget` runes |
| Truncate.Writer.NewWriter | truncate/truncate.go:21-30 | a new writer forwards into its own buffer |
| Truncate.Writer.NewWriterPipe | truncate/truncate.go:32-40 | a new writer forwards into the given writer, and its own buffer starts empty |
| Truncate.Writer.Consume | truncate/truncate.go:88-113 | one cluster: the measure, the budget test and the forward write, as `Next` says |
| Truncate.Writer.Clusters | truncate/truncate.go:86-114 | the loop ends as `Forward` says |
| Truncate.Writer.Cut | truncate/truncate.go:102-107 | the tail goes to `buf`, then a reset when `LastSequence` is non-empty and `seqchanged` is set |
| Truncate.Writer.Charged | truncate/truncate.go:80-116 | the loop and the cut together, with the tail landing between the forwarded text and the reset when the two sinks are one |
| Truncate.Writer.Write | truncate/truncate.go:73-117 | the fields, sinks, count and error end as `Written` says |
| Truncate.StringWithTail | truncate/truncate.go:51-69 | `StringWithTail` is a fresh writer and one `Write` |
| Truncate.String | truncate/truncate.go:44-62 | `String` is `StringWithTail` with an empty tail |
| TruncateExamples.NoOp | truncate/truncate_test.go:20-26 | "foo" at 10 passes through |
| TruncateExamples.Basic | truncate/truncate_test.go:27-33 | "foobar" at 3 gives "foo" |
| TruncateExamples.WithDot | truncate/truncate_test.go:34-40 | "foobar" at 4 with tail "." gives "foo." |
| TruncateExamples.SameWidth | truncate/truncate_test.go:41-47 | "foo" at 3 is kept whole |
| TruncateExamples.TailLonger | truncate/truncate_test.go:48-54 | "foo" at 2 with tail "..." gives "..." |
| TruncateExamples.StyledCut | truncate/truncate_test.go:55-61 | a colour, 你好 and a reset at 3 give the colour, 你 and a reset |
| TruncateExamples.StyledCutWith | truncate/truncate.go:90-108 | any colour, two wide runes and anything after them, at 3, keep the colour and the first rune, then reset |
| TruncateExamples.Pipe | truncate/truncate_test.go:108-124 | through `NewWriterPipe`, the forward writer receives "fo" of "foo" at 2 |
| TruncateExamples.Error | truncate/truncate_test.go:126-137 | a failing forward writer makes `Write` fail |
| Compressor.StepValid | ansi/compressor/writer.go:24-77 | one rune keeps the writer in a reachable state |
| Compressor.RunValid | ansi/compressor/writer.go:23-80 | `Write` keeps the writer in a reachable state |
| Compressor.RunAppend | ansi/compressor/writer.go:23-80 | writing `a` and then `b` is writing `a + b`, unless writing `a` failed |
| Compressor.ScannedInside | ansi/compressor/writer.go:29-31 | runes that keep a sequence open add no printable text |
| Compressor.ScannedSequence | ansi/compressor/writer.go:29-33 | a held sequence completed by its terminator adds no printable text and closes the sequence |
| Compressor.StepText | ansi/compressor/writer.go:24-77 | on a working sink, the printable text one rune adds to the output is what it adds to the input |
| Compressor.RunText | ansi/compressor/writer.go:23-80 | on a working sink `Write` never fails, and the printable text forwarded is exactly that of the input |
| Compressor.CompressedText | ansi/compressor/writer.go:23-98 | compression keeps the printable text of its input rune for rune |
| Compressor.StepLength | ansi/compressor/writer.go:24-77 | one rune emits at most one rune plus the resets it has swallowed |
| Compressor.RunLength | ansi/compressor/writer.go:23-80 | `Write` emits at most its input plus the resets owed before it |
| Compressor.CompressedShorter | ansi/compressor/writer.go:23-98 | compression never lengthens its input |
| Compressor.FailingForwardsNothing | ansi/compressor/writer.go:67-76 | a failing sink never receives anything |
| Compressor.FailsOnPrintable | ansi/compressor/writer.go:72-75 | a printable rune outside a sequence makes `Write` fail on a failing sink |
| Compressor.Held | ansi/compressor/writer.go:25-31 | an unterminated sequence is held back and nothing is written |
| Compressor.Sequence | ansi/compressor/writer.go:25-66 | a complete sequence is held and then settled by its terminator |
| Compressor.ScannedReset | ansi/compressor/writer.go:36-43 | a reset sequence contributes no printable text |
| Compressor.ResetDeferred | ansi/compressor/writer.go:36-43 | a reset sequence is not forwarded: `lastseq` moves to `prevlastseq`, `lastseq` empties and a reset is owed |
| Compressor.RestyleDropped | ansi/compressor/writer.go:49-54 | restoring exactly the style an owed reset cleared cancels the reset and writes nothing |
| Compressor.StyleForwarded | ansi/compressor/writer.go:44-63 | any other colour sequence pays an owed reset, is forwarded, and is appended to `lastseq` |
| Compressor.TextForwarded | ansi/compressor/writer.go:67-76 | printable text pays an owed reset first and is then forwarded unchanged |
| Compressor.Writer.constructor | ansi/compressor/writer.go:11-20 | a new writer has all fields zero |
| Compressor.Writer.Write | ansi/compressor/writer.go:23-80 | the rune loop leaves the fields and the sink as `Run` says; it returns `len(b)`, or 0 with the error |
| Compressor.Writer.Consume | ansi/compressor/writer.go:25-76 | one iteration of the loop is `Step` |
| Compressor.Writer.EndSequence | ansi/compressor/writer.go:31-66 | a terminator completes the held sequence as `Step` says |
| Compressor.Writer.Flush | ansi/compressor/writer.go:49-63 | a non-reset sequence is dropped when it equals `prevlastseq`, else forwarded after any owed reset |
| Compressor.Writer.WriteRune | ansi/compressor/writer.go:82-88 | one rune is handed to the sink as its UTF-8 bytes |
| Compressor.Writer.Close | ansi/compressor/writer.go:92-98 | an owed reset is written; `Close` never fails |
| Compressor.Writer.ResetAnsi | ansi/compressor/writer.go:100-104 | the reset is written, `prevlastseq` emptied and the debt settled |
| CompressorExamples.Restyled | ansi/compressor/writer.go:36-63 | a style, text, a reset, the same style, text and a reset lose the inner reset and restyle |
| CompressorExamples.Distinct | ansi/compressor/writer.go:36-63 | two different styles, each closed by a reset, pass through unchanged |
| CompressorExamples.ResetThenSame | ansi/compressor/writer.go:36-54 | a reset followed by the style it clears writes nothing and keeps the style |
| CompressorExamples.ResetThenOther | ansi/compressor/writer.go:36-63 | a reset followed by another style pays the reset and forwards the style |
| CompressorExamples.NothingToCompress | ansi/compressor/writer_test.go:15-19 | "\x1B[..114mre\x1B[0m\x1B[..115mflow\x1B[0m" is unchanged |
| CompressorExamples.ResetBeforeSameStyle | ansi/compressor/writer_test.go:20-24 | "\x1B[..114mre\x1B[0m\x1B[..114mflow\x1B[0m" becomes "\x1B[..114mreflow\x1B[0m" |
| CompressorExamples.FooOnFailingSink | ansi/compressor/writer_test.go:60-69 | "foo" on a failing sink returns the error |
| Padding.Gap | padding/padding.go:97-99 | `pad` writes fill exactly when `Padding > 0` and the line is shorter, and then exactly up to `Padding` |
| Padding.PadSpaces | padding/padding.go:102-106 | without a callback the gap is written as spaces in one write |
| Padding.NoGap | padding/padding.go:97 | `pad` writes nothing when there is no gap |
| Padding.PadNeverFails | padding/padding.go:96-110 | `pad` never fails on a working sink |
| Padding.PadKeepsAnsi | padding/padding.go:96-110 | `pad` never leaves the `ansi.Writer` inside a sequence |
| Padding.PadFailing | padding/padding.go:96-110 | on a failing sink `pad` forwards nothing, and fails exactly when it writes spaces |
| Padding.StepSync | padding/padding.go:65-72 | one rune keeps the writer's in-sequence flag equal to the `ansi.Writer`'s |
| Padding.WithinLine | padding/padding.go:63-94 | on a chunk without line ends the writer forwards what the `ansi.Writer` forwards, and `lineLen` grows by the chunk's printable width |
| Padding.LineEnd | padding/padding.go:76-87 | at a line end: the gap, a reset if a sequence was seen since the last reset, then the line end, and `lineLen` returns to 0 |
| Padding.CloseRule | padding/padding.go:115-122 | `Close` pads a non-empty last line and writes nothing after an empty one |
| Padding.RunAppend | padding/padding.go:63-94 | writing `a` and then `b` is writing `a + b`, unless writing `a` failed |
| Padding.PlainRun | padding/padding.go:63-94 | `Write` of plain text emits each line followed by its gap and its line end |
| Padding.EmittedPadded | padding/padding.go:113-122 | what `Write` emits and `Close` adds make up the padded reference |
| Padding.PaddedPlain | padding/padding.go:56-60 | `String` of plain text pads each line to `Padding` cells and leaves an empty last line alone |
| Padding.Unpadded | padding/padding.go:97 | with `Padding == 0` plain text passes through unchanged |
| Padding.UnpaddedLines | padding/padding.go:97 | with `Padding == 0` the padded lines are the lines joined again |
| Padding.TextRun | padding/padding.go:73-74 | text within a line is forwarded as it is and counted cell by cell |
| Padding.StyleRun | padding/padding.go:65-72 | a colour sequence is forwarded, takes no cells, and is remembered by the `ansi.Writer` |
| Padding.LineEndRun | padding/padding.go:76-87 | after a colour, the line end writes a reset after the gap |
| Padding.WorkingNeverFails | padding/padding.go:63-122 | `Write` and `Close` fail only when the sink does |
| Padding.FailsOnPrintable | padding/padding.go:87-90 | a failing sink makes `Write` fail on the first printable rune, which is not forwarded |
| Padding.FailsOnGap | padding/padding.go:78-81 | a line end whose gap is written as spaces makes `Write` fail on a failing sink |
| Padding.Writer.NewWriter | padding/padding.go:25-34 | the `ansi.Writer` forwards into the writer's own empty buffer |
| Padding.Writer.NewWriterPipe | padding/padding.go:36-44 | the `ansi.Writer` forwards into the given writer |
| Padding.Writer.Write | padding/padding.go:63-94 | the fields and sink end as `Run` says; it returns `len(b)`, or 0 with the error |
| Padding.Writer.Consume | padding/padding.go:64-91 | one iteration of the loop is `Step` |
| Padding.Writer.Pad | padding/padding.go:96-111 | `pad` writes as `PadOut` says and returns its error |
| Padding.Writer.Close | padding/padding.go:115-122 | `Close` writes as `Closed` says |
| Padding.String | padding/padding.go:46-60 | `String` is a fresh writer, `Write` and `Close` |
| PaddingExamples.NoOp | padding/padding_test.go:20-25 | with no padding "foobar" passes through |
| PaddingExamples.Basic | padding/padding_test.go:26-31 | "foobar" at 10 gives "foobar    " |
| PaddingExamples.MultiLine | padding/padding_test.go:32-37 | "foo\nbar" at 6 gives "foo   \nbar   " |
| PaddingExamples.TrailingEmptyLine | padding/padding_test.go:38-43 | "foo\nbar\n" at 6 gives "foo   \nbar   \n" |
| PaddingExamples.Colored | padding/padding_test.go:44-49 | a colour and "foo" at 6 give the same with three spaces |
| PaddingExamples.TwoWrites | padding/padding_test.go:67-86 | writing "foo\n" and then "bar" gives "foo   \nbar   " |
| PaddingExamples.SplitWrite | padding/padding.go:63-94 | two writes leave the writer as one write of both would |
| PaddingExamples.Pipe | padding/padding_test.go:115-131 | through `NewWriterPipe` the forward writer receives "foobar    " |
| PaddingExamples.DotFill | padding/padding_test.go:134-150 | a fill writing "." is called once per missing cell |
| PaddingExamples.Errors | padding/padding_test.go:152-171 | one writer on a failing sink: "foo\n" fails after counting `f`, leaving `lineLen` 1; "\n" then fails on its gap of 5, and `pad` fails too |
| Indent.RunAppend | indent/indent.go:30-71 | writing `a` and then `b` is writing `a + b`, unless writing `a` failed |
| Indent.IndentationPlain | indent/indent.go:41-56 | on a working sink the indentation is a reset if one is due, the fill, and the remembered colours again |
| Indent.IndentationFailing | indent/indent.go:41-56 | on a failing sink the indentation forwards nothing, and fails exactly when it writes spaces |
| Indent.StepSync | indent/indent.go:32-39 | one rune keeps the writer's in-sequence flag equal to the `ansi.Writer`'s |
| Indent.RunSync | indent/indent.go:30-71 | `Write` keeps the two in-sequence flags equal |
| Indent.WorkingNeverFails | indent/indent.go:48-51 | `Write` fails only when the sink does |
| Indent.InSequence | indent/indent.go:32-39 | inside a sequence nothing is indented and the line state stays |
| Indent.StyleRun | indent/indent.go:32-39 | a complete colour sequence is forwarded and remembered, and does not start the line |
| Indent.TextRun | indent/indent.go:64-67 | text within an indented line is forwarded as it is |
| Indent.LineStart | indent/indent.go:41-56 | the first rune of a line outside a sequence comes after the indentation |
| Indent.IndentedPlain | indent/indent.go:30-71 | one `Write` of plain text prefixes every line with the indentation, except an empty last line |
| Indent.NoPrefix | indent/indent.go:44-48 | an empty indentation leaves every line as it was |
| Indent.Unindented | indent/indent.go:44-48 | with no indentation plain text passes through unchanged |
| Indent.FailsOnIndentation | indent/indent.go:47-51 | on a failing sink a line start with spaces to write fails and forwards nothing |
| Indent.FailsOnRune | indent/indent.go:64-67 | on a failing sink any rune outside a sequence fails and nothing is forwarded |
| Indent.Writer.NewWriter | indent/indent.go:21-27 | a new writer has the given settings and its flags clear |
| Indent.Writer.Write | indent/indent.go:30-71 | the fields and sink end as `Run` says; it returns `len(b)`, or 0 with the error |
| Indent.Writer.Consume | indent/indent.go:31-68 | one iteration of the loop is `Step` |
| Indent.Writer.WriteIndentation | indent/indent.go:42-55 | `ResetAnsi`, the fill and `RestoreAnsi` write what `Indentation` says |
| IndentExamples.NoOp | indent/indent_test.go:20-25 | with no indentation "foobar" passes through |
| IndentExamples.Basic | indent/indent_test.go:26-31 | "foobar" at 4 gives "    foobar", and at 3 "   foobar" |
| IndentExamples.MultiLine | indent/indent_test.go:32-37 | "foo\nbar" at 4 gives "    foo\n    bar" |
| IndentExamples.Colored | indent/indent_test.go:38-43 | a colour and "foo" at 4 give the colour, a reset, four spaces, the colour again and "foo" |
| IndentExamples.TwoWrites | indent/indent_test.go:60-78 | writing "foo\n" and then "bar" at 4 gives "    foo\n    bar" |
| IndentExamples.TwoWritesDots | indent/indent_test.go:100-120 | with a fill writing ".", the same writes at 2 give "..foo\n..bar" |
| IndentExamples.Pipe | indent/indent_test.go:122-138 | "foo" at 2 gives "  foo" |
| IndentExamples.Errors | indent/indent_test.go:140-157 | on a failing sink "foo" reports the error, at a line start and within a line |
| Dedent.LeadingSpaces | dedent/dedent.go:21 | the count of leading spaces: all of them spaces, and the next rune is not one |
| Dedent.MinIndentStep | dedent/dedent.go:14-25 | one more line updates the minimum as one iteration of the first loop |
| Dedent.MinIndentSpec | dedent/dedent.go:14-25 | the minimum is -1 exactly when every line is empty, and otherwise the indentation of some non-empty line and at most that of every other |
| Dedent.Trimmed | dedent/dedent.go:32-33 | every line is trimmed of the prefix, line for line |
| Dedent.TerminatedJoin | dedent/dedent.go:34-36 | the buffer without its final line end is the lines joined by line ends |
| Dedent.String | dedent/dedent.go:12-37 | the two loops compute the dedented text |
| Dedent.TrimmedPlain | dedent/dedent.go:33 | trimming leaves a line without line ends |
| Dedent.DedentLines | dedent/dedent.go:31-36 | the result has as many lines as the input, each trimmed of the common indentation |
| Dedent.EachLine | dedent/dedent.go:33 | each non-empty line loses exactly the common indentation and each empty line stays empty |
| Dedent.RelativeIndent | dedent/dedent.go:33 | lines deeper than the common indentation keep what they have beyond it |
| Dedent.CommonIndentMin | dedent/dedent.go:27-29 | the lines share an indentation exactly when the minimum is positive |
| Dedent.Unchanged | dedent/dedent.go:27-29 | the text comes back unchanged exactly when no common indentation exists |
| Dedent.NoneLeft | dedent/dedent.go:31-36 | once dedented, lines of which none is made only of spaces share no indentation |
| Dedent.Idempotent | dedent/dedent.go:12-37 | when no line is made only of spaces, dedenting twice is dedenting once |
| DedentExamples.Help | dedent/dedent_test.go:12-15 | two options indented by six lose all six spaces |
| DedentExamples.Config | dedent/dedent_test.go:16-19 | relative indentation stays when the lines are indented by 6 and 2 |
| DedentExamples.EmptyLineKept | dedent/dedent_test.go:20-23 | empty lines do not count and stay empty |
| DedentExamples.TrailingEmptyLines | dedent/dedent_test.go:24-27 | trailing empty lines survive |
| DedentExamples.NothingToTrim | dedent/dedent_test.go:36-43 | "\n\n\n\n\n\n" and "" come back unchanged |
| DedentExamples.BlankLineCounts | dedent/dedent.go:16-25 | a line made only of spaces counts towards the minimum, so dedenting "  \n   a" twice gives "\n a" and then "\na" |

## Left out

- UTF-8 decoding: inputs are sequences of code points, so the replacement of invalid bytes by U+FFFD is not modelled. `len(b)` is the UTF-8 length of the code points. ansi/writer.go works on bytes and the model on runes. These agree because ESC, the terminators and `[0m` are ASCII, and other bytes are forwarded one by one either way.
- `go-runewidth`, `uniseg`, `ansi.Marker` and `ansi.IsTerminator` are external code: they are parameters with the properties listed above, not definitions.
- `PadFunc` and `IndentFunc` are arbitrary callbacks. The model fixes them to a callback that writes one fixed unit of text and ignores the error, as in the repository's tests.
- `sync.Pool`, `acquireWordWrap`, `b2s` and `s2b` in wordwrap/wordwrap.go are allocation plumbing built on `unsafe`. `WordWrap.String` is a fresh writer. The pooled writer keeps `space` and `word` between calls; that is not modelled.
- margin/margin.go is not part of this model. It composes the indent and padding writers through an indent API that indent/indent.go does not provide.
- indent/indent_test.go builds writers with `NewWriter(indent, func)`, `String`, `NewWriterPipe` and an `ansiWriter` field, which indent/indent.go does not have. The examples use `NewWriter(w, indent, indentFunc)` over an `ansi.Writer` that forwards into a buffer.
- The tab cases of dedent/dedent_test.go:28-35 belong to another build of `dedent`. The modelled file counts spaces only.
- wordwrap/wordwrap_test.go:140-147 expects styles to be reopened after each break, which wordwrap/wordwrap.go does not do. Its `HardWrap` field does not exist on `WordWrap`. Neither is stated.
- The ANSI vectors of wordwrap/wordwrap_test.go:132-139, reflow_test.go:84-89 and 90-95 and wrap/wrap_test.go:97-114 are replaced by the generic lemmas `SoftWrap.SequenceJoinsWord`, `SoftWrap.RuneJoinsWord`, `HardWrap.EscapeClusterUnmeasured` and `HardWrap.BreakIffOverflow`. No literal replay of these inputs is stated.
- WordWrapExamples: the `KeepNewlines == false` vector of wordwrap/wordwrap_test.go:116-123 is covered only by `WordWrap.WrittenContent`, `SoftWrap.TrimSpace` and `SoftWrap.NewlinesToSpaces`; no literal replay of it is stated.
- reflow_test.go calls `ReflowString`, which reflow.go does not declare; the examples read it as reflow.go's `String`.
- ansi/buffer_test.go:73 calls `Truncate` with two arguments; the examples use the empty tail.
- truncate/truncate_test.go:126-137 builds its writer by hand around an `ansi.Writer` value; the example builds one over a failing sink.
- HardWrap: `TabWidth` is a `nat`, while wrap/wrap.go:22 declares it `int`. A negative `TabWidth` makes every `Write` panic in `strings.Repeat` (wrap/wrap.go:69), even on input without tabs. The model does not express that panic.
- Benchmarks, `t.Parallel` and concurrent use of a writer are not modelled.
