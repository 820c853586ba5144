/**
 * The soft word-wrap engine shared by wordwrap/wordwrap.go and reflow.go.
 * Runes are collected into a pending `word` and pending `space`; a word is
 * moved to the output `buf` when a space, breakpoint or newline ends it, and
 * a line break is inserted before a word that would overflow the limit.
 * Words are never split.
 *
 * The two Go files differ only in how a word is measured (cell width, or one
 * per rune) and in which runes end a line; both are parameters here.
 */
module SoftWrap {
  import opened Unicode
  import opened Text
  import opened AnsiWidth

  /** The fields `buf`, `space`, `word`, `lineLen` and `ansi`. */
  datatype State = State(buf: string, space: string, word: string, lineLen: nat, ansi: bool)

  /** A fresh writer. */
  const Empty: State := State([], [], [], 0, false)

  /**
   * The settings the loop consults: the word measure, `Limit`,
   * `Breakpoints`, and the runes treated as line ends.
   */
  datatype Rules = Rules(width: char -> nat, limit: int, breakpoints: seq<char>, newlines: seq<char>)

  /** `addSpace`: pending space goes to the line, counted in bytes. */
  function AddSpace(st: State): State {
    st.(lineLen := st.lineLen + ByteLen(st.space), buf := st.buf + st.space, space := [])
  }

  /** `addWord`: a non-empty pending word goes to the line after the pending space. */
  function AddWord(width: char -> nat, st: State): State {
    if st.word == [] then st
    else
      var s1 := AddSpace(st);
      s1.(lineLen := s1.lineLen + PrintableWidth(width, st.word), buf := s1.buf + st.word, word := [])
  }

  /** `addNewLine`: a line break; pending space is discarded. */
  function AddNewLine(st: State): State {
    st.(buf := st.buf + [NEWLINE], lineLen := 0, space := [])
  }

  /**
   * At a line end with no pending word, pending space is kept if it still
   * fits on the line and dropped otherwise.
   */
  function SettleSpace(limit: int, st: State): State {
    if st.word != [] then st
    else if st.lineLen + ByteLen(st.space) > limit then st.(lineLen := 0, space := [])
    else st.(buf := st.buf + st.space, space := [])
  }

  /** One iteration of the `Write` loop. */
  function Step(r: Rules, st: State, c: char): State {
    if c == ESC then
      st.(word := st.word + [c], ansi := true)
    else if st.ansi then
      st.(word := st.word + [c], ansi := !SeqTerminator(c))
    else if c in r.newlines then
      AddNewLine(AddWord(r.width, SettleSpace(r.limit, st)))
    else if IsSpace(c) then
      var s1 := AddWord(r.width, st);
      s1.(space := s1.space + [c])
    else if c in r.breakpoints then
      var s1 := AddWord(r.width, AddSpace(st));
      s1.(buf := s1.buf + [c])
    else
      var s1 := st.(word := st.word + [c]);
      var w := PrintableWidth(r.width, s1.word);
      if s1.lineLen + ByteLen(s1.space) + w > r.limit && w < r.limit then AddNewLine(s1) else s1
  }

  /** The `Write` loop over a whole string. */
  function Run(r: Rules, st: State, s: string): State
    decreases |s|
  {
    if s == [] then st else Run(r, Step(r, st, s[0]), s[1..])
  }

  lemma {:induction false} RunAppend(r: Rules, st: State, a: string, b: string)
    ensures Run(r, st, a + b) == Run(r, Run(r, st, a), b)
    decreases |a|
  {
    if a == [] {
      assert a + b == b;
    } else {
      assert (a + b)[0] == a[0] && (a + b)[1..] == a[1..] + b;
      RunAppend(r, Step(r, st, a[0]), a[1..], b);
    }
  }

  // ---------------------------------------------------------------------
  // How single runes and escape sequences are placed.

  /**
   * A rune that is not a line end, whitespace, breakpoint or escape joins the
   * pending word; nothing of the word is emitted, so words are never split.
   * A line break is emitted exactly when the grown word would overflow the
   * line and is itself narrower than the limit.
   */
  lemma RuneJoinsWord(r: Rules, st: State, c: char)
    requires c != ESC && !st.ansi && c !in r.newlines && !IsSpace(c) && c !in r.breakpoints
    ensures Step(r, st, c).word == st.word + [c]
    ensures var w := PrintableWidth(r.width, st.word + [c]);
      var breaks := st.lineLen + ByteLen(st.space) + w > r.limit && w < r.limit;
      && (breaks ==> Step(r, st, c).buf == st.buf + [NEWLINE] && Step(r, st, c).lineLen == 0)
      && (!breaks ==> Step(r, st, c).buf == st.buf && Step(r, st, c).lineLen == st.lineLen)
  {
  }

  /** Inside a sequence, runes that do not end it only grow the pending word. */
  lemma {:induction false} RunInsideSequence(r: Rules, st: State, body: string)
    requires st.ansi && NoTerminator(SeqTerminator, body)
    ensures Run(r, st, body) == st.(word := st.word + body)
    decreases |body|
  {
    if body == [] {
      assert st.word + body == st.word;
    } else {
      assert NoTerminator(SeqTerminator, body[1..]) by {
        forall i | 0 <= i < |body[1..]| ensures body[1..][i] == ESC || !SeqTerminator(body[1..][i]) {
          assert body[1..][i] == body[i + 1];
        }
      }
      var st1 := Step(r, st, body[0]);
      assert st1 == st.(word := st.word + [body[0]]);
      RunInsideSequence(r, st1, body[1..]);
      assert st.word + [body[0]] + body[1..] == st.word + body;
    }
  }

  /**
   * A complete escape sequence joins the pending word, whatever the line
   * length, and leaves the word's printable width unchanged.
   */
  lemma SequenceJoinsWord(r: Rules, st: State, body: string, t: char)
    requires Synced(r, st) && !st.ansi && NoTerminator(SeqTerminator, body) && SeqTerminator(t)
    ensures var q := [ESC] + body + [t];
      && Run(r, st, q) == st.(word := st.word + q)
      && PrintableWidth(r.width, st.word + q) == PrintableWidth(r.width, st.word)
  {
    var q := [ESC] + body + [t];
    var st1 := st.(word := st.word + [ESC], ansi := true);
    assert Step(r, st, ESC) == st1;
    RunAppend(r, st, [ESC], body);
    RunInsideSequence(r, st1, body);
    var st2 := st1.(word := st1.word + body);
    RunAppend(r, st, [ESC] + body, [t]);
    assert Run(r, st2, [t]) == Step(r, st2, t);
    assert st2.word + [t] == st.word + q;
    var sc := ScanFrom(SeqTerminator, r.width, Start, st.word);
    ScanAppend(SeqTerminator, r.width, Start, st.word, q);
    SequenceInvisible(SeqTerminator, r.width, sc, body, t);
  }

  // ---------------------------------------------------------------------
  // Nothing but whitespace is added, dropped or reordered.

  /** The visible text held by the writer, in output order. */
  function Content(st: State): string {
    Visible(st.buf) + Visible(st.word)
  }

  lemma AddSpaceContent(st: State)
    requires Blank(st.space)
    ensures Content(AddSpace(st)) == Content(st)
  {
    VisibleAppend(st.buf, st.space);
    BlankInvisible(st.space);
  }

  lemma AddWordContent(width: char -> nat, st: State)
    requires Blank(st.space)
    ensures Content(AddWord(width, st)) == Content(st) && Blank(AddWord(width, st).space)
  {
    if st.word != [] {
      AddSpaceContent(st);
      var s1 := AddSpace(st);
      VisibleAppend(s1.buf, st.word);
      assert Visible([]) == [];
    }
  }

  lemma AddNewLineContent(st: State)
    ensures Content(AddNewLine(st)) == Content(st)
  {
    VisibleAppend(st.buf, [NEWLINE]);
  }

  lemma SettleSpaceContent(limit: int, st: State)
    requires Blank(st.space)
    ensures Content(SettleSpace(limit, st)) == Content(st) && Blank(SettleSpace(limit, st).space)
  {
    VisibleAppend(st.buf, st.space);
    BlankInvisible(st.space);
  }

  lemma StepContent(r: Rules, st: State, c: char)
    requires Blank(st.space) && Blank(r.newlines)
    ensures Blank(Step(r, st, c).space)
    ensures Content(Step(r, st, c)) == Content(st) + Visible([c])
  {
    if c == ESC || st.ansi {
      VisibleAppend(st.word, [c]);
    } else if c in r.newlines {
      SettleSpaceContent(r.limit, st);
      var s1 := SettleSpace(r.limit, st);
      AddWordContent(r.width, s1);
      AddNewLineContent(AddWord(r.width, s1));
      assert IsSpace(c);
    } else if IsSpace(c) {
      AddWordContent(r.width, st);
      var s1 := AddWord(r.width, st);
      assert Blank(s1.space + [c]);
    } else if c in r.breakpoints {
      AddSpaceContent(st);
      AddWordContent(r.width, AddSpace(st));
      var s1 := AddWord(r.width, AddSpace(st));
      VisibleAppend(s1.buf, [c]);
      assert s1.word == [] && Visible([]) == [];
    } else {
      VisibleAppend(st.word, [c]);
      AddNewLineContent(st.(word := st.word + [c]));
    }
  }

  /**
   * When every line-end rune is whitespace, the visible text of the input
   * reaches the output (or the pending word) unchanged and in order.
   */
  lemma {:induction false} RunContent(r: Rules, st: State, s: string)
    requires Blank(st.space) && Blank(r.newlines)
    ensures Blank(Run(r, st, s).space)
    ensures Content(Run(r, st, s)) == Content(st) + Visible(s)
    decreases |s|
  {
    if s != [] {
      StepContent(r, st, s[0]);
      RunContent(r, Step(r, st, s[0]), s[1..]);
      VisibleAppend([s[0]], s[1..]);
      assert [s[0]] + s[1..] == s;
    }
  }

  // ---------------------------------------------------------------------
  // A line break is taken before a word that would overflow.

  /** The pending word's scanner state agrees with `ansi`. */
  predicate Synced(r: Rules, st: State) {
    ScanFrom(SeqTerminator, r.width, Start, st.word).ansi == st.ansi
  }

  /**
   * A pending word with visible width either is at least the limit wide (it
   * will never be broken) or fits on the current line after the pending space.
   */
  predicate Fits(r: Rules, st: State) {
    var w := PrintableWidth(r.width, st.word);
    w == 0 || w >= r.limit || st.lineLen + ByteLen(st.space) + w <= r.limit
  }

  predicate Inv(r: Rules, st: State) {
    Synced(r, st) && Fits(r, st)
  }

  lemma EmptyInv(r: Rules)
    ensures Inv(r, Empty)
  {
  }

  lemma StepInv(r: Rules, st: State, c: char)
    requires Inv(r, st)
    ensures Inv(r, Step(r, st, c))
  {
    var sc := ScanFrom(SeqTerminator, r.width, Start, st.word);
    ScanAppend(SeqTerminator, r.width, Start, st.word, [c]);
    assert ScanFrom(SeqTerminator, r.width, Start, st.word + [c]) == Acc(SeqTerminator, r.width, sc, c);
  }

  lemma {:induction false} RunInv(r: Rules, st: State, s: string)
    requires Inv(r, st)
    ensures Inv(r, Run(r, st, s))
    decreases |s|
  {
    if s != [] {
      StepInv(r, st, s[0]);
      RunInv(r, Step(r, st, s[0]), s[1..]);
    }
  }

  /** A word narrower than the limit, once placed, leaves the line within the limit. */
  lemma PlacedWordFits(r: Rules, st: State)
    requires Fits(r, st) && 0 < PrintableWidth(r.width, st.word) < r.limit
    ensures AddWord(r.width, st).lineLen <= r.limit
  {
  }

  // ---------------------------------------------------------------------
  // Plain text, a word at a time.

  /** A rune that joins the pending word outside a sequence. */
  predicate WordRune(r: Rules, c: char) {
    c != ESC && c !in r.newlines && !IsSpace(c) && c !in r.breakpoints
  }

  /**
   * The number of one-cell runes after which a pending word of width `w0`
   * no longer fits on the line after the pending space; at least one.
   */
  function Overflow(limit: int, used: int, w0: int): int {
    var k := limit - used - w0 + 1;
    if k < 1 then 1 else k
  }

  /**
   * The writer after a run `s` of one-cell word runes, the pending word being
   * `w0` wide and `used` columns of the line taken: `s` joins the word, and a
   * line break goes first when the run reaches the rune at which the word
   * overflows the line while still narrower than the limit.
   */
  function WordPlaced(limit: int, st: State, s: string, w0: int, used: int): State {
    var k := Overflow(limit, used, w0);
    if k <= |s| && w0 + k < limit
    then st.(buf := st.buf + [NEWLINE], lineLen := 0, space := [], word := st.word + s)
    else st.(word := st.word + s)
  }

  /**
   * A run of one-cell word runes only grows the pending word. A line break
   * is written at most once: before the rune at which the word first
   * overflows the line, if the run reaches that rune and the word is then
   * still narrower than the limit.
   */
  lemma {:induction false} WordRun(r: Rules, st: State, s: string)
    requires Synced(r, st) && !st.ansi
    requires forall i :: 0 <= i < |s| ==> WordRune(r, s[i]) && r.width(s[i]) == 1
    ensures Run(r, st, s) == WordPlaced(r.limit, st, s, PrintableWidth(r.width, st.word), st.lineLen + ByteLen(st.space))
    ensures PrintableWidth(r.width, st.word + s) == PrintableWidth(r.width, st.word) + |s|
    ensures Synced(r, st.(word := st.word + s))
    decreases |s|
  {
    if s == [] {
      assert st.word + s == st.word;
    } else {
      var c := s[0];
      var sc := ScanFrom(SeqTerminator, r.width, Start, st.word);
      ScanAppend(SeqTerminator, r.width, Start, st.word, [c]);
      assert ScanFrom(SeqTerminator, r.width, sc, [c]) == Acc(SeqTerminator, r.width, sc, c);
      var st1 := Step(r, st, c);
      assert st1.word == st.word + [c] && !st1.ansi && Synced(r, st1);
      forall i | 0 <= i < |s[1..]| ensures WordRune(r, s[1..][i]) && r.width(s[1..][i]) == 1 {
        assert s[1..][i] == s[i + 1];
      }
      WordRun(r, st1, s[1..]);
      assert st1.word + s[1..] == st.word + s;
      assert ByteLen([]) == 0;
    }
  }

  /** The settings both writers install: `-` breaks, `\n` ends a line, printable ASCII is one column. */
  ghost predicate PlainRules(r: Rules) {
    r.breakpoints == ['-'] && r.newlines == [NEWLINE] && AsciiCells(r.width)
  }

  /** A state reached on plain text: no open sequence, a printable ASCII word, blanks and tabs pending. */
  predicate PlainState(st: State) {
    !st.ansi && Printable(st.word) && forall i :: 0 <= i < |st.space| ==> st.space[i] == ' ' || st.space[i] == '\t'
  }

  /** On plain text the pending word is as wide as it is long, and the pending space as many bytes. */
  lemma PlainMeasures(r: Rules, st: State)
    requires PlainRules(r) && PlainState(st)
    ensures PrintableWidth(r.width, st.word) == |st.word|
    ensures ByteLen(st.space) == |st.space|
    ensures Synced(r, st)
  {
    PrintableWidthIsLength(r.width, st.word);
    PlainText(SeqTerminator, r.width, 0, st.word);
    BlanksByteLen(st.space);
  }

  lemma {:induction false} BlanksByteLen(s: string)
    requires forall i :: 0 <= i < |s| ==> s[i] == ' ' || s[i] == '\t'
    ensures ByteLen(s) == |s|
    decreases |s|
  {
    if s != [] {
      BlanksByteLen(s[1..]);
    }
  }

  /** Printable ASCII other than blank and hyphen. */
  predicate WordText(p: string) {
    forall c :: c in p ==> ' ' < c <= '~' && c != '-'
  }

  /** Blanks and tabs only. */
  predicate BlankText(p: string) {
    forall c :: c in p ==> c == ' ' || c == '\t'
  }

  lemma WordTextChars(p: string)
    requires WordText(p)
    ensures Printable(p) && ' ' !in p && '-' !in p
  {
    forall i | 0 <= i < |p| ensures ' ' <= p[i] <= '~' {
      assert p[i] in p;
    }
  }

  /** A piece of plain text: a word, a run of blanks, a line end or a hyphen. */
  predicate IsPiece(p: string) {
    |p| != 0 && (WordText(p) || BlankText(p) || (|p| == 1 && (p[0] == NEWLINE || p[0] == '-')))
  }

  /** The pending space and word moved to the line, measured by their lengths. */
  function Placed(st: State): State {
    if |st.word| == 0 then st
    else st.(buf := st.buf + st.space + st.word, lineLen := st.lineLen + |st.space| + |st.word|, space := [], word := [])
  }

  /**
   * Reference description of the loop on plain text, a piece at a time: a
   * line end keeps the pending word, and the pending space unless it
   * overflows a line with no word after it; a hyphen places space, word and
   * itself; blanks place the word and are held; a word is held and a break
   * goes before it when it comes to overflow the line while narrower than
   * the limit.
   */
  function PlainNext(limit: int, st: State, p: string): State {
    if |p| == 1 && p[0] == NEWLINE then
      if |st.word| == 0 && st.lineLen + |st.space| > limit then State(st.buf + [NEWLINE], [], [], 0, st.ansi)
      else State(st.buf + st.space + st.word + [NEWLINE], [], [], 0, st.ansi)
    else if |p| == 1 && p[0] == '-' then
      State(st.buf + st.space + st.word + ['-'], [], [], st.lineLen + |st.space| + |st.word|, st.ansi)
    else if |p| != 0 && (p[0] == ' ' || p[0] == '\t') then
      if |st.word| == 0 then State(st.buf, st.space + p, [], st.lineLen, st.ansi)
      else State(st.buf + st.space + st.word, p, [], st.lineLen + |st.space| + |st.word|, st.ansi)
    else
      var k := Overflow(limit, st.lineLen + |st.space|, |st.word|);
      if k <= |p| && |st.word| + k < limit then State(st.buf + [NEWLINE], [], st.word + p, 0, st.ansi)
      else State(st.buf, st.space, st.word + p, st.lineLen, st.ansi)
  }

  /**
   * A printable ASCII word without blank or hyphen, written in a plain
   * state, is placed as `WordRun` says, every measure being a length.
   */
  lemma PlainWord(r: Rules, st: State, w: string)
    requires PlainRules(r) && PlainState(st)
    requires Printable(w) && ' ' !in w && '-' !in w
    ensures Run(r, st, w) == WordPlaced(r.limit, st, w, |st.word|, st.lineLen + |st.space|)
  {
    PlainMeasures(r, st);
    PlainWordRunes(r, w);
    WordRunAt(r, st, w, |st.word|, st.lineLen + |st.space|);
  }

  /** `WordRun` with the word's width and the line's length given as numbers. */
  lemma WordRunAt(r: Rules, st: State, s: string, w0: int, used: int)
    requires Synced(r, st) && !st.ansi
    requires forall i :: 0 <= i < |s| ==> WordRune(r, s[i]) && r.width(s[i]) == 1
    requires w0 == PrintableWidth(r.width, st.word) && used == st.lineLen + ByteLen(st.space)
    ensures Run(r, st, s) == WordPlaced(r.limit, st, s, w0, used)
  {
    WordRun(r, st, s);
  }

  lemma PlainWordRunes(r: Rules, w: string)
    requires PlainRules(r) && Printable(w) && ' ' !in w && '-' !in w
    ensures forall i :: 0 <= i < |w| ==> WordRune(r, w[i]) && r.width(w[i]) == 1
  {
    forall i | 0 <= i < |w| ensures WordRune(r, w[i]) && r.width(w[i]) == 1 {
      assert w[i] in w;
    }
  }

  lemma PlainEnd(r: Rules, st: State, c: char)
    requires PlainRules(r) && PlainState(st) && (c == NEWLINE || c == '-')
    ensures Run(r, st, [c]) == PlainNext(r.limit, st, [c])
  {
    PlainMeasures(r, st);
    assert Run(r, st, [c]) == Step(r, st, c);
  }

  /** On plain text `addWord` is `Placed`. */
  lemma PlainAddWord(r: Rules, st: State)
    requires PlainRules(r) && PlainState(st)
    ensures AddWord(r.width, st) == Placed(st)
  {
    PlainMeasures(r, st);
  }

  lemma PlainBlank(r: Rules, st: State, c: char)
    requires PlainRules(r) && PlainState(st) && (c == ' ' || c == '\t')
    ensures Step(r, st, c) == Placed(st).(space := Placed(st).space + [c])
  {
    PlainAddWord(r, st);
    assert IsSpace(c) && c != ESC && c !in r.newlines;
  }

  /** Blanks place the pending word and are held as pending space. */
  lemma {:induction false} PlainBlanks(r: Rules, st: State, b: string)
    requires PlainRules(r) && PlainState(st) && BlankText(b) && b != []
    ensures Run(r, st, b) == Placed(st).(space := Placed(st).space + b)
    ensures PlainState(Placed(st).(space := Placed(st).space + b))
    decreases |b|
  {
    assert b[0] in b;
    PlainBlank(r, st, b[0]);
    var s1 := Placed(st).(space := Placed(st).space + [b[0]]);
    if |b| == 1 {
      assert b == [b[0]] && PlainState(s1);
    } else {
      assert PlainState(s1) && Placed(s1) == s1;
      assert forall c :: c in b[1..] ==> c in b;
      PlainBlanks(r, s1, b[1..]);
      assert s1.space + b[1..] == Placed(st).space + b;
    }
  }

  /** On plain text the rune loop does what the reference says, piece by piece. */
  lemma PlainPiece(r: Rules, st: State, p: string)
    requires PlainRules(r) && PlainState(st) && IsPiece(p)
    ensures Run(r, st, p) == PlainNext(r.limit, st, p)
    ensures PlainState(PlainNext(r.limit, st, p))
  {
    assert p[0] in p;
    if |p| == 1 && (p[0] == NEWLINE || p[0] == '-') {
      PlainEnd(r, st, p[0]);
    } else if p[0] == ' ' || p[0] == '\t' {
      assert !WordText(p);
      PlainBlanks(r, st, p);
      assert PlainNext(r.limit, st, p) == Placed(st).(space := Placed(st).space + p);
    } else {
      assert !BlankText(p);
      PlainWordPiece(r, st, p);
    }
  }

  lemma PlainWordPiece(r: Rules, st: State, p: string)
    requires PlainRules(r) && PlainState(st) && |p| != 0 && WordText(p)
    ensures Run(r, st, p) == PlainNext(r.limit, st, p)
    ensures PlainState(PlainNext(r.limit, st, p))
  {
    WordTextChars(p);
    PlainWord(r, st, p);
    assert Printable(st.word + p);
  }

  /** The reference step only appends to the buffer: it can be taken from an empty one. */
  lemma PlainNextBuf(limit: int, st: State, p: string)
    ensures var n := PlainNext(limit, st.(buf := []), p);
      PlainNext(limit, st, p) == n.(buf := st.buf + n.buf)
  {
    var st0 := st.(buf := []);
    assert st.buf + st.space + st.word == st.buf + (st0.buf + st0.space + st0.word);
    assert st.buf + st.space + st.word + [NEWLINE] == st.buf + (st0.buf + st0.space + st0.word + [NEWLINE]);
    assert st.buf + st.space + st.word + ['-'] == st.buf + (st0.buf + st0.space + st0.word + ['-']);
  }

  /**
   * A run of plain text cut into pieces; each step records the text it
   * appends to the buffer and the state after it, its buffer left empty.
   */
  datatype Trace = Done | Then(piece: string, out: string, after: State, rest: Trace)

  /** The text the trace covers. */
  function Input(t: Trace): string {
    match t
    case Done => []
    case Then(p, _, _, rest) => p + Input(rest)
  }

  /** The state after the whole trace, its buffer `st.buf` followed by every step's output. */
  function Last(st: State, t: Trace): State
    decreases t
  {
    match t
    case Done => st
    case Then(_, e, st', rest) => Last(st'.(buf := st.buf + e), rest)
  }

  /** Every piece of `t` is a piece of plain text. */
  predicate Pieces(t: Trace) {
    match t
    case Done => true
    case Then(p, _, _, rest) => IsPiece(p) && Pieces(rest)
  }

  /** Each step of `t` is the reference step, from `st` on, over the next piece. */
  predicate Valid(limit: int, st: State, t: Trace)
    decreases t
  {
    match t
    case Done => true
    case Then(p, e, st', rest) => st'.buf == [] && PlainNext(limit, st, p) == st'.(buf := e) && Valid(limit, st', rest)
  }

  /** On plain text the rune loop ends where a valid trace of reference steps does. */
  lemma {:induction false} TraceRun(r: Rules, st: State, t: Trace)
    requires PlainRules(r) && PlainState(st) && Pieces(t) && Valid(r.limit, st.(buf := []), t)
    ensures Run(r, st, Input(t)) == Last(st, t)
    ensures PlainState(Last(st, t))
    decreases t
  {
    match t
    case Done =>
    case Then(p, e, st', rest) =>
      PlainPiece(r, st, p);
      PlainNextBuf(r.limit, st, p);
      var s1 := st'.(buf := st.buf + e);
      assert Run(r, st, p) == s1 && s1.(buf := []) == st';
      TraceRun(r, s1, rest);
      RunAppend(r, st, p, Input(rest));
  }

  /**
   * `t` replays the plain text `s` from a fresh writer: its pieces make up
   * `s`, each step is the reference step, and placing the last pending word
   * leaves the buffer `o`.
   */
  predicate Replays(limit: int, t: Trace, s: string, o: string) {
    Pieces(t) && Valid(limit, Empty, t) && Input(t) == s && Placed(Last(Empty, t)).buf == o
  }

  /** The rune loop and the closing `addWord` turn replayed text into the replay's output. */
  lemma ReplayRun(r: Rules, t: Trace, s: string, o: string)
    requires PlainRules(r) && Replays(r.limit, t, s, o)
    ensures AddWord(r.width, Run(r, Empty, s)).buf == o
  {
    TraceRun(r, Empty, t);
    PlainAddWord(r, Last(Empty, t));
  }

  /**
   * `t` carries the writer over the plain text `s` from `st` to `st'`: a
   * segment of a longer replay, its buffer `st.buf` followed by the outputs.
   */
  predicate Continues(limit: int, st: State, t: Trace, s: string, st': State) {
    Pieces(t) && Valid(limit, st.(buf := []), t) && Input(t) == s && Last(st, t) == st'
  }

  /** The rune loop over a segment ends where the segment's trace does. */
  lemma ContinueRun(r: Rules, st: State, t: Trace, s: string, st': State)
    requires PlainRules(r) && PlainState(st) && Continues(r.limit, st, t, s, st')
    ensures Run(r, st, s) == st' && PlainState(st')
  {
    TraceRun(r, st, t);
  }

  // ---------------------------------------------------------------------
  // Input preparation used by wordwrap when newlines are not kept.

  /** Whitespace before a blank head keeps the head blank. */
  lemma BlankHead(s: string, k: nat)
    requires 0 < k <= |s| && IsSpace(s[0]) && Blank(s[1..][..k - 1])
    ensures Blank(s[..k])
  {
    assert forall i :: 1 <= i < k ==> s[..k][i] == s[1..][..k - 1][i - 1];
  }

  /** Whitespace after a blank tail keeps the tail blank. */
  lemma BlankTail(s: string, k: nat)
    requires k < |s| && IsSpace(s[|s| - 1]) && Blank(s[..|s| - 1][k..])
    ensures Blank(s[k..])
  {
    assert forall i :: 0 <= i < |s| - 1 - k ==> s[k..][i] == s[..|s| - 1][k..][i];
  }

  /** A leading whitespace rune is not visible. */
  lemma VisibleFirstSpace(c: char, s: string)
    requires IsSpace(c)
    ensures Visible([c] + s) == Visible(s)
  {
    assert ([c] + s)[1..] == s;
  }

  /** A trailing whitespace rune is not visible. */
  lemma VisibleLastSpace(s: string, c: char)
    requires IsSpace(c)
    ensures Visible(s + [c]) == Visible(s)
  {
    VisibleAppend(s, [c]);
    VisibleFirstSpace(c, []);
    assert [c] + [] == [c];
  }

  /** `strings.TrimLeftFunc(s, unicode.IsSpace)`. */
  function TrimLeft(s: string): (t: string)
    ensures t == [] || !IsSpace(t[0])
    ensures Visible(t) == Visible(s)
    decreases |s|
  {
    if s != [] && IsSpace(s[0]) then
      assert s == [s[0]] + s[1..];
      VisibleFirstSpace(s[0], s[1..]);
      TrimLeft(s[1..])
    else s
  }

  /** What `TrimLeft` keeps is a suffix of `s`, and what it drops is whitespace. */
  lemma {:induction false} TrimLeftSuffix(s: string)
    ensures var t := TrimLeft(s);
      |t| <= |s| && t == s[|s| - |t|..] && Blank(s[..|s| - |t|])
    decreases |s|
  {
    if s != [] && IsSpace(s[0]) {
      TrimLeftSuffix(s[1..]);
      var t := TrimLeft(s[1..]);
      BlankHead(s, |s| - |t|);
      assert s[|s| - |t|..] == s[1..][|s| - 1 - |t|..];
    }
  }

  /** `strings.TrimRightFunc(s, unicode.IsSpace)`. */
  function TrimRight(s: string): (t: string)
    ensures t == [] || !IsSpace(t[|t| - 1])
    ensures Visible(t) == Visible(s)
    decreases |s|
  {
    if s != [] && IsSpace(s[|s| - 1]) then
      assert s == s[..|s| - 1] + [s[|s| - 1]];
      VisibleLastSpace(s[..|s| - 1], s[|s| - 1]);
      TrimRight(s[..|s| - 1])
    else s
  }

  /** What `TrimRight` keeps is a prefix of `s`, and what it drops is whitespace. */
  lemma {:induction false} TrimRightPrefix(s: string)
    ensures var t := TrimRight(s);
      |t| <= |s| && t == s[..|t|] && Blank(s[|t|..])
    decreases |s|
  {
    if s != [] && IsSpace(s[|s| - 1]) {
      TrimRightPrefix(s[..|s| - 1]);
      var t := TrimRight(s[..|s| - 1]);
      BlankTail(s, |t|);
    }
  }

  /** A prefix `t` of a suffix `l` of `s`, each cut at whitespace, is a slice of `s` between whitespace. */
  lemma SliceOfSuffix(s: string, l: string, t: string)
    requires |l| <= |s| && l == s[|s| - |l|..] && Blank(s[..|s| - |l|])
    requires |t| <= |l| && t == l[..|t|] && Blank(l[|t|..])
    ensures exists i, j :: 0 <= i <= j <= |s| && t == s[i..j] && Blank(s[..i]) && Blank(s[j..])
  {
    var i := |s| - |l|;
    assert s[i + |t|..] == l[|t|..];
    assert t == s[i..i + |t|];
  }

  /** Trimming both ends keeps a slice of `s` that starts and ends visible. */
  lemma TrimmedBothEnds(s: string)
    ensures var t := TrimRight(TrimLeft(s));
      (exists i, j :: 0 <= i <= j <= |s| && t == s[i..j] && Blank(s[..i]) && Blank(s[j..])) &&
      (t == [] || (!IsSpace(t[0]) && !IsSpace(t[|t| - 1])))
  {
    var l := TrimLeft(s);
    var t := TrimRight(l);
    TrimLeftSuffix(s);
    TrimRightPrefix(l);
    SliceOfSuffix(s, l, t);
    if t != [] {
      assert t[0] == l[0];
    }
  }

  /**
   * `strings.TrimSpace`: the slice of `s` between its leading and its
   * trailing whitespace.
   */
  function TrimSpace(s: string): (t: string)
    ensures exists i, j :: 0 <= i <= j <= |s| && t == s[i..j] && Blank(s[..i]) && Blank(s[j..])
    ensures t == [] || (!IsSpace(t[0]) && !IsSpace(t[|t| - 1]))
    ensures Visible(t) == Visible(s)
  {
    TrimmedBothEnds(s);
    TrimRight(TrimLeft(s))
  }

  /** `strings.Replace(s, "\n", " ", -1)`. */
  function NewlinesToSpaces(s: string): (t: string)
    ensures |t| == |s| && NEWLINE !in t
    ensures forall i :: 0 <= i < |s| ==> t[i] == if s[i] == NEWLINE then ' ' else s[i]
    ensures Visible(t) == Visible(s)
    decreases |s|
  {
    if s == [] then []
    else
      var c := if s[0] == NEWLINE then ' ' else s[0];
      var t := [c] + NewlinesToSpaces(s[1..]);
      assert t[1..] == NewlinesToSpaces(s[1..]);
      t
  }
}
