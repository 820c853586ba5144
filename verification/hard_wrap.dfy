/**
 * wrap/wrap.go: the hard-wrapping writer. Unlike the word wrappers it breaks
 * anywhere, between grapheme clusters, as soon as the next visible cluster
 * would run past `Limit`. Tabs are expanded first, input line ends are
 * honoured or removed, escape clusters are copied without being measured,
 * and a whitespace cluster that would open a line created by a forced break
 * can be dropped.
 */
module HardWrap {
  import opened Unicode
  import opened Text
  import opened AnsiWidth

  /** The exported settings of `Wrap` (`Limit`, `Newline`, `KeepNewlines`, `PreserveSpace`, `TabWidth`). */
  datatype Rules = Rules(limit: int, newline: seq<char>, keepNewlines: bool, preserveSpace: bool, tabWidth: nat, env: Env)

  /** The unexported state: `buf`, `lineLen`, `ansi`, `forcefulNewline`. */
  datatype State = State(buf: string, lineLen: nat, ansi: bool, forceful: bool)

  const Empty: State := State([], 0, false, false)

  /** The settings `NewWriter(limit)` installs. */
  function Defaults(env: Env, limit: int): Rules {
    Rules(limit, [NEWLINE], true, false, 4, env)
  }

  /** Every tab replaced by `tabWidth` spaces (`strings.Replace` with `strings.Repeat`). */
  function ExpandTabs(s: string, tabWidth: nat): string
    decreases |s|
  {
    if s == [] then []
    else (if s[0] == '\t' then Repeat(' ', tabWidth) else [s[0]]) + ExpandTabs(s[1..], tabWidth)
  }

  /** No tab survives, and text without tabs is left alone. */
  lemma {:induction false} ExpandTabsSpec(s: string, tabWidth: nat)
    ensures '\t' !in ExpandTabs(s, tabWidth)
    ensures '\t' !in s ==> ExpandTabs(s, tabWidth) == s
    decreases |s|
  {
    if s != [] {
      ExpandTabsSpec(s[1..], tabWidth);
      assert s == [s[0]] + s[1..];
    }
  }

  /** Expanding tabs distributes over concatenation. */
  lemma {:induction false} ExpandTabsAppend(a: string, b: string, tabWidth: nat)
    ensures ExpandTabs(a + b, tabWidth) == ExpandTabs(a, tabWidth) + ExpandTabs(b, tabWidth)
    decreases |a|
  {
    if a == [] {
      assert a + b == b;
    } else {
      assert (a + b)[0] == a[0] && (a + b)[1..] == a[1..] + b;
      ExpandTabsAppend(a[1..], b, tabWidth);
    }
  }

  /** A tab becomes exactly `tabWidth` spaces, and any other rune is kept. */
  lemma ExpandTabsRune(c: char, tabWidth: nat)
    ensures ExpandTabs([c], tabWidth) == if c == '\t' then Repeat(' ', tabWidth) else [c]
  {
    assert [c][1..] == [];
  }

  /** Every `\n` removed (`strings.Replace(s, "\n", "", -1)`). */
  function DropNewlines(s: string): string
    decreases |s|
  {
    if s == [] then [] else (if s[0] == NEWLINE then [] else [s[0]]) + DropNewlines(s[1..])
  }

  /** No line end survives, and text without line ends is left alone. */
  lemma {:induction false} DropNewlinesSpec(s: string)
    ensures NEWLINE !in DropNewlines(s)
    ensures NEWLINE !in s ==> DropNewlines(s) == s
    decreases |s|
  {
    if s != [] {
      DropNewlinesSpec(s[1..]);
      assert s == [s[0]] + s[1..];
    }
  }

  lemma {:induction false} DropNewlinesAppend(a: string, b: string)
    ensures DropNewlines(a + b) == DropNewlines(a) + DropNewlines(b)
    decreases |a|
  {
    if a == [] {
      assert a + b == b;
    } else {
      assert (a + b)[0] == a[0] && (a + b)[1..] == a[1..] + b;
      DropNewlinesAppend(a[1..], b);
    }
  }

  /** A line end followed by a piece without line ends is simply removed. */
  lemma DropNewlinesBefore(x: string, y: string)
    requires NEWLINE !in y
    ensures DropNewlines(x + [NEWLINE] + y) == DropNewlines(x) + y
  {
    DropNewlinesAppend(x + [NEWLINE], y);
    DropNewlinesAppend(x, [NEWLINE]);
    DropNewlinesSpec(y);
  }

  /** The text `Write` measures and segments. */
  function Prepared(r: Rules, b: string): string {
    var s := ExpandTabs(b, r.tabWidth);
    if r.keepNewlines then s else DropNewlines(s)
  }

  /** `addNewLine`. */
  function AddNewLine(st: State): State {
    st.(buf := st.buf + [NEWLINE], lineLen := 0)
  }

  /** One iteration of the cluster loop, for cluster `cl` of width `w`. */
  function Step(r: Rules, st: State, cl: string, w: nat): State {
    if |cl| == 1 && cl[0] == r.env.marker then
      st.(buf := st.buf + cl, ansi := true)
    else if |cl| == 1 && st.ansi && r.env.isTerm(cl[0]) then
      st.(buf := st.buf + cl, ansi := false)
    else if st.ansi then
      st.(buf := st.buf + cl)
    else if |cl| == 1 && cl[0] in r.newline then
      AddNewLine(st).(forceful := false)
    else
      var s1 := if st.lineLen + w > r.limit then AddNewLine(st).(forceful := true) else st;
      if s1.lineLen == 0 && |cl| == 1 && s1.forceful && !r.preserveSpace && IsSpace(cl[0]) then s1
      else
        var s2 := if s1.lineLen == 0 then s1 else s1.(forceful := false);
        s2.(buf := s2.buf + cl, lineLen := s2.lineLen + w)
  }

  /** The cluster loop over a list of clusters. */
  function Run(r: Rules, st: State, cs: seq<string>): State
    decreases |cs|
  {
    if cs == [] then st else Run(r, Step(r, st, cs[0], r.env.clusterWidth(cs[0])), cs[1..])
  }

  /**
   * What `Write(b)` does: when there is no limit, or the whole prepared text
   * fits on the current line, the ORIGINAL bytes are copied and `lineLen`
   * grows by the prepared width; otherwise the cluster loop runs.
   */
  function Written(r: Rules, st: State, b: string): State {
    var s := Prepared(r, b);
    var w := PrintableWidth(r.env.width, s);
    if r.limit <= 0 || st.lineLen + w <= r.limit then st.(buf := st.buf + b, lineLen := st.lineLen + w)
    else Run(r, st, r.env.seg(s))
  }

  /** `String(s, limit)` (and `Bytes`): a fresh default writer and one `Write`. */
  function Wrapped(env: Env, s: string, limit: int): string {
    Written(Defaults(env, limit), Empty, s).buf
  }

  lemma {:induction false} RunAppend(r: Rules, st: State, a: seq<string>, b: seq<string>)
    ensures Run(r, st, a + b) == Run(r, Run(r, st, a), b)
    decreases |a|
  {
    if a == [] {
      assert a + b == b;
    } else {
      assert (a + b)[0] == a[0] && (a + b)[1..] == a[1..] + b;
      RunAppend(r, Step(r, st, a[0], r.env.clusterWidth(a[0])), a[1..], b);
    }
  }

  // ---------------------------------------------------------------------
  // What a single cluster does.

  /** The marker and every cluster inside a sequence are copied without touching `lineLen`. */
  lemma EscapeClusterUnmeasured(r: Rules, st: State, cl: string, w: nat)
    requires (|cl| == 1 && cl[0] == r.env.marker) || st.ansi
    ensures Step(r, st, cl, w).buf == st.buf + cl
    ensures Step(r, st, cl, w).lineLen == st.lineLen
    ensures Step(r, st, cl, w).forceful == st.forceful
  {
  }

  /** An input line end becomes `\n`, starts a new line, and is not a forced break. */
  lemma NewlineClusterBreaks(r: Rules, st: State, c: char, w: nat)
    requires !st.ansi && c != r.env.marker && c in r.newline
    ensures Step(r, st, [c], w) == State(st.buf + [NEWLINE], 0, false, false)
  {
  }

  /** The clusters the default branch handles: visible, neither marker nor line end, outside a sequence. */
  predicate Measured(r: Rules, st: State, cl: string) {
    !st.ansi && !(|cl| == 1 && (cl[0] == r.env.marker || cl[0] in r.newline))
  }

  /**
   * A `\n` is inserted before a measured cluster exactly when it would run
   * past the limit; after such a break a lone whitespace cluster is dropped
   * unless `PreserveSpace` is set.
   */
  lemma BreakIffOverflow(r: Rules, st: State, cl: string, w: nat)
    requires Measured(r, st, cl)
    ensures var brk := st.lineLen + w > r.limit;
      var drop := brk && |cl| == 1 && IsSpace(cl[0]) && !r.preserveSpace;
      Step(r, st, cl, w).buf == st.buf + (if brk then [NEWLINE] else []) + (if drop || (!brk && st.lineLen == 0 && st.forceful && |cl| == 1 && IsSpace(cl[0]) && !r.preserveSpace) then [] else cl)
  {
  }

  /** Once a line holds something, the next measured cluster clears `forcefulNewline` unless it breaks. */
  lemma FitClearsForceful(r: Rules, st: State, cl: string, w: nat)
    requires Measured(r, st, cl) && st.lineLen > 0 && st.lineLen + w <= r.limit
    ensures Step(r, st, cl, w) == State(st.buf + cl, st.lineLen + w, false, false)
  {
  }

  /** A forced break sets `forcefulNewline`; a whitespace cluster that caused it vanishes. */
  lemma ForcedBreakSpace(r: Rules, st: State, c: char, w: nat)
    requires Measured(r, st, [c]) && IsSpace(c) && st.lineLen + w > r.limit
    ensures Step(r, st, [c], w) ==
      if r.preserveSpace then State(st.buf + [NEWLINE, c], w, false, true)
      else State(st.buf + [NEWLINE], 0, false, true)
  {
  }

  // ---------------------------------------------------------------------
  // Nothing but whitespace is added, dropped or reordered.

  lemma {:induction false} ExpandTabsVisible(s: string, tabWidth: nat)
    ensures Visible(ExpandTabs(s, tabWidth)) == Visible(s)
    decreases |s|
  {
    if s != [] {
      var head := if s[0] == '\t' then Repeat(' ', tabWidth) else [s[0]];
      assert s == [s[0]] + s[1..];
      VisibleAppend([s[0]], s[1..]);
      VisibleAppend(head, ExpandTabs(s[1..], tabWidth));
      if s[0] == '\t' {
        BlankInvisible(head);
        BlankInvisible([s[0]]);
      }
      ExpandTabsVisible(s[1..], tabWidth);
    }
  }

  lemma {:induction false} DropNewlinesVisible(s: string)
    ensures Visible(DropNewlines(s)) == Visible(s)
    decreases |s|
  {
    if s != [] {
      var head := if s[0] == NEWLINE then [] else [s[0]];
      assert s == [s[0]] + s[1..];
      VisibleAppend([s[0]], s[1..]);
      VisibleAppend(head, DropNewlines(s[1..]));
      DropNewlinesVisible(s[1..]);
    }
  }

  lemma PreparedVisible(r: Rules, b: string)
    ensures Visible(Prepared(r, b)) == Visible(b)
  {
    ExpandTabsVisible(b, r.tabWidth);
    if !r.keepNewlines {
      DropNewlinesVisible(ExpandTabs(b, r.tabWidth));
    }
  }

  lemma StepVisibleA(r: Rules, st: State, cl: string, w: nat)
    requires (|cl| == 1 && cl[0] == r.env.marker) || st.ansi
    ensures Visible(Step(r, st, cl, w).buf) == Visible(st.buf) + Visible(cl)
  {
    EscapeClusterUnmeasured(r, st, cl, w);
    VisibleAppend(st.buf, cl);
  }

  lemma StepVisibleB(r: Rules, st: State, cl: string, w: nat)
    requires !st.ansi && |cl| == 1 && cl[0] != r.env.marker && cl[0] in r.newline && IsSpace(cl[0])
    ensures Visible(Step(r, st, cl, w).buf) == Visible(st.buf) + Visible(cl)
  {
    NewlineClusterBreaks(r, st, cl[0], w);
    assert [cl[0]] == cl;
    VisibleAppend(st.buf, [NEWLINE]);
  }

  lemma StepVisibleC(r: Rules, st: State, cl: string, w: nat)
    requires Measured(r, st, cl)
    ensures Visible(Step(r, st, cl, w).buf) == Visible(st.buf) + Visible(cl)
  {
    var nl := [NEWLINE];
    BreakIffOverflow(r, st, cl, w);
    var brk: string := if st.lineLen + w > r.limit then nl else [];
    var kept: string := Step(r, st, cl, w).buf[|st.buf + brk|..];
    assert Step(r, st, cl, w).buf == st.buf + brk + kept;
    assert Visible(brk) == [];
    assert Visible(kept) == Visible(cl) by {
      if kept != cl {
        assert kept == [] && |cl| == 1 && IsSpace(cl[0]);
      }
    }
    VisibleAppend(st.buf, brk);
    VisibleAppend(st.buf + brk, kept);
  }

  lemma StepVisible(r: Rules, st: State, cl: string, w: nat)
    requires Blank(r.newline)
    ensures Visible(Step(r, st, cl, w).buf) == Visible(st.buf) + Visible(cl)
  {
    if (|cl| == 1 && cl[0] == r.env.marker) || st.ansi {
      StepVisibleA(r, st, cl, w);
    } else if |cl| == 1 && cl[0] in r.newline {
      StepVisibleB(r, st, cl, w);
    } else {
      StepVisibleC(r, st, cl, w);
    }
  }

  lemma {:induction false} RunVisible(r: Rules, st: State, cs: seq<string>)
    requires Blank(r.newline)
    ensures Visible(Run(r, st, cs).buf) == Visible(st.buf) + Visible(Concat(cs))
    decreases |cs|
  {
    if cs == [] {
      assert Visible([]) == [];
    } else {
      var st1 := Step(r, st, cs[0], r.env.clusterWidth(cs[0]));
      StepVisible(r, st, cs[0], r.env.clusterWidth(cs[0]));
      RunVisible(r, st1, cs[1..]);
      VisibleChain(st.buf, st1.buf, Run(r, st1, cs[1..]).buf, cs[0], Concat(cs[1..]));
    }
  }

  lemma VisibleChain(before: string, mid: string, after: string, a: string, b: string)
    requires Visible(mid) == Visible(before) + Visible(a)
    requires Visible(after) == Visible(mid) + Visible(b)
    ensures Visible(after) == Visible(before) + Visible(a + b)
  {
    VisibleAppend(a, b);
    Associative(Visible(before), Visible(a), Visible(b));
  }

  lemma Associative(x: string, y: string, z: string)
    ensures (x + y) + z == x + (y + z)
  {
  }

  /** `Write` never loses or reorders visible text (line-end runes must be whitespace). */
  lemma WrittenVisible(r: Rules, st: State, b: string)
    requires Blank(r.newline) && IsSegmenter(r.env.seg)
    ensures Visible(Written(r, st, b).buf) == Visible(st.buf) + Visible(b)
  {
    var s := Prepared(r, b);
    if r.limit <= 0 || st.lineLen + PrintableWidth(r.env.width, s) <= r.limit {
      VisibleAppend(st.buf, b);
    } else {
      RunVisible(r, st, r.env.seg(s));
      PreparedVisible(r, b);
    }
  }

  // ---------------------------------------------------------------------
  // Lines never run past the limit.

  /**
   * Every cluster the loop measures, running from `st` over `cs`, is at most
   * `limit` cells wide; clusters inside escape sequences and line ends may
   * be any width, as they never count towards the line.
   */
  predicate Narrow(r: Rules, st: State, cs: seq<string>)
    decreases |cs|
  {
    cs == [] ||
      ((Measured(r, st, cs[0]) ==> r.env.clusterWidth(cs[0]) <= r.limit) &&
       Narrow(r, Step(r, st, cs[0], r.env.clusterWidth(cs[0])), cs[1..]))
  }

  lemma StepFits(r: Rules, st: State, cl: string, w: nat)
    requires st.lineLen <= r.limit && (Measured(r, st, cl) ==> w <= r.limit)
    ensures Step(r, st, cl, w).lineLen <= r.limit
  {
  }

  lemma {:induction false} RunFits(r: Rules, st: State, cs: seq<string>)
    requires st.lineLen <= r.limit && Narrow(r, st, cs)
    ensures Run(r, st, cs).lineLen <= r.limit
    decreases |cs|
  {
    if cs != [] {
      var w := r.env.clusterWidth(cs[0]);
      StepFits(r, st, cs[0], w);
      RunFits(r, Step(r, st, cs[0], w), cs[1..]);
    }
  }

  /**
   * With a positive limit, a line that fits keeps fitting across `Write`,
   * provided every cluster the loop measures is at most `limit` wide.
   */
  lemma WrittenFits(r: Rules, st: State, b: string)
    requires 0 < r.limit && st.lineLen <= r.limit && Narrow(r, st, r.env.seg(Prepared(r, b)))
    ensures Written(r, st, b).lineLen <= r.limit
  {
    var s := Prepared(r, b);
    if st.lineLen + PrintableWidth(r.env.width, s) > r.limit {
      RunFits(r, st, r.env.seg(s));
    }
  }

  /** With `Limit <= 0` the input is copied unchanged, tabs and line ends included. */
  lemma WrittenUnlimited(r: Rules, st: State, b: string)
    requires r.limit <= 0
    ensures Written(r, st, b).buf == st.buf + b
    ensures Written(r, st, b).ansi == st.ansi && Written(r, st, b).forceful == st.forceful
  {
  }

  /** Input that fits on the current line is copied unchanged, even its tabs and line ends. */
  lemma WrittenFitting(r: Rules, st: State, b: string)
    requires st.lineLen + PrintableWidth(r.env.width, Prepared(r, b)) <= r.limit
    ensures Written(r, st, b).buf == st.buf + b
    ensures Written(r, st, b).lineLen == st.lineLen + PrintableWidth(r.env.width, Prepared(r, b))
  {
  }

  /** `Wrap`: settings and wrapping state. */
  class Wrap {
    const limit: int
    const newline: seq<char>
    const keepNewlines: bool
    const preserveSpace: bool
    const tabWidth: nat
    const env: Env

    var buf: string
    var lineLen: nat
    var ansi: bool
    var forcefulNewline: bool

    function Config(): Rules {
      Rules(limit, newline, keepNewlines, preserveSpace, tabWidth, env)
    }

    function Fields(): State
      reads this
    {
      State(buf, lineLen, ansi, forcefulNewline)
    }

    /** A writer with the given settings; `NewWriter(limit)` is `limit, ['\n'], true, false, 4`. */
    constructor (limit: int, newline: seq<char>, keepNewlines: bool, preserveSpace: bool, tabWidth: nat, env: Env)
      ensures Config() == Rules(limit, newline, keepNewlines, preserveSpace, tabWidth, env)
      ensures Fields() == Empty
    {
      this.limit, this.newline, this.keepNewlines, this.preserveSpace, this.tabWidth, this.env :=
        limit, newline, keepNewlines, preserveSpace, tabWidth, env;
      buf, lineLen, ansi, forcefulNewline := [], 0, false, false;
    }

    method AddNewLine()
      modifies this
      ensures Fields() == _default.AddNewLine(old(Fields()))
    {
      buf := buf + [NEWLINE];
      lineLen := 0;
    }

    /** One iteration of the cluster loop. */
    method Consume(cl: string, w: nat)
      modifies this
      ensures Fields() == Step(Config(), old(Fields()), cl, w)
    {
      if |cl| == 1 && cl[0] == env.marker {
        ansi := true;
      } else if |cl| == 1 && ansi && env.isTerm(cl[0]) {
        ansi := false;
      } else if ansi {
      } else {
        var isNewline := false;
        if |cl| == 1 {
          isNewline := InGroup(newline, cl[0]);
        }
        if isNewline {
          AddNewLine();
          forcefulNewline := false;
          return;
        }
        if lineLen + w > limit {
          AddNewLine();
          forcefulNewline := true;
        }
        if lineLen == 0 {
          if |cl| == 1 && forcefulNewline && !preserveSpace && IsSpace(cl[0]) {
            return;
          }
        } else {
          forcefulNewline := false;
        }
        lineLen := lineLen + w;
      }
      buf := buf + cl;
    }

    /** `Write`: always reports `len(b)` bytes and no error. */
    method Write(b: string) returns (n: nat, err: bool)
      modifies this
      ensures n == ByteLen(b) && !err
      ensures Fields() == Written(Config(), old(Fields()), b)
    {
      var s := ExpandTabs(b, tabWidth);
      if !keepNewlines {
        s := DropNewlines(s);
      }
      var width := PrintableRuneWidth(env.width, s);
      if limit <= 0 || lineLen + width <= limit {
        lineLen := lineLen + width;
        buf := buf + b;
        return ByteLen(b), false;
      }
      var cs := env.seg(s);
      ghost var st0 := Fields();
      var i := 0;
      while i < |cs|
        invariant 0 <= i <= |cs|
        invariant Run(Config(), st0, cs) == Run(Config(), Fields(), cs[i..])
      {
        assert cs[i..][0] == cs[i] && cs[i..][1..] == cs[i + 1..];
        var w := env.clusterWidth(cs[i]);
        Consume(cs[i], w);
        i := i + 1;
      }
      assert cs[|cs|..] == [];
      return ByteLen(b), false;
    }
  }

  /** `String(s, limit)` (and `Bytes`): wrap with a fresh default writer. */
  method String(env: Env, s: string, limit: int) returns (r: string)
    ensures r == Wrapped(env, s, limit)
  {
    var f := new Wrap(limit, [NEWLINE], true, false, 4, env);
    var _, _ := f.Write(s);
    r := f.buf;
  }
}
