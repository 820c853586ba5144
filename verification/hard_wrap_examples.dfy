/**
 * The behaviour pinned down by wrap/wrap_test.go, replayed on the model
 * cluster by cluster. The inputs are ASCII without CR, so every segmenter
 * splits them into single runes and every width function gives each
 * printable rune one cell; the marker is assumed to be ESC.
 */
module HardWrapExamples {
  import opened Unicode
  import opened Text
  import opened AnsiWidth
  import opened HardWrap

  /** ASCII without CR: text every segmenter splits into single runes. */
  predicate Plain(s: string) {
    forall i :: 0 <= i < |s| ==> s[i] < '\U{80}' && s[i] != '\r'
  }

  /** A printable run after text without ESC contributes its full length. */
  lemma PrintableInside(width: WidthFn, p: string, q: string, rest: string)
    requires ESC !in p && Printable(q)
    ensures PrintableWidth(width, p + q + rest) >= |q|
  {
    assert p + q + rest == p + (q + rest);
    SkipPlain(width, p, q + rest);
    assert ESC !in q;
    SkipPlain(width, q, rest);
    PrintableSum(width, q);
  }

  lemma SingletonsAre(s: string, cs: seq<string>)
    requires |cs| == |s| && forall i :: 0 <= i < |s| ==> cs[i] == [s[i]]
    ensures Singletons(s) == cs
  {
  }

  /**
   * Text too wide for the line (it holds a printable run longer than the
   * room left) goes through the cluster loop one rune at a time.
   */
  lemma AsciiLoop(r: Rules, st: State, b: string, s: string, p: string, q: string, rest: string)
    requires Prepared(r, b) == s && s == p + q + rest && Plain(s) && IsSegmenter(r.env.seg)
    requires ESC !in p && Printable(q) && r.limit > 0 && st.lineLen + |q| > r.limit
    ensures Written(r, st, b) == Run(r, st, Singletons(s))
  {
    PrintableInside(r.env.width, p, q, rest);
    AsciiSegmentation(s, r.env.seg(s));
  }

  /** Nothing to wrap: "foo" at 4 is copied. */
  lemma ShortPassesThrough(env: Env)
    ensures Written(Rules(4, [NEWLINE], true, false, 0, env), Empty, "foo").buf == "foo"
  {
    var r := Rules(4, [NEWLINE], true, false, 0, env);
    assert Prepared(r, "foo") == "foo";
    assert Printable("foo");
    PlainWidth(env.width, "foo");
    PrintableSum(env.width, "foo");
  }

  /** No limit: "foobar\n " is copied, trailing whitespace included. */
  lemma NoLimitPassesThrough(env: Env)
    ensures Written(Rules(0, [NEWLINE], true, false, 0, env), Empty, "foobar\n ").buf == "foobar\n "
  {
    WrittenUnlimited(Rules(0, [NEWLINE], true, false, 0, env), Empty, "foobar\n ");
  }

  /** Unlike the word wrappers, a long word is broken: "foobarfoo" at 4 gives "foob\narfo\no". */
  lemma LongWordBroken(env: Env)
    requires env.marker == ESC && IsSegmenter(env.seg)
    ensures Written(Rules(4, [NEWLINE], true, false, 0, env), Empty, "foobarfoo").buf == "foob\narfo\no"
  {
    LongWordBrokenAt(env, "foobarfoo", "foobarfoo");
  }

  lemma LongWordBrokenAt(env: Env, b: string, s: string)
    requires env.marker == ESC && IsSegmenter(env.seg) && b == "foobarfoo" && s == "foobarfoo"
    ensures Written(Rules(4, [NEWLINE], true, false, 0, env), Empty, b).buf == "foob\narfo\no"
  {
    LongWordBrokenPrepared(env, b);
    LongWordBrokenAscii(s, "", "fooba", "rfoo");
    LongWordBrokenClusters(s);
    AsciiLoop(Rules(4, [NEWLINE], true, false, 0, env), Empty, b, s, "", "fooba", "rfoo");
    LongWordBrokenUpto3(env);
  }

  lemma LongWordBrokenPrepared(env: Env, b: string)
    requires b == "foobarfoo"
    ensures Prepared(Rules(4, [NEWLINE], true, false, 0, env), b) == "foobarfoo"
  {
    ExpandTabsSpec(b, 0);
  }

  lemma LongWordBrokenAscii(s: string, p: string, q: string, rest: string)
    requires s == "foobarfoo" && p == "" && q == "fooba" && rest == "rfoo"
    ensures s == p + q + rest && Plain(s) && ESC !in p && Printable(q)
  {
  }

  lemma LongWordBrokenClusters(s: string)
    requires s == "foobarfoo"
    ensures Singletons(s) == ["f", "o", "o", "b", "a", "r", "f", "o", "o"]
  {
    SingletonsAre(s, ["f", "o", "o", "b", "a", "r", "f", "o", "o"]);
  }

  lemma LongWordBroken1(env: Env)
    requires env.marker == ESC
    ensures Run(Rules(4, [NEWLINE], true, false, 0, env), State("", 0, false, false), ["f", "o", "o"]) == State("foo", 3, false, false)
  {
    var r := Rules(4, [NEWLINE], true, false, 0, env);
    assert Step(r, State("", 0, false, false), "f", r.env.clusterWidth("f")) == State("f", 1, false, false);
    assert Step(r, State("f", 1, false, false), "o", r.env.clusterWidth("o")) == State("fo", 2, false, false);
    assert Step(r, State("fo", 2, false, false), "o", r.env.clusterWidth("o")) == State("foo", 3, false, false);
    assert ["o"][1..] == [];
    assert ["o", "o"][1..] == ["o"];
    assert ["f", "o", "o"][1..] == ["o", "o"];
    assert Run(r, State("fo", 2, false, false), ["o"]) == State("foo", 3, false, false);
    assert Run(r, State("f", 1, false, false), ["o", "o"]) == State("foo", 3, false, false);
    assert Run(r, State("", 0, false, false), ["f", "o", "o"]) == State("foo", 3, false, false);
  }

  lemma LongWordBroken2(env: Env)
    requires env.marker == ESC
    ensures Run(Rules(4, [NEWLINE], true, false, 0, env), State("foo", 3, false, false), ["b", "a", "r"]) == State("foob\nar", 2, false, false)
  {
    var r := Rules(4, [NEWLINE], true, false, 0, env);
    assert Step(r, State("foo", 3, false, false), "b", r.env.clusterWidth("b")) == State("foob", 4, false, false);
    assert Step(r, State("foob", 4, false, false), "a", r.env.clusterWidth("a")) == State("foob\na", 1, false, true);
    assert Step(r, State("foob\na", 1, false, true), "r", r.env.clusterWidth("r")) == State("foob\nar", 2, false, false);
    assert ["r"][1..] == [];
    assert ["a", "r"][1..] == ["r"];
    assert ["b", "a", "r"][1..] == ["a", "r"];
    assert Run(r, State("foob\na", 1, false, true), ["r"]) == State("foob\nar", 2, false, false);
    assert Run(r, State("foob", 4, false, false), ["a", "r"]) == State("foob\nar", 2, false, false);
    assert Run(r, State("foo", 3, false, false), ["b", "a", "r"]) == State("foob\nar", 2, false, false);
  }

  lemma LongWordBroken3(env: Env)
    requires env.marker == ESC
    ensures Run(Rules(4, [NEWLINE], true, false, 0, env), State("foob\nar", 2, false, false), ["f", "o", "o"]) == State("foob\narfo\no", 1, false, true)
  {
    var r := Rules(4, [NEWLINE], true, false, 0, env);
    assert Step(r, State("foob\nar", 2, false, false), "f", r.env.clusterWidth("f")) == State("foob\narf", 3, false, false);
    assert Step(r, State("foob\narf", 3, false, false), "o", r.env.clusterWidth("o")) == State("foob\narfo", 4, false, false);
    assert Step(r, State("foob\narfo", 4, false, false), "o", r.env.clusterWidth("o")) == State("foob\narfo\no", 1, false, true);
    assert ["o"][1..] == [];
    assert ["o", "o"][1..] == ["o"];
    assert ["f", "o", "o"][1..] == ["o", "o"];
    assert Run(r, State("foob\narfo", 4, false, false), ["o"]) == State("foob\narfo\no", 1, false, true);
    assert Run(r, State("foob\narf", 3, false, false), ["o", "o"]) == State("foob\narfo\no", 1, false, true);
    assert Run(r, State("foob\nar", 2, false, false), ["f", "o", "o"]) == State("foob\narfo\no", 1, false, true);
  }

  lemma LongWordBrokenUpto2(env: Env)
    requires env.marker == ESC
    ensures Run(Rules(4, [NEWLINE], true, false, 0, env), Empty, ["f", "o", "o", "b", "a", "r"]) == State("foob\nar", 2, false, false)
  {
    assert ["f", "o", "o", "b", "a", "r"] == ["f", "o", "o"] + ["b", "a", "r"];
    LongWordBroken1(env);
    LongWordBroken2(env);
    RunAppend(Rules(4, [NEWLINE], true, false, 0, env), Empty, ["f", "o", "o"], ["b", "a", "r"]);
  }

  lemma LongWordBrokenUpto3(env: Env)
    requires env.marker == ESC
    ensures Run(Rules(4, [NEWLINE], true, false, 0, env), Empty, ["f", "o", "o", "b", "a", "r", "f", "o", "o"]) == State("foob\narfo\no", 1, false, true)
  {
    assert ["f", "o", "o", "b", "a", "r", "f", "o", "o"] == ["f", "o", "o", "b", "a", "r"] + ["f", "o", "o"];
    LongWordBrokenUpto2(env);
    LongWordBroken3(env);
    RunAppend(Rules(4, [NEWLINE], true, false, 0, env), Empty, ["f", "o", "o", "b", "a", "r"], ["f", "o", "o"]);
  }

  /** Input line ends are honoured: "f\no\nobar" at 3 gives "f\no\noba\nr". */
  lemma NewlinesKept(env: Env)
    requires env.marker == ESC && IsSegmenter(env.seg)
    ensures Written(Rules(3, [NEWLINE], true, false, 0, env), Empty, "f\no\nobar").buf == "f\no\noba\nr"
  {
    NewlinesKeptAt(env, "f\no\nobar", "f\no\nobar");
  }

  lemma NewlinesKeptAt(env: Env, b: string, s: string)
    requires env.marker == ESC && IsSegmenter(env.seg) && b == "f\no\nobar" && s == "f\no\nobar"
    ensures Written(Rules(3, [NEWLINE], true, false, 0, env), Empty, b).buf == "f\no\noba\nr"
  {
    NewlinesKeptPrepared(env, b);
    NewlinesKeptAscii(s, "f\no\n", "obar", "");
    NewlinesKeptClusters(s);
    AsciiLoop(Rules(3, [NEWLINE], true, false, 0, env), Empty, b, s, "f\no\n", "obar", "");
    NewlinesKeptUpto3(env);
  }

  lemma NewlinesKeptPrepared(env: Env, b: string)
    requires b == "f\no\nobar"
    ensures Prepared(Rules(3, [NEWLINE], true, false, 0, env), b) == "f\no\nobar"
  {
    ExpandTabsSpec(b, 0);
  }

  lemma NewlinesKeptAscii(s: string, p: string, q: string, rest: string)
    requires s == "f\no\nobar" && p == "f\no\n" && q == "obar" && rest == ""
    ensures s == p + q + rest && Plain(s) && ESC !in p && Printable(q)
  {
  }

  lemma NewlinesKeptClusters(s: string)
    requires s == "f\no\nobar"
    ensures Singletons(s) == ["f", "\n", "o", "\n", "o", "b", "a", "r"]
  {
    SingletonsAre(s, ["f", "\n", "o", "\n", "o", "b", "a", "r"]);
  }

  lemma NewlinesKept1(env: Env)
    requires env.marker == ESC
    ensures Run(Rules(3, [NEWLINE], true, false, 0, env), State("", 0, false, false), ["f", "\n", "o"]) == State("f\no", 1, false, false)
  {
    var r := Rules(3, [NEWLINE], true, false, 0, env);
    assert Step(r, State("", 0, false, false), "f", r.env.clusterWidth("f")) == State("f", 1, false, false);
    assert Step(r, State("f", 1, false, false), "\n", r.env.clusterWidth("\n")) == State("f\n", 0, false, false);
    assert Step(r, State("f\n", 0, false, false), "o", r.env.clusterWidth("o")) == State("f\no", 1, false, false);
    assert ["o"][1..] == [];
    assert ["\n", "o"][1..] == ["o"];
    assert ["f", "\n", "o"][1..] == ["\n", "o"];
    assert Run(r, State("f\n", 0, false, false), ["o"]) == State("f\no", 1, false, false);
    assert Run(r, State("f", 1, false, false), ["\n", "o"]) == State("f\no", 1, false, false);
    assert Run(r, State("", 0, false, false), ["f", "\n", "o"]) == State("f\no", 1, false, false);
  }

  lemma NewlinesKept2(env: Env)
    requires env.marker == ESC
    ensures Run(Rules(3, [NEWLINE], true, false, 0, env), State("f\no", 1, false, false), ["\n", "o", "b"]) == State("f\no\nob", 2, false, false)
  {
    var r := Rules(3, [NEWLINE], true, false, 0, env);
    assert Step(r, State("f\no", 1, false, false), "\n", r.env.clusterWidth("\n")) == State("f\no\n", 0, false, false);
    assert Step(r, State("f\no\n", 0, false, false), "o", r.env.clusterWidth("o")) == State("f\no\no", 1, false, false);
    assert Step(r, State("f\no\no", 1, false, false), "b", r.env.clusterWidth("b")) == State("f\no\nob", 2, false, false);
    assert ["b"][1..] == [];
    assert ["o", "b"][1..] == ["b"];
    assert ["\n", "o", "b"][1..] == ["o", "b"];
    assert Run(r, State("f\no\no", 1, false, false), ["b"]) == State("f\no\nob", 2, false, false);
    assert Run(r, State("f\no\n", 0, false, false), ["o", "b"]) == State("f\no\nob", 2, false, false);
    assert Run(r, State("f\no", 1, false, false), ["\n", "o", "b"]) == State("f\no\nob", 2, false, false);
  }

  lemma NewlinesKept3(env: Env)
    requires env.marker == ESC
    ensures Run(Rules(3, [NEWLINE], true, false, 0, env), State("f\no\nob", 2, false, false), ["a", "r"]) == State("f\no\noba\nr", 1, false, true)
  {
    var r := Rules(3, [NEWLINE], true, false, 0, env);
    assert Step(r, State("f\no\nob", 2, false, false), "a", r.env.clusterWidth("a")) == State("f\no\noba", 3, false, false);
    assert Step(r, State("f\no\noba", 3, false, false), "r", r.env.clusterWidth("r")) == State("f\no\noba\nr", 1, false, true);
    assert ["r"][1..] == [];
    assert ["a", "r"][1..] == ["r"];
    assert Run(r, State("f\no\noba", 3, false, false), ["r"]) == State("f\no\noba\nr", 1, false, true);
    assert Run(r, State("f\no\nob", 2, false, false), ["a", "r"]) == State("f\no\noba\nr", 1, false, true);
  }

  lemma NewlinesKeptUpto2(env: Env)
    requires env.marker == ESC
    ensures Run(Rules(3, [NEWLINE], true, false, 0, env), Empty, ["f", "\n", "o", "\n", "o", "b"]) == State("f\no\nob", 2, false, false)
  {
    assert ["f", "\n", "o", "\n", "o", "b"] == ["f", "\n", "o"] + ["\n", "o", "b"];
    NewlinesKept1(env);
    NewlinesKept2(env);
    RunAppend(Rules(3, [NEWLINE], true, false, 0, env), Empty, ["f", "\n", "o"], ["\n", "o", "b"]);
  }

  lemma NewlinesKeptUpto3(env: Env)
    requires env.marker == ESC
    ensures Run(Rules(3, [NEWLINE], true, false, 0, env), Empty, ["f", "\n", "o", "\n", "o", "b", "a", "r"]) == State("f\no\noba\nr", 1, false, true)
  {
    assert ["f", "\n", "o", "\n", "o", "b", "a", "r"] == ["f", "\n", "o", "\n", "o", "b"] + ["a", "r"];
    NewlinesKeptUpto2(env);
    NewlinesKept3(env);
    RunAppend(Rules(3, [NEWLINE], true, false, 0, env), Empty, ["f", "\n", "o", "\n", "o", "b"], ["a", "r"]);
  }

  /** Without KeepNewlines they are removed: "f\no\nobar" at 3 gives "foo\nbar". */
  lemma NewlinesDropped(env: Env)
    requires env.marker == ESC && IsSegmenter(env.seg)
    ensures Written(Rules(3, [NEWLINE], false, false, 0, env), Empty, "f\no\nobar").buf == "foo\nbar"
  {
    NewlinesDroppedAt(env, "f\no\nobar", "foobar");
  }

  lemma NewlinesDroppedAt(env: Env, b: string, s: string)
    requires env.marker == ESC && IsSegmenter(env.seg) && b == "f\no\nobar" && s == "foobar"
    ensures Written(Rules(3, [NEWLINE], false, false, 0, env), Empty, b).buf == "foo\nbar"
  {
    NewlinesDroppedPrepared(env, b);
    NewlinesDroppedAscii(s, "", "foob", "ar");
    NewlinesDroppedClusters(s);
    AsciiLoop(Rules(3, [NEWLINE], false, false, 0, env), Empty, b, s, "", "foob", "ar");
    NewlinesDroppedUpto2(env);
  }

  lemma NewlinesDroppedPrepared(env: Env, b: string)
    requires b == "f\no\nobar"
    ensures Prepared(Rules(3, [NEWLINE], false, false, 0, env), b) == "foobar"
  {
    ExpandTabsSpec(b, 0);
    assert b == "f\no" + [NEWLINE] + "obar";
    DropNewlinesSpec("f");
    DropNewlinesBefore("f", "o");
    DropNewlinesBefore("f\no", "obar");
    assert "fo" + "obar" == "foobar";
  }

  lemma NewlinesDroppedAscii(s: string, p: string, q: string, rest: string)
    requires s == "foobar" && p == "" && q == "foob" && rest == "ar"
    ensures s == p + q + rest && Plain(s) && ESC !in p && Printable(q)
  {
  }

  lemma NewlinesDroppedClusters(s: string)
    requires s == "foobar"
    ensures Singletons(s) == ["f", "o", "o", "b", "a", "r"]
  {
    SingletonsAre(s, ["f", "o", "o", "b", "a", "r"]);
  }

  lemma NewlinesDropped1(env: Env)
    requires env.marker == ESC
    ensures Run(Rules(3, [NEWLINE], false, false, 0, env), State("", 0, false, false), ["f", "o", "o"]) == State("foo", 3, false, false)
  {
    var r := Rules(3, [NEWLINE], false, false, 0, env);
    assert Step(r, State("", 0, false, false), "f", r.env.clusterWidth("f")) == State("f", 1, false, false);
    assert Step(r, State("f", 1, false, false), "o", r.env.clusterWidth("o")) == State("fo", 2, false, false);
    assert Step(r, State("fo", 2, false, false), "o", r.env.clusterWidth("o")) == State("foo", 3, false, false);
    assert ["o"][1..] == [];
    assert ["o", "o"][1..] == ["o"];
    assert ["f", "o", "o"][1..] == ["o", "o"];
    assert Run(r, State("fo", 2, false, false), ["o"]) == State("foo", 3, false, false);
    assert Run(r, State("f", 1, false, false), ["o", "o"]) == State("foo", 3, false, false);
    assert Run(r, State("", 0, false, false), ["f", "o", "o"]) == State("foo", 3, false, false);
  }

  lemma NewlinesDropped2(env: Env)
    requires env.marker == ESC
    ensures Run(Rules(3, [NEWLINE], false, false, 0, env), State("foo", 3, false, false), ["b", "a", "r"]) == State("foo\nbar", 3, false, false)
  {
    var r := Rules(3, [NEWLINE], false, false, 0, env);
    assert Step(r, State("foo", 3, false, false), "b", r.env.clusterWidth("b")) == State("foo\nb", 1, false, true);
    assert Step(r, State("foo\nb", 1, false, true), "a", r.env.clusterWidth("a")) == State("foo\nba", 2, false, false);
    assert Step(r, State("foo\nba", 2, false, false), "r", r.env.clusterWidth("r")) == State("foo\nbar", 3, false, false);
    assert ["r"][1..] == [];
    assert ["a", "r"][1..] == ["r"];
    assert ["b", "a", "r"][1..] == ["a", "r"];
    assert Run(r, State("foo\nba", 2, false, false), ["r"]) == State("foo\nbar", 3, false, false);
    assert Run(r, State("foo\nb", 1, false, true), ["a", "r"]) == State("foo\nbar", 3, false, false);
    assert Run(r, State("foo", 3, false, false), ["b", "a", "r"]) == State("foo\nbar", 3, false, false);
  }

  lemma NewlinesDroppedUpto2(env: Env)
    requires env.marker == ESC
    ensures Run(Rules(3, [NEWLINE], false, false, 0, env), Empty, ["f", "o", "o", "b", "a", "r"]) == State("foo\nbar", 3, false, false)
  {
    assert ["f", "o", "o", "b", "a", "r"] == ["f", "o", "o"] + ["b", "a", "r"];
    NewlinesDropped1(env);
    NewlinesDropped2(env);
    RunAppend(Rules(3, [NEWLINE], false, false, 0, env), Empty, ["f", "o", "o"], ["b", "a", "r"]);
  }

  /** With PreserveSpace, whitespace after a forced break stays: "foo bar\n  baz" at 3 gives "foo\n ba\nr\n  b\naz". */
  lemma SpacePreserved(env: Env)
    requires env.marker == ESC && IsSegmenter(env.seg)
    ensures Written(Rules(3, [NEWLINE], true, true, 0, env), Empty, "foo bar\n  baz").buf == "foo\n ba\nr\n  b\naz"
  {
    SpacePreservedAt(env, "foo bar\n  baz", "foo bar\n  baz");
  }

  lemma SpacePreservedAt(env: Env, b: string, s: string)
    requires env.marker == ESC && IsSegmenter(env.seg) && b == "foo bar\n  baz" && s == "foo bar\n  baz"
    ensures Written(Rules(3, [NEWLINE], true, true, 0, env), Empty, b).buf == "foo\n ba\nr\n  b\naz"
  {
    SpacePreservedPrepared(env, b);
    SpacePreservedAscii(s, "", "foo ", "bar\n  baz");
    SpacePreservedClusters(s);
    AsciiLoop(Rules(3, [NEWLINE], true, true, 0, env), Empty, b, s, "", "foo ", "bar\n  baz");
    SpacePreservedUpto5(env);
  }

  lemma SpacePreservedPrepared(env: Env, b: string)
    requires b == "foo bar\n  baz"
    ensures Prepared(Rules(3, [NEWLINE], true, true, 0, env), b) == "foo bar\n  baz"
  {
    ExpandTabsSpec(b, 0);
  }

  lemma SpacePreservedAscii(s: string, p: string, q: string, rest: string)
    requires s == "foo bar\n  baz" && p == "" && q == "foo " && rest == "bar\n  baz"
    ensures s == p + q + rest && Plain(s) && ESC !in p && Printable(q)
  {
  }

  lemma SpacePreservedClusters(s: string)
    requires s == "foo bar\n  baz"
    ensures Singletons(s) == ["f", "o", "o", " ", "b", "a", "r", "\n", " ", " ", "b", "a", "z"]
  {
    SingletonsAre(s, ["f", "o", "o", " ", "b", "a", "r", "\n", " ", " ", "b", "a", "z"]);
  }

  lemma SpacePreserved1(env: Env)
    requires env.marker == ESC
    ensures Run(Rules(3, [NEWLINE], true, true, 0, env), State("", 0, false, false), ["f", "o", "o"]) == State("foo", 3, false, false)
  {
    var r := Rules(3, [NEWLINE], true, true, 0, env);
    assert Step(r, State("", 0, false, false), "f", r.env.clusterWidth("f")) == State("f", 1, false, false);
    assert Step(r, State("f", 1, false, false), "o", r.env.clusterWidth("o")) == State("fo", 2, false, false);
    assert Step(r, State("fo", 2, false, false), "o", r.env.clusterWidth("o")) == State("foo", 3, false, false);
    assert ["o"][1..] == [];
    assert ["o", "o"][1..] == ["o"];
    assert ["f", "o", "o"][1..] == ["o", "o"];
    assert Run(r, State("fo", 2, false, false), ["o"]) == State("foo", 3, false, false);
    assert Run(r, State("f", 1, false, false), ["o", "o"]) == State("foo", 3, false, false);
    assert Run(r, State("", 0, false, false), ["f", "o", "o"]) == State("foo", 3, false, false);
  }

  lemma SpacePreserved2(env: Env)
    requires env.marker == ESC
    ensures Run(Rules(3, [NEWLINE], true, true, 0, env), State("foo", 3, false, false), [" ", "b", "a"]) == State("foo\n ba", 3, false, false)
  {
    var r := Rules(3, [NEWLINE], true, true, 0, env);
    assert Step(r, State("foo", 3, false, false), " ", r.env.clusterWidth(" ")) == State("foo\n ", 1, false, true);
    assert Step(r, State("foo\n ", 1, false, true), "b", r.env.clusterWidth("b")) == State("foo\n b", 2, false, false);
    assert Step(r, State("foo\n b", 2, false, false), "a", r.env.clusterWidth("a")) == State("foo\n ba", 3, false, false);
    assert ["a"][1..] == [];
    assert ["b", "a"][1..] == ["a"];
    assert [" ", "b", "a"][1..] == ["b", "a"];
    assert Run(r, State("foo\n b", 2, false, false), ["a"]) == State("foo\n ba", 3, false, false);
    assert Run(r, State("foo\n ", 1, false, true), ["b", "a"]) == State("foo\n ba", 3, false, false);
    assert Run(r, State("foo", 3, false, false), [" ", "b", "a"]) == State("foo\n ba", 3, false, false);
  }

  lemma SpacePreserved3(env: Env)
    requires env.marker == ESC
    ensures Run(Rules(3, [NEWLINE], true, true, 0, env), State("foo\n ba", 3, false, false), ["r", "\n", " "]) == State("foo\n ba\nr\n ", 1, false, false)
  {
    var r := Rules(3, [NEWLINE], true, true, 0, env);
    assert Step(r, State("foo\n ba", 3, false, false), "r", r.env.clusterWidth("r")) == State("foo\n ba\nr", 1, false, true);
    assert Step(r, State("foo\n ba\nr", 1, false, true), "\n", r.env.clusterWidth("\n")) == State("foo\n ba\nr\n", 0, false, false);
    assert Step(r, State("foo\n ba\nr\n", 0, false, false), " ", r.env.clusterWidth(" ")) == State("foo\n ba\nr\n ", 1, false, false);
    assert [" "][1..] == [];
    assert ["\n", " "][1..] == [" "];
    assert ["r", "\n", " "][1..] == ["\n", " "];
    assert Run(r, State("foo\n ba\nr\n", 0, false, false), [" "]) == State("foo\n ba\nr\n ", 1, false, false);
    assert Run(r, State("foo\n ba\nr", 1, false, true), ["\n", " "]) == State("foo\n ba\nr\n ", 1, false, false);
    assert Run(r, State("foo\n ba", 3, false, false), ["r", "\n", " "]) == State("foo\n ba\nr\n ", 1, false, false);
  }

  lemma SpacePreserved4(env: Env)
    requires env.marker == ESC
    ensures Run(Rules(3, [NEWLINE], true, true, 0, env), State("foo\n ba\nr\n ", 1, false, false), [" ", "b", "a"]) == State("foo\n ba\nr\n  b\na", 1, false, true)
  {
    var r := Rules(3, [NEWLINE], true, true, 0, env);
    assert Step(r, State("foo\n ba\nr\n ", 1, false, false), " ", r.env.clusterWidth(" ")) == State("foo\n ba\nr\n  ", 2, false, false);
    assert Step(r, State("foo\n ba\nr\n  ", 2, false, false), "b", r.env.clusterWidth("b")) == State("foo\n ba\nr\n  b", 3, false, false);
    assert Step(r, State("foo\n ba\nr\n  b", 3, false, false), "a", r.env.clusterWidth("a")) == State("foo\n ba\nr\n  b\na", 1, false, true);
    assert ["a"][1..] == [];
    assert ["b", "a"][1..] == ["a"];
    assert [" ", "b", "a"][1..] == ["b", "a"];
    assert Run(r, State("foo\n ba\nr\n  b", 3, false, false), ["a"]) == State("foo\n ba\nr\n  b\na", 1, false, true);
    assert Run(r, State("foo\n ba\nr\n  ", 2, false, false), ["b", "a"]) == State("foo\n ba\nr\n  b\na", 1, false, true);
    assert Run(r, State("foo\n ba\nr\n ", 1, false, false), [" ", "b", "a"]) == State("foo\n ba\nr\n  b\na", 1, false, true);
  }

  lemma SpacePreserved5(env: Env)
    requires env.marker == ESC
    ensures Run(Rules(3, [NEWLINE], true, true, 0, env), State("foo\n ba\nr\n  b\na", 1, false, true), ["z"]) == State("foo\n ba\nr\n  b\naz", 2, false, false)
  {
    var r := Rules(3, [NEWLINE], true, true, 0, env);
    assert Step(r, State("foo\n ba\nr\n  b\na", 1, false, true), "z", r.env.clusterWidth("z")) == State("foo\n ba\nr\n  b\naz", 2, false, false);
    assert ["z"][1..] == [];
    assert Run(r, State("foo\n ba\nr\n  b\na", 1, false, true), ["z"]) == State("foo\n ba\nr\n  b\naz", 2, false, false);
  }

  lemma SpacePreservedUpto2(env: Env)
    requires env.marker == ESC
    ensures Run(Rules(3, [NEWLINE], true, true, 0, env), Empty, ["f", "o", "o", " ", "b", "a"]) == State("foo\n ba", 3, false, false)
  {
    assert ["f", "o", "o", " ", "b", "a"] == ["f", "o", "o"] + [" ", "b", "a"];
    SpacePreserved1(env);
    SpacePreserved2(env);
    RunAppend(Rules(3, [NEWLINE], true, true, 0, env), Empty, ["f", "o", "o"], [" ", "b", "a"]);
  }

  lemma SpacePreservedUpto3(env: Env)
    requires env.marker == ESC
    ensures Run(Rules(3, [NEWLINE], true, true, 0, env), Empty, ["f", "o", "o", " ", "b", "a", "r", "\n", " "]) == State("foo\n ba\nr\n ", 1, false, false)
  {
    assert ["f", "o", "o", " ", "b", "a", "r", "\n", " "] == ["f", "o", "o", " ", "b", "a"] + ["r", "\n", " "];
    SpacePreservedUpto2(env);
    SpacePreserved3(env);
    RunAppend(Rules(3, [NEWLINE], true, true, 0, env), Empty, ["f", "o", "o", " ", "b", "a"], ["r", "\n", " "]);
  }

  lemma SpacePreservedUpto4(env: Env)
    requires env.marker == ESC
    ensures Run(Rules(3, [NEWLINE], true, true, 0, env), Empty, ["f", "o", "o", " ", "b", "a", "r", "\n", " ", " ", "b", "a"]) == State("foo\n ba\nr\n  b\na", 1, false, true)
  {
    assert ["f", "o", "o", " ", "b", "a", "r", "\n", " ", " ", "b", "a"] == ["f", "o", "o", " ", "b", "a", "r", "\n", " "] + [" ", "b", "a"];
    SpacePreservedUpto3(env);
    SpacePreserved4(env);
    RunAppend(Rules(3, [NEWLINE], true, true, 0, env), Empty, ["f", "o", "o", " ", "b", "a", "r", "\n", " "], [" ", "b", "a"]);
  }

  lemma SpacePreservedUpto5(env: Env)
    requires env.marker == ESC
    ensures Run(Rules(3, [NEWLINE], true, true, 0, env), Empty, ["f", "o", "o", " ", "b", "a", "r", "\n", " ", " ", "b", "a", "z"]) == State("foo\n ba\nr\n  b\naz", 2, false, false)
  {
    assert ["f", "o", "o", " ", "b", "a", "r", "\n", " ", " ", "b", "a", "z"] == ["f", "o", "o", " ", "b", "a", "r", "\n", " ", " ", "b", "a"] + ["z"];
    SpacePreservedUpto4(env);
    SpacePreserved5(env);
    RunAppend(Rules(3, [NEWLINE], true, true, 0, env), Empty, ["f", "o", "o", " ", "b", "a", "r", "\n", " ", " ", "b", "a"], ["z"]);
  }

  /** Without it, that whitespace goes, but not after an input line end: "foo bar\n  baz" at 3 gives "foo\nbar\n  b\naz". */
  lemma SpaceDropped(env: Env)
    requires env.marker == ESC && IsSegmenter(env.seg)
    ensures Written(Rules(3, [NEWLINE], true, false, 0, env), Empty, "foo bar\n  baz").buf == "foo\nbar\n  b\naz"
  {
    SpaceDroppedAt(env, "foo bar\n  baz", "foo bar\n  baz");
  }

  lemma SpaceDroppedAt(env: Env, b: string, s: string)
    requires env.marker == ESC && IsSegmenter(env.seg) && b == "foo bar\n  baz" && s == "foo bar\n  baz"
    ensures Written(Rules(3, [NEWLINE], true, false, 0, env), Empty, b).buf == "foo\nbar\n  b\naz"
  {
    SpaceDroppedPrepared(env, b);
    SpaceDroppedAscii(s, "", "foo ", "bar\n  baz");
    SpaceDroppedClusters(s);
    AsciiLoop(Rules(3, [NEWLINE], true, false, 0, env), Empty, b, s, "", "foo ", "bar\n  baz");
    SpaceDroppedUpto5(env);
  }

  lemma SpaceDroppedPrepared(env: Env, b: string)
    requires b == "foo bar\n  baz"
    ensures Prepared(Rules(3, [NEWLINE], true, false, 0, env), b) == "foo bar\n  baz"
  {
    ExpandTabsSpec(b, 0);
  }

  lemma SpaceDroppedAscii(s: string, p: string, q: string, rest: string)
    requires s == "foo bar\n  baz" && p == "" && q == "foo " && rest == "bar\n  baz"
    ensures s == p + q + rest && Plain(s) && ESC !in p && Printable(q)
  {
  }

  lemma SpaceDroppedClusters(s: string)
    requires s == "foo bar\n  baz"
    ensures Singletons(s) == ["f", "o", "o", " ", "b", "a", "r", "\n", " ", " ", "b", "a", "z"]
  {
    SingletonsAre(s, ["f", "o", "o", " ", "b", "a", "r", "\n", " ", " ", "b", "a", "z"]);
  }

  lemma SpaceDropped1(env: Env)
    requires env.marker == ESC
    ensures Run(Rules(3, [NEWLINE], true, false, 0, env), State("", 0, false, false), ["f", "o", "o"]) == State("foo", 3, false, false)
  {
    var r := Rules(3, [NEWLINE], true, false, 0, env);
    assert Step(r, State("", 0, false, false), "f", r.env.clusterWidth("f")) == State("f", 1, false, false);
    assert Step(r, State("f", 1, false, false), "o", r.env.clusterWidth("o")) == State("fo", 2, false, false);
    assert Step(r, State("fo", 2, false, false), "o", r.env.clusterWidth("o")) == State("foo", 3, false, false);
    assert ["o"][1..] == [];
    assert ["o", "o"][1..] == ["o"];
    assert ["f", "o", "o"][1..] == ["o", "o"];
    assert Run(r, State("fo", 2, false, false), ["o"]) == State("foo", 3, false, false);
    assert Run(r, State("f", 1, false, false), ["o", "o"]) == State("foo", 3, false, false);
    assert Run(r, State("", 0, false, false), ["f", "o", "o"]) == State("foo", 3, false, false);
  }

  lemma SpaceDropped2(env: Env)
    requires env.marker == ESC
    ensures Run(Rules(3, [NEWLINE], true, false, 0, env), State("foo", 3, false, false), [" ", "b", "a"]) == State("foo\nba", 2, false, false)
  {
    var r := Rules(3, [NEWLINE], true, false, 0, env);
    assert Step(r, State("foo", 3, false, false), " ", r.env.clusterWidth(" ")) == State("foo\n", 0, false, true);
    assert Step(r, State("foo\n", 0, false, true), "b", r.env.clusterWidth("b")) == State("foo\nb", 1, false, true);
    assert Step(r, State("foo\nb", 1, false, true), "a", r.env.clusterWidth("a")) == State("foo\nba", 2, false, false);
    assert ["a"][1..] == [];
    assert ["b", "a"][1..] == ["a"];
    assert [" ", "b", "a"][1..] == ["b", "a"];
    assert Run(r, State("foo\nb", 1, false, true), ["a"]) == State("foo\nba", 2, false, false);
    assert Run(r, State("foo\n", 0, false, true), ["b", "a"]) == State("foo\nba", 2, false, false);
    assert Run(r, State("foo", 3, false, false), [" ", "b", "a"]) == State("foo\nba", 2, false, false);
  }

  lemma SpaceDropped3(env: Env)
    requires env.marker == ESC
    ensures Run(Rules(3, [NEWLINE], true, false, 0, env), State("foo\nba", 2, false, false), ["r", "\n", " "]) == State("foo\nbar\n ", 1, false, false)
  {
    var r := Rules(3, [NEWLINE], true, false, 0, env);
    assert Step(r, State("foo\nba", 2, false, false), "r", r.env.clusterWidth("r")) == State("foo\nbar", 3, false, false);
    assert Step(r, State("foo\nbar", 3, false, false), "\n", r.env.clusterWidth("\n")) == State("foo\nbar\n", 0, false, false);
    assert Step(r, State("foo\nbar\n", 0, false, false), " ", r.env.clusterWidth(" ")) == State("foo\nbar\n ", 1, false, false);
    assert [" "][1..] == [];
    assert ["\n", " "][1..] == [" "];
    assert ["r", "\n", " "][1..] == ["\n", " "];
    assert Run(r, State("foo\nbar\n", 0, false, false), [" "]) == State("foo\nbar\n ", 1, false, false);
    assert Run(r, State("foo\nbar", 3, false, false), ["\n", " "]) == State("foo\nbar\n ", 1, false, false);
    assert Run(r, State("foo\nba", 2, false, false), ["r", "\n", " "]) == State("foo\nbar\n ", 1, false, false);
  }

  lemma SpaceDropped4(env: Env)
    requires env.marker == ESC
    ensures Run(Rules(3, [NEWLINE], true, false, 0, env), State("foo\nbar\n ", 1, false, false), [" ", "b", "a"]) == State("foo\nbar\n  b\na", 1, false, true)
  {
    var r := Rules(3, [NEWLINE], true, false, 0, env);
    assert Step(r, State("foo\nbar\n ", 1, false, false), " ", r.env.clusterWidth(" ")) == State("foo\nbar\n  ", 2, false, false);
    assert Step(r, State("foo\nbar\n  ", 2, false, false), "b", r.env.clusterWidth("b")) == State("foo\nbar\n  b", 3, false, false);
    assert Step(r, State("foo\nbar\n  b", 3, false, false), "a", r.env.clusterWidth("a")) == State("foo\nbar\n  b\na", 1, false, true);
    assert ["a"][1..] == [];
    assert ["b", "a"][1..] == ["a"];
    assert [" ", "b", "a"][1..] == ["b", "a"];
    assert Run(r, State("foo\nbar\n  b", 3, false, false), ["a"]) == State("foo\nbar\n  b\na", 1, false, true);
    assert Run(r, State("foo\nbar\n  ", 2, false, false), ["b", "a"]) == State("foo\nbar\n  b\na", 1, false, true);
    assert Run(r, State("foo\nbar\n ", 1, false, false), [" ", "b", "a"]) == State("foo\nbar\n  b\na", 1, false, true);
  }

  lemma SpaceDropped5(env: Env)
    requires env.marker == ESC
    ensures Run(Rules(3, [NEWLINE], true, false, 0, env), State("foo\nbar\n  b\na", 1, false, true), ["z"]) == State("foo\nbar\n  b\naz", 2, false, false)
  {
    var r := Rules(3, [NEWLINE], true, false, 0, env);
    assert Step(r, State("foo\nbar\n  b\na", 1, false, true), "z", r.env.clusterWidth("z")) == State("foo\nbar\n  b\naz", 2, false, false);
    assert ["z"][1..] == [];
    assert Run(r, State("foo\nbar\n  b\na", 1, false, true), ["z"]) == State("foo\nbar\n  b\naz", 2, false, false);
  }

  lemma SpaceDroppedUpto2(env: Env)
    requires env.marker == ESC
    ensures Run(Rules(3, [NEWLINE], true, false, 0, env), Empty, ["f", "o", "o", " ", "b", "a"]) == State("foo\nba", 2, false, false)
  {
    assert ["f", "o", "o", " ", "b", "a"] == ["f", "o", "o"] + [" ", "b", "a"];
    SpaceDropped1(env);
    SpaceDropped2(env);
    RunAppend(Rules(3, [NEWLINE], true, false, 0, env), Empty, ["f", "o", "o"], [" ", "b", "a"]);
  }

  lemma SpaceDroppedUpto3(env: Env)
    requires env.marker == ESC
    ensures Run(Rules(3, [NEWLINE], true, false, 0, env), Empty, ["f", "o", "o", " ", "b", "a", "r", "\n", " "]) == State("foo\nbar\n ", 1, false, false)
  {
    assert ["f", "o", "o", " ", "b", "a", "r", "\n", " "] == ["f", "o", "o", " ", "b", "a"] + ["r", "\n", " "];
    SpaceDroppedUpto2(env);
    SpaceDropped3(env);
    RunAppend(Rules(3, [NEWLINE], true, false, 0, env), Empty, ["f", "o", "o", " ", "b", "a"], ["r", "\n", " "]);
  }

  lemma SpaceDroppedUpto4(env: Env)
    requires env.marker == ESC
    ensures Run(Rules(3, [NEWLINE], true, false, 0, env), Empty, ["f", "o", "o", " ", "b", "a", "r", "\n", " ", " ", "b", "a"]) == State("foo\nbar\n  b\na", 1, false, true)
  {
    assert ["f", "o", "o", " ", "b", "a", "r", "\n", " ", " ", "b", "a"] == ["f", "o", "o", " ", "b", "a", "r", "\n", " "] + [" ", "b", "a"];
    SpaceDroppedUpto3(env);
    SpaceDropped4(env);
    RunAppend(Rules(3, [NEWLINE], true, false, 0, env), Empty, ["f", "o", "o", " ", "b", "a", "r", "\n", " "], [" ", "b", "a"]);
  }

  lemma SpaceDroppedUpto5(env: Env)
    requires env.marker == ESC
    ensures Run(Rules(3, [NEWLINE], true, false, 0, env), Empty, ["f", "o", "o", " ", "b", "a", "r", "\n", " ", " ", "b", "a", "z"]) == State("foo\nbar\n  b\naz", 2, false, false)
  {
    assert ["f", "o", "o", " ", "b", "a", "r", "\n", " ", " ", "b", "a", "z"] == ["f", "o", "o", " ", "b", "a", "r", "\n", " ", " ", "b", "a"] + ["z"];
    SpaceDroppedUpto4(env);
    SpaceDropped5(env);
    RunAppend(Rules(3, [NEWLINE], true, false, 0, env), Empty, ["f", "o", "o", " ", "b", "a", "r", "\n", " ", " ", "b", "a"], ["z"]);
  }

  /** A tab becomes TabWidth spaces, which can be broken: "foo\tbar" at 4 with TabWidth 3 and PreserveSpace gives "foo \n  ba\nr". */
  lemma TabPreserved(env: Env)
    requires env.marker == ESC && IsSegmenter(env.seg)
    ensures Written(Rules(4, [NEWLINE], true, true, 3, env), Empty, "foo\tbar").buf == "foo \n  ba\nr"
  {
    TabPreservedAt(env, "foo\tbar", "foo   bar");
  }

  lemma TabPreservedAt(env: Env, b: string, s: string)
    requires env.marker == ESC && IsSegmenter(env.seg) && b == "foo\tbar" && s == "foo   bar"
    ensures Written(Rules(4, [NEWLINE], true, true, 3, env), Empty, b).buf == "foo \n  ba\nr"
  {
    TabPreservedPrepared(env, b);
    TabPreservedAscii(s, "", "foo  ", " bar");
    TabPreservedClusters(s);
    AsciiLoop(Rules(4, [NEWLINE], true, true, 3, env), Empty, b, s, "", "foo  ", " bar");
    TabPreservedUpto3(env);
  }

  lemma TabPreservedPrepared(env: Env, b: string)
    requires b == "foo\tbar"
    ensures Prepared(Rules(4, [NEWLINE], true, true, 3, env), b) == "foo   bar"
  {
    assert Repeat(' ', 3) == "   ";
    assert ExpandTabs("foo\tbar", 3) == "foo   bar";
  }

  lemma TabPreservedAscii(s: string, p: string, q: string, rest: string)
    requires s == "foo   bar" && p == "" && q == "foo  " && rest == " bar"
    ensures s == p + q + rest && Plain(s) && ESC !in p && Printable(q)
  {
  }

  lemma TabPreservedClusters(s: string)
    requires s == "foo   bar"
    ensures Singletons(s) == ["f", "o", "o", " ", " ", " ", "b", "a", "r"]
  {
    SingletonsAre(s, ["f", "o", "o", " ", " ", " ", "b", "a", "r"]);
  }

  lemma TabPreserved1(env: Env)
    requires env.marker == ESC
    ensures Run(Rules(4, [NEWLINE], true, true, 3, env), State("", 0, false, false), ["f", "o", "o"]) == State("foo", 3, false, false)
  {
    var r := Rules(4, [NEWLINE], true, true, 3, env);
    assert Step(r, State("", 0, false, false), "f", r.env.clusterWidth("f")) == State("f", 1, false, false);
    assert Step(r, State("f", 1, false, false), "o", r.env.clusterWidth("o")) == State("fo", 2, false, false);
    assert Step(r, State("fo", 2, false, false), "o", r.env.clusterWidth("o")) == State("foo", 3, false, false);
    assert ["o"][1..] == [];
    assert ["o", "o"][1..] == ["o"];
    assert ["f", "o", "o"][1..] == ["o", "o"];
    assert Run(r, State("fo", 2, false, false), ["o"]) == State("foo", 3, false, false);
    assert Run(r, State("f", 1, false, false), ["o", "o"]) == State("foo", 3, false, false);
    assert Run(r, State("", 0, false, false), ["f", "o", "o"]) == State("foo", 3, false, false);
  }

  lemma TabPreserved2(env: Env)
    requires env.marker == ESC
    ensures Run(Rules(4, [NEWLINE], true, true, 3, env), State("foo", 3, false, false), [" ", " ", " "]) == State("foo \n  ", 2, false, false)
  {
    var r := Rules(4, [NEWLINE], true, true, 3, env);
    assert Step(r, State("foo", 3, false, false), " ", r.env.clusterWidth(" ")) == State("foo ", 4, false, false);
    assert Step(r, State("foo ", 4, false, false), " ", r.env.clusterWidth(" ")) == State("foo \n ", 1, false, true);
    assert Step(r, State("foo \n ", 1, false, true), " ", r.env.clusterWidth(" ")) == State("foo \n  ", 2, false, false);
    assert [" "][1..] == [];
    assert [" ", " "][1..] == [" "];
    assert [" ", " ", " "][1..] == [" ", " "];
    assert Run(r, State("foo \n ", 1, false, true), [" "]) == State("foo \n  ", 2, false, false);
    assert Run(r, State("foo ", 4, false, false), [" ", " "]) == State("foo \n  ", 2, false, false);
    assert Run(r, State("foo", 3, false, false), [" ", " ", " "]) == State("foo \n  ", 2, false, false);
  }

  lemma TabPreserved3(env: Env)
    requires env.marker == ESC
    ensures Run(Rules(4, [NEWLINE], true, true, 3, env), State("foo \n  ", 2, false, false), ["b", "a", "r"]) == State("foo \n  ba\nr", 1, false, true)
  {
    var r := Rules(4, [NEWLINE], true, true, 3, env);
    assert Step(r, State("foo \n  ", 2, false, false), "b", r.env.clusterWidth("b")) == State("foo \n  b", 3, false, false);
    assert Step(r, State("foo \n  b", 3, false, false), "a", r.env.clusterWidth("a")) == State("foo \n  ba", 4, false, false);
    assert Step(r, State("foo \n  ba", 4, false, false), "r", r.env.clusterWidth("r")) == State("foo \n  ba\nr", 1, false, true);
    assert ["r"][1..] == [];
    assert ["a", "r"][1..] == ["r"];
    assert ["b", "a", "r"][1..] == ["a", "r"];
    assert Run(r, State("foo \n  ba", 4, false, false), ["r"]) == State("foo \n  ba\nr", 1, false, true);
    assert Run(r, State("foo \n  b", 3, false, false), ["a", "r"]) == State("foo \n  ba\nr", 1, false, true);
    assert Run(r, State("foo \n  ", 2, false, false), ["b", "a", "r"]) == State("foo \n  ba\nr", 1, false, true);
  }

  lemma TabPreservedUpto2(env: Env)
    requires env.marker == ESC
    ensures Run(Rules(4, [NEWLINE], true, true, 3, env), Empty, ["f", "o", "o", " ", " ", " "]) == State("foo \n  ", 2, false, false)
  {
    assert ["f", "o", "o", " ", " ", " "] == ["f", "o", "o"] + [" ", " ", " "];
    TabPreserved1(env);
    TabPreserved2(env);
    RunAppend(Rules(4, [NEWLINE], true, true, 3, env), Empty, ["f", "o", "o"], [" ", " ", " "]);
  }

  lemma TabPreservedUpto3(env: Env)
    requires env.marker == ESC
    ensures Run(Rules(4, [NEWLINE], true, true, 3, env), Empty, ["f", "o", "o", " ", " ", " ", "b", "a", "r"]) == State("foo \n  ba\nr", 1, false, true)
  {
    assert ["f", "o", "o", " ", " ", " ", "b", "a", "r"] == ["f", "o", "o", " ", " ", " "] + ["b", "a", "r"];
    TabPreservedUpto2(env);
    TabPreserved3(env);
    RunAppend(Rules(4, [NEWLINE], true, true, 3, env), Empty, ["f", "o", "o", " ", " ", " "], ["b", "a", "r"]);
  }

  /** The rest of a broken tab vanishes without PreserveSpace: "foo\tbar" at 4 with TabWidth 3 gives "foo \nbar". */
  lemma TabDropped(env: Env)
    requires env.marker == ESC && IsSegmenter(env.seg)
    ensures Written(Rules(4, [NEWLINE], true, false, 3, env), Empty, "foo\tbar").buf == "foo \nbar"
  {
    TabDroppedAt(env, "foo\tbar", "foo   bar");
  }

  lemma TabDroppedAt(env: Env, b: string, s: string)
    requires env.marker == ESC && IsSegmenter(env.seg) && b == "foo\tbar" && s == "foo   bar"
    ensures Written(Rules(4, [NEWLINE], true, false, 3, env), Empty, b).buf == "foo \nbar"
  {
    TabDroppedPrepared(env, b);
    TabDroppedAscii(s, "", "foo  ", " bar");
    TabDroppedClusters(s);
    AsciiLoop(Rules(4, [NEWLINE], true, false, 3, env), Empty, b, s, "", "foo  ", " bar");
    TabDroppedUpto3(env);
  }

  lemma TabDroppedPrepared(env: Env, b: string)
    requires b == "foo\tbar"
    ensures Prepared(Rules(4, [NEWLINE], true, false, 3, env), b) == "foo   bar"
  {
    assert Repeat(' ', 3) == "   ";
    assert ExpandTabs("foo\tbar", 3) == "foo   bar";
  }

  lemma TabDroppedAscii(s: string, p: string, q: string, rest: string)
    requires s == "foo   bar" && p == "" && q == "foo  " && rest == " bar"
    ensures s == p + q + rest && Plain(s) && ESC !in p && Printable(q)
  {
  }

  lemma TabDroppedClusters(s: string)
    requires s == "foo   bar"
    ensures Singletons(s) == ["f", "o", "o", " ", " ", " ", "b", "a", "r"]
  {
    SingletonsAre(s, ["f", "o", "o", " ", " ", " ", "b", "a", "r"]);
  }

  lemma TabDropped1(env: Env)
    requires env.marker == ESC
    ensures Run(Rules(4, [NEWLINE], true, false, 3, env), State("", 0, false, false), ["f", "o", "o"]) == State("foo", 3, false, false)
  {
    var r := Rules(4, [NEWLINE], true, false, 3, env);
    assert Step(r, State("", 0, false, false), "f", r.env.clusterWidth("f")) == State("f", 1, false, false);
    assert Step(r, State("f", 1, false, false), "o", r.env.clusterWidth("o")) == State("fo", 2, false, false);
    assert Step(r, State("fo", 2, false, false), "o", r.env.clusterWidth("o")) == State("foo", 3, false, false);
    assert ["o"][1..] == [];
    assert ["o", "o"][1..] == ["o"];
    assert ["f", "o", "o"][1..] == ["o", "o"];
    assert Run(r, State("fo", 2, false, false), ["o"]) == State("foo", 3, false, false);
    assert Run(r, State("f", 1, false, false), ["o", "o"]) == State("foo", 3, false, false);
    assert Run(r, State("", 0, false, false), ["f", "o", "o"]) == State("foo", 3, false, false);
  }

  lemma TabDropped2(env: Env)
    requires env.marker == ESC
    ensures Run(Rules(4, [NEWLINE], true, false, 3, env), State("foo", 3, false, false), [" ", " ", " "]) == State("foo \n", 0, false, true)
  {
    var r := Rules(4, [NEWLINE], true, false, 3, env);
    assert Step(r, State("foo", 3, false, false), " ", r.env.clusterWidth(" ")) == State("foo ", 4, false, false);
    assert Step(r, State("foo ", 4, false, false), " ", r.env.clusterWidth(" ")) == State("foo \n", 0, false, true);
    assert Step(r, State("foo \n", 0, false, true), " ", r.env.clusterWidth(" ")) == State("foo \n", 0, false, true);
    assert [" "][1..] == [];
    assert [" ", " "][1..] == [" "];
    assert [" ", " ", " "][1..] == [" ", " "];
    assert Run(r, State("foo \n", 0, false, true), [" "]) == State("foo \n", 0, false, true);
    assert Run(r, State("foo ", 4, false, false), [" ", " "]) == State("foo \n", 0, false, true);
    assert Run(r, State("foo", 3, false, false), [" ", " ", " "]) == State("foo \n", 0, false, true);
  }

  lemma TabDropped3(env: Env)
    requires env.marker == ESC
    ensures Run(Rules(4, [NEWLINE], true, false, 3, env), State("foo \n", 0, false, true), ["b", "a", "r"]) == State("foo \nbar", 3, false, false)
  {
    var r := Rules(4, [NEWLINE], true, false, 3, env);
    assert Step(r, State("foo \n", 0, false, true), "b", r.env.clusterWidth("b")) == State("foo \nb", 1, false, true);
    assert Step(r, State("foo \nb", 1, false, true), "a", r.env.clusterWidth("a")) == State("foo \nba", 2, false, false);
    assert Step(r, State("foo \nba", 2, false, false), "r", r.env.clusterWidth("r")) == State("foo \nbar", 3, false, false);
    assert ["r"][1..] == [];
    assert ["a", "r"][1..] == ["r"];
    assert ["b", "a", "r"][1..] == ["a", "r"];
    assert Run(r, State("foo \nba", 2, false, false), ["r"]) == State("foo \nbar", 3, false, false);
    assert Run(r, State("foo \nb", 1, false, true), ["a", "r"]) == State("foo \nbar", 3, false, false);
    assert Run(r, State("foo \n", 0, false, true), ["b", "a", "r"]) == State("foo \nbar", 3, false, false);
  }

  lemma TabDroppedUpto2(env: Env)
    requires env.marker == ESC
    ensures Run(Rules(4, [NEWLINE], true, false, 3, env), Empty, ["f", "o", "o", " ", " ", " "]) == State("foo \n", 0, false, true)
  {
    assert ["f", "o", "o", " ", " ", " "] == ["f", "o", "o"] + [" ", " ", " "];
    TabDropped1(env);
    TabDropped2(env);
    RunAppend(Rules(4, [NEWLINE], true, false, 3, env), Empty, ["f", "o", "o"], [" ", " ", " "]);
  }

  lemma TabDroppedUpto3(env: Env)
    requires env.marker == ESC
    ensures Run(Rules(4, [NEWLINE], true, false, 3, env), Empty, ["f", "o", "o", " ", " ", " ", "b", "a", "r"]) == State("foo \nbar", 3, false, false)
  {
    assert ["f", "o", "o", " ", " ", " ", "b", "a", "r"] == ["f", "o", "o", " ", " ", " "] + ["b", "a", "r"];
    TabDroppedUpto2(env);
    TabDropped3(env);
    RunAppend(Rules(4, [NEWLINE], true, false, 3, env), Empty, ["f", "o", "o", " ", " ", " "], ["b", "a", "r"]);
  }

  /** `String("foo bar", 3)` gives "foo\nbar". */
  lemma StringBreaks(env: Env)
    requires env.marker == ESC && IsSegmenter(env.seg)
    ensures Wrapped(env, "foo bar", 3) == "foo\nbar"
  {
    StringBreaksAt(env, "foo bar", "foo bar");
  }

  lemma StringBreaksAt(env: Env, b: string, s: string)
    requires env.marker == ESC && IsSegmenter(env.seg) && b == "foo bar" && s == "foo bar"
    ensures Written(Defaults(env, 3), Empty, b).buf == "foo\nbar"
  {
    StringBreaksPrepared(env, b);
    StringBreaksAscii(s, "", "foo ", "bar");
    StringBreaksClusters(s);
    AsciiLoop(Defaults(env, 3), Empty, b, s, "", "foo ", "bar");
    StringBreaksUpto3(env);
  }

  lemma StringBreaksPrepared(env: Env, b: string)
    requires b == "foo bar"
    ensures Prepared(Defaults(env, 3), b) == "foo bar"
  {
    ExpandTabsSpec(b, 4);
  }

  lemma StringBreaksAscii(s: string, p: string, q: string, rest: string)
    requires s == "foo bar" && p == "" && q == "foo " && rest == "bar"
    ensures s == p + q + rest && Plain(s) && ESC !in p && Printable(q)
  {
  }

  lemma StringBreaksClusters(s: string)
    requires s == "foo bar"
    ensures Singletons(s) == ["f", "o", "o", " ", "b", "a", "r"]
  {
    SingletonsAre(s, ["f", "o", "o", " ", "b", "a", "r"]);
  }

  lemma StringBreaks1(env: Env)
    requires env.marker == ESC
    ensures Run(Defaults(env, 3), State("", 0, false, false), ["f", "o", "o"]) == State("foo", 3, false, false)
  {
    var r := Defaults(env, 3);
    assert Step(r, State("", 0, false, false), "f", r.env.clusterWidth("f")) == State("f", 1, false, false);
    assert Step(r, State("f", 1, false, false), "o", r.env.clusterWidth("o")) == State("fo", 2, false, false);
    assert Step(r, State("fo", 2, false, false), "o", r.env.clusterWidth("o")) == State("foo", 3, false, false);
    assert ["o"][1..] == [];
    assert ["o", "o"][1..] == ["o"];
    assert ["f", "o", "o"][1..] == ["o", "o"];
    assert Run(r, State("fo", 2, false, false), ["o"]) == State("foo", 3, false, false);
    assert Run(r, State("f", 1, false, false), ["o", "o"]) == State("foo", 3, false, false);
    assert Run(r, State("", 0, false, false), ["f", "o", "o"]) == State("foo", 3, false, false);
  }

  lemma StringBreaks2(env: Env)
    requires env.marker == ESC
    ensures Run(Defaults(env, 3), State("foo", 3, false, false), [" ", "b", "a"]) == State("foo\nba", 2, false, false)
  {
    var r := Defaults(env, 3);
    assert Step(r, State("foo", 3, false, false), " ", r.env.clusterWidth(" ")) == State("foo\n", 0, false, true);
    assert Step(r, State("foo\n", 0, false, true), "b", r.env.clusterWidth("b")) == State("foo\nb", 1, false, true);
    assert Step(r, State("foo\nb", 1, false, true), "a", r.env.clusterWidth("a")) == State("foo\nba", 2, false, false);
    assert ["a"][1..] == [];
    assert ["b", "a"][1..] == ["a"];
    assert [" ", "b", "a"][1..] == ["b", "a"];
    assert Run(r, State("foo\nb", 1, false, true), ["a"]) == State("foo\nba", 2, false, false);
    assert Run(r, State("foo\n", 0, false, true), ["b", "a"]) == State("foo\nba", 2, false, false);
    assert Run(r, State("foo", 3, false, false), [" ", "b", "a"]) == State("foo\nba", 2, false, false);
  }

  lemma StringBreaks3(env: Env)
    requires env.marker == ESC
    ensures Run(Defaults(env, 3), State("foo\nba", 2, false, false), ["r"]) == State("foo\nbar", 3, false, false)
  {
    var r := Defaults(env, 3);
    assert Step(r, State("foo\nba", 2, false, false), "r", r.env.clusterWidth("r")) == State("foo\nbar", 3, false, false);
    assert ["r"][1..] == [];
    assert Run(r, State("foo\nba", 2, false, false), ["r"]) == State("foo\nbar", 3, false, false);
  }

  lemma StringBreaksUpto2(env: Env)
    requires env.marker == ESC
    ensures Run(Defaults(env, 3), Empty, ["f", "o", "o", " ", "b", "a"]) == State("foo\nba", 2, false, false)
  {
    assert ["f", "o", "o", " ", "b", "a"] == ["f", "o", "o"] + [" ", "b", "a"];
    StringBreaks1(env);
    StringBreaks2(env);
    RunAppend(Defaults(env, 3), Empty, ["f", "o", "o"], [" ", "b", "a"]);
  }

  lemma StringBreaksUpto3(env: Env)
    requires env.marker == ESC
    ensures Run(Defaults(env, 3), Empty, ["f", "o", "o", " ", "b", "a", "r"]) == State("foo\nbar", 3, false, false)
  {
    assert ["f", "o", "o", " ", "b", "a", "r"] == ["f", "o", "o", " ", "b", "a"] + ["r"];
    StringBreaksUpto2(env);
    StringBreaks3(env);
    RunAppend(Defaults(env, 3), Empty, ["f", "o", "o", " ", "b", "a"], ["r"]);
  }
}
