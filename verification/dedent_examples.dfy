/** The behaviour pinned down by dedent/dedent_test.go (its cases without tabs). */
module DedentExamples {
  import opened Text
  import opened Dedent

  /**
   * Text given as its lines `ls`, where every non-empty line is `m` spaces
   * followed by the line of `out`, and line `j` is not followed by more
   * spaces: dedenting gives the lines of `out`.
   */
  lemma Shifted(ls: seq<string>, m: nat, out: seq<string>, j: nat)
    requires |ls| >= 1 && |out| == |ls| && m > 0 && j < |ls|
    requires forall i :: 0 <= i < |out| ==> NEWLINE !in out[i]
    requires forall i :: 0 <= i < |ls| ==> if ls[i] == [] then out[i] == [] else ls[i] == Repeat(SPACE, m) + out[i]
    requires ls[j] != [] && (out[j] == [] || out[j][0] != SPACE)
    ensures Dedented(JoinLines(ls)) == JoinLines(out)
  {
    assert forall i :: 0 <= i < |ls| ==> NEWLINE !in ls[i] by {
      forall i | 0 <= i < |ls| ensures NEWLINE !in ls[i] {
        if ls[i] != [] {
          assert forall x :: x in ls[i] ==> x == SPACE || x in out[i];
        }
      }
    }
    JoinLinesSplit(ls);
    ShiftedMin(ls, m, out, j);
    ShiftedTrim(ls, m, out);
  }

  lemma ShiftedMin(ls: seq<string>, m: nat, out: seq<string>, j: nat)
    requires |out| == |ls| && j < |ls|
    requires forall i :: 0 <= i < |ls| ==> if ls[i] == [] then out[i] == [] else ls[i] == Repeat(SPACE, m) + out[i]
    requires ls[j] != [] && (out[j] == [] || out[j][0] != SPACE)
    ensures MinIndent(ls) == m
  {
    MinIndentSpec(ls);
    forall i | 0 <= i < |ls| && ls[i] != []
      ensures LeadingSpaces(ls[i]) == m + LeadingSpaces(out[i])
    {
      Prefixed(m, out[i]);
    }
    assert LeadingSpaces(out[j]) == 0;
  }

  lemma ShiftedTrim(ls: seq<string>, m: nat, out: seq<string>)
    requires |out| == |ls|
    requires forall i :: 0 <= i < |ls| ==> if ls[i] == [] then out[i] == [] else ls[i] == Repeat(SPACE, m) + out[i]
    ensures Trimmed(ls, m) == out
  {
    forall i | 0 <= i < |ls| ensures Trimmed(ls, m)[i] == out[i] {
      if ls[i] != [] {
        assert Repeat(SPACE, m) <= ls[i];
        assert ls[i][m..] == out[i];
      } else if m > 0 {
        assert !(Repeat(SPACE, m) <= ls[i]);
      }
    }
  }

  /** `m` spaces in front add `m` to the indentation. */
  lemma {:induction false} Prefixed(m: nat, x: string)
    ensures LeadingSpaces(Repeat(SPACE, m) + x) == m + LeadingSpaces(x)
    decreases m
  {
    var l := Repeat(SPACE, m) + x;
    if m == 0 {
      assert l == x;
    } else {
      assert Repeat(SPACE, m)[1..] == Repeat(SPACE, m - 1);
      assert l[0] == SPACE && l[1..] == Repeat(SPACE, m - 1) + x;
      Prefixed(m - 1, x);
    }
  }

  /** Three lines joined. */
  lemma Join3(x: string, y: string, z: string)
    ensures JoinLines([x, y, z]) == x + [NEWLINE] + y + [NEWLINE] + z
  {
    assert [x, y, z][1..] == [y, z] && [y, z][1..] == [z];
    assert JoinLines([y, z]) == y + [NEWLINE] + z;
  }

  /** Two lines `m` spaces deep, each ended by a line end: both lose the spaces. */
  lemma TwoEnded(sp: string, m: nat, a: string, b: string, j: nat)
    requires m > 0 && sp == Repeat(SPACE, m) && NEWLINE !in a && NEWLINE !in b
    requires j < 2 && [a, b][j] != [] && [a, b][j][0] != SPACE
    ensures Dedented(sp + a + [NEWLINE] + (sp + b) + [NEWLINE]) == a + [NEWLINE] + b + [NEWLINE]
  {
    var ls, out := [sp + a, sp + b, []], [a, b, []];
    Shifted(ls, m, out, j);
    Join3(sp + a, sp + b, []);
    Join3(a, b, []);
    assert sp + a + [NEWLINE] + (sp + b) + [NEWLINE] + [] == sp + a + [NEWLINE] + (sp + b) + [NEWLINE];
    assert a + [NEWLINE] + b + [NEWLINE] + [] == a + [NEWLINE] + b + [NEWLINE];
  }

  /**
   * "      --help      Show help for command\n      --version   Show version\n"
   * gives "--help      Show help for command\n--version   Show version\n".
   */
  lemma Help(a: string, b: string)
    requires a == "--help      Show help for command" && b == "--version   Show version"
    ensures Dedented("      " + a + "\n" + ("      " + b) + "\n") == a + "\n" + b + "\n"
  {
    assert "      " == Repeat(SPACE, 6);
    TwoEnded("      ", 6, a, b, 0);
  }

  /**
   * Relative indentation stays:
   * "      --help              Show help for command\n  -C, --config string   Specify the config file to use\n"
   * gives "    --help              Show help for command\n-C, --config string   Specify the config file to use\n".
   */
  lemma Config(a: string, b: string)
    requires a == "    --help              " + "Show help for command"
    requires b == "-C, --config string   " + "Specify the config file to use"
    ensures Dedented("  " + a + "\n" + ("  " + b) + "\n") == a + "\n" + b + "\n"
  {
    assert "  " == Repeat(SPACE, 2);
    TwoEnded("  ", 2, a, b, 1);
  }

  /** Empty lines do not count and stay empty: "  line 1\n\n  line 2\n line 3" gives " line 1\n\n line 2\nline 3". */
  lemma EmptyLineKept(a: string, b: string, c: string)
    requires a == " line 1" && b == " line 2" && c == "line 3"
    ensures Dedented(" " + a + "\n" + "\n" + (" " + b) + "\n" + (" " + c)) == a + "\n" + "\n" + b + "\n" + c
  {
    assert " " == Repeat(SPACE, 1);
    WithEmptyLine(" ", 1, a, b, c);
  }

  lemma WithEmptyLine(sp: string, m: nat, a: string, b: string, c: string)
    requires m > 0 && sp == Repeat(SPACE, m) && NEWLINE !in a && NEWLINE !in b && NEWLINE !in c
    requires c != [] && c[0] != SPACE
    ensures Dedented(sp + a + [NEWLINE] + [NEWLINE] + (sp + b) + [NEWLINE] + (sp + c))
         == a + [NEWLINE] + [NEWLINE] + b + [NEWLINE] + c
  {
    var ls, out := [sp + a, [], sp + b, sp + c], [a, [], b, c];
    Shifted(ls, m, out, 3);
    assert ls[1..] == [[], sp + b, sp + c] && out[1..] == [[], b, c];
    Join3([], sp + b, sp + c);
    Join3([], b, c);
    assert JoinLines(ls) == (sp + a) + [NEWLINE] + JoinLines(ls[1..]);
    assert JoinLines(out) == a + [NEWLINE] + JoinLines(out[1..]);
    assert JoinLines(ls) == sp + a + [NEWLINE] + [NEWLINE] + (sp + b) + [NEWLINE] + (sp + c);
    assert JoinLines(out) == a + [NEWLINE] + [NEWLINE] + b + [NEWLINE] + c;
  }

  /** Trailing empty lines survive: "  line 1\n  line 2\n  line 3\n\n" gives "line 1\nline 2\nline 3\n\n". */
  lemma TrailingEmptyLines(a: string, b: string, c: string)
    requires a == "line 1" && b == "line 2" && c == "line 3"
    ensures Dedented("  " + a + "\n" + ("  " + b) + "\n" + ("  " + c) + "\n" + "\n") == a + "\n" + b + "\n" + c + "\n" + "\n"
  {
    assert "  " == Repeat(SPACE, 2);
    ThreeEnded("  ", 2, a, b, c);
  }

  lemma ThreeEnded(sp: string, m: nat, a: string, b: string, c: string)
    requires m > 0 && sp == Repeat(SPACE, m) && NEWLINE !in a && NEWLINE !in b && NEWLINE !in c
    requires a != [] && a[0] != SPACE
    ensures Dedented(sp + a + [NEWLINE] + (sp + b) + [NEWLINE] + (sp + c) + [NEWLINE] + [NEWLINE])
         == a + [NEWLINE] + b + [NEWLINE] + c + [NEWLINE] + [NEWLINE]
  {
    var ls, out := [sp + a, sp + b, sp + c, [], []], [a, b, c, [], []];
    Shifted(ls, m, out, 0);
    assert ls[2..] == [sp + c, [], []] && out[2..] == [c, [], []];
    assert ls[1..][1..] == ls[2..] && out[1..][1..] == out[2..];
    Join3(sp + c, [], []);
    Join3(c, [], []);
    assert JoinLines(ls[1..]) == (sp + b) + [NEWLINE] + JoinLines(ls[2..]);
    assert JoinLines(out[1..]) == b + [NEWLINE] + JoinLines(out[2..]);
    assert JoinLines(ls) == (sp + a) + [NEWLINE] + JoinLines(ls[1..]);
    assert JoinLines(out) == a + [NEWLINE] + JoinLines(out[1..]);
    assert JoinLines(ls) == sp + a + [NEWLINE] + (sp + b) + [NEWLINE] + (sp + c) + [NEWLINE] + [NEWLINE];
    assert JoinLines(out) == a + [NEWLINE] + b + [NEWLINE] + c + [NEWLINE] + [NEWLINE];
  }

  /** Text without a non-empty line comes back unchanged: "\n\n\n\n\n\n" and "". */
  lemma NothingToTrim(s: string)
    requires s == "\n\n\n\n\n\n" || s == ""
    ensures Dedented(s) == s
  {
    var ls: seq<string> := seq(|s| + 1, i => []);
    assert s == JoinLines(ls) by {
      EmptyLines(|s| + 1);
      assert s == Repeat(NEWLINE, |s|);
    }
    JoinLinesSplit(ls);
    MinIndentSpec(ls);
  }

  /** `n` empty lines joined are `n - 1` line ends. */
  lemma {:induction false} EmptyLines(n: nat)
    requires n >= 1
    ensures JoinLines(seq(n, i => [])) == Repeat(NEWLINE, n - 1)
    decreases n
  {
    var ls: seq<string> := seq(n, i => []);
    if n > 1 {
      EmptyLines(n - 1);
      assert ls[1..] == seq(n - 1, i => []);
      assert [] + [NEWLINE] + Repeat(NEWLINE, n - 2) == Repeat(NEWLINE, n - 1);
    }
  }

  /**
   * A line of spaces only counts towards the common indentation, so
   * dedenting twice can trim more: "  \n   a" gives "\n a", which gives "\na".
   */
  lemma BlankLineCounts()
    ensures Dedented("  " + "\n" + ("  " + " a")) == "\n" + " a"
    ensures Dedented("\n" + (" " + "a")) == "\n" + "a"
  {
    assert "  " == Repeat(SPACE, 2) && " " == Repeat(SPACE, 1);
    assert Dedented("  " + "\n" + ("  " + " a")) == "\n" + " a" by {
      Shifted(["  ", "  " + " a"], 2, [[], " a"], 0);
      assert ["  ", "  " + " a"][1..] == ["  " + " a"] && [[], " a"][1..] == [" a"];
    }
    Shifted([[], " " + "a"], 1, [[], "a"], 1);
    assert [[], " " + "a"][1..] == [" " + "a"] && [[], "a"][1..] == ["a"];
  }
}
