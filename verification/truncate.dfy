/**
 * truncate/truncate.go: a writer that cuts its input at a printable cell
 * width, grapheme cluster by grapheme cluster, leaving escape sequences
 * intact. The tail's width is charged against the budget first; the cluster
 * that would run past the budget is dropped, the tail is written, and the
 * colours are reset if any were in effect.
 *
 * The visible clusters go through an `ansi.Writer` (modelled by the
 * `AnsiWriter` module) to its `Forward` writer, while the tail always goes to
 * the writer's own `buf`. `NewWriter` makes `buf` the forward writer itself,
 * `NewWriterPipe` an outside one.
 */
module Truncate {
  import opened Unicode
  import opened Text
  import opened AnsiWidth
  import AnsiWriter

  /** A cluster of exactly one byte (`len(cluster) == 1`). */
  predicate OneByte(cl: string) {
    |cl| == 1 && cl[0] < '\U{80}'
  }

  /** The loop's meter: whether a sequence is open (`w.ansi`) and `curWidth`. */
  datatype Meter = Meter(ansi: bool, cur: nat)

  /** The `switch` of the loop: only clusters outside a sequence are measured. */
  function Measure(env: Env, m: Meter, cl: string): Meter {
    if OneByte(cl) && cl[0] == env.marker then m.(ansi := true)
    else if OneByte(cl) && m.ansi && env.isTerm(cl[0]) then m.(ansi := false)
    else if m.ansi then m
    else m.(cur := m.cur + env.clusterWidth(cl))
  }

  /** The meter run over a list of clusters. */
  function MeasureAll(env: Env, m: Meter, cs: seq<string>): Meter
    decreases |cs|
  {
    if cs == [] then m else MeasureAll(env, Measure(env, m, cs[0]), cs[1..])
  }

  /** The cluster raises `curWidth`: it is measured, so it is outside every sequence. */
  predicate Visible(env: Env, m: Meter, cl: string) {
    !m.ansi && !(OneByte(cl) && cl[0] == env.marker)
  }

  /** The persistent fields: the remaining `width`, `ansi`, and the `ansi.Writer`'s state. */
  datatype State = State(width: nat, ansi: bool, aw: AnsiWriter.State)

  /**
   * Where the loop stopped: the meter, the `ansi.Writer`'s state, what its
   * forward writer holds, whether the budget was exceeded (`cut`) and
   * whether forwarding failed.
   */
  datatype Stop = Stop(m: Meter, aw: AnsiWriter.State, out: string, cut: bool, failed: bool)

  /** One iteration of the loop: measure the cluster, then forward it unless it runs past `budget`. */
  function Next(env: Env, failing: bool, budget: nat, m: Meter, aw: AnsiWriter.State, out: string, cl: string): Stop {
    var m1 := Measure(env, m, cl);
    if m1.cur > budget then Stop(m1, aw, out, true, false)
    else
      var r := AnsiWriter.Run(failing, aw, out, cl);
      Stop(m1, r.st, r.out, false, r.failed)
  }

  /** The cluster loop with budget `budget`, up to the cut or the first failed write. */
  function Forward(env: Env, failing: bool, budget: nat, m: Meter, aw: AnsiWriter.State, out: string, cs: seq<string>): Stop
    decreases |cs|
  {
    if cs == [] then Stop(m, aw, out, false, false)
    else
      var s := Next(env, failing, budget, m, aw, out, cs[0]);
      if s.cut || s.failed then s else Forward(env, failing, budget, s.m, s.aw, s.out, cs[1..])
  }

  /**
   * What one `Write` did: the new fields, what the forward writer holds
   * before the final reset, whether the tail went to `buf`, what was written
   * to the forward writer after the tail, and the returned count and error.
   */
  datatype Result = Result(st: State, out: string, tailed: bool, after: string, n: nat, err: bool)

  /** `Write(b)` from fields `st`, on a forward writer that holds `out` and fails every write or none. */
  function Written(env: Env, tail: string, failing: bool, st: State, out: string, b: string): Result {
    var tw := PrintableWidth(env.width, tail);
    if st.width < tw then Result(st, out, true, [], ByteLen(tail), false)
    else
      var budget := st.width - tw;
      var l := Forward(env, failing, budget, Meter(st.ansi, 0), st.aw, out, env.seg(b));
      var st1 := State(budget, l.m.ansi, l.aw);
      if l.cut then
        var after := if l.aw.lastseq != [] && l.aw.seqchanged && !failing then RESET else [];
        Result(st1, l.out, true, after, ByteLen(tail), false)
      else if l.failed then Result(st1, l.out, false, [], 0, true)
      else Result(st1, l.out, false, [], ByteLen(b), false)
  }

  /** `Write` after the loop stopped at `l`. */
  lemma WrittenAfterLoop(env: Env, tail: string, failing: bool, st: State, out: string, b: string, l: Stop)
    requires PrintableWidth(env.width, tail) <= st.width
    requires l == Forward(env, failing, st.width - PrintableWidth(env.width, tail), Meter(st.ansi, 0), st.aw, out, env.seg(b))
    ensures var r := Written(env, tail, failing, st, out, b);
      && r.st == State(st.width - PrintableWidth(env.width, tail), l.m.ansi, l.aw) && r.out == l.out && r.tailed == l.cut
      && r.after == (if l.cut && l.aw.lastseq != [] && l.aw.seqchanged && !failing then RESET else [])
      && r.n == (if l.cut then ByteLen(tail) else if l.failed then 0 else ByteLen(b))
      && r.err == (!l.cut && l.failed)
  {
  }

  /** The fields of a fresh writer. */
  function Fresh(width: nat): State {
    State(width, false, AnsiWriter.Initial)
  }

  /** `StringWithTail(s, width, tail)` (and `BytesWithTail`): `buf` of a fresh `NewWriter` after one `Write`. */
  function WithTail(env: Env, s: string, width: nat, tail: string): string {
    var r := Written(env, tail, false, Fresh(width), [], s);
    r.out + (if r.tailed then tail else []) + r.after
  }

  // ---------------------------------------------------------------------
  // The meter.

  lemma {:induction false} MeasureGrows(env: Env, m: Meter, cs: seq<string>)
    ensures MeasureAll(env, m, cs).cur >= m.cur
    decreases |cs|
  {
    if cs != [] {
      MeasureGrows(env, Measure(env, m, cs[0]), cs[1..]);
    }
  }

  lemma {:induction false} MeasureAppend(env: Env, m: Meter, a: seq<string>, b: seq<string>)
    ensures MeasureAll(env, m, a + b) == MeasureAll(env, MeasureAll(env, m, a), b)
    decreases |a|
  {
    if a == [] {
      assert a + b == b;
    } else {
      assert (a + b)[0] == a[0] && (a + b)[1..] == a[1..] + b;
      MeasureAppend(env, Measure(env, m, a[0]), a[1..], b);
    }
  }

  /** Inside a sequence, clusters of runes that do not end it are not measured. */
  lemma {:induction false} InsideMeasure(env: Env, c: nat, body: string)
    requires forall i :: 0 <= i < |body| ==> !env.isTerm(body[i])
    ensures MeasureAll(env, Meter(true, c), Singletons(body)) == Meter(true, c)
    decreases |body|
  {
    if body != [] {
      assert Singletons(body)[1..] == Singletons(body[1..]);
      InsideMeasure(env, c, body[1..]);
    }
  }

  /** A complete escape sequence, one rune per cluster, takes no width. */
  lemma SequenceMeasure(env: Env, c: nat, body: string, t: char)
    requires env.marker == ESC && env.isTerm(t) && t != ESC && t < '\U{80}'
    requires forall i :: 0 <= i < |body| ==> !env.isTerm(body[i])
    ensures MeasureAll(env, Meter(false, c), Singletons([ESC] + body + [t])) == Meter(false, c)
  {
    SingletonsAppend([ESC] + body, [t]);
    SingletonsAppend([ESC], body);
    OpenMeasure(env, c, body, Singletons([ESC] + body));
    MeasureAppend(env, Meter(false, c), Singletons([ESC] + body), Singletons([t]));
    CloseMeasure(env, c, t);
  }

  lemma OpenMeasure(env: Env, c: nat, body: string, cs: seq<string>)
    requires env.marker == ESC && cs == Singletons([ESC]) + Singletons(body)
    requires forall i :: 0 <= i < |body| ==> !env.isTerm(body[i])
    ensures MeasureAll(env, Meter(false, c), cs) == Meter(true, c)
  {
    MeasureAppend(env, Meter(false, c), Singletons([ESC]), Singletons(body));
    InsideMeasure(env, c, body);
  }

  lemma CloseMeasure(env: Env, c: nat, t: char)
    requires env.isTerm(t) && t != env.marker && t < '\U{80}'
    ensures MeasureAll(env, Meter(true, c), Singletons([t])) == Meter(false, c)
  {
    assert Singletons([t]) == [[t]];
  }

  // ---------------------------------------------------------------------
  // The loop.

  /** A state of the `ansi.Writer` that can be reached stays reachable. */
  lemma {:induction false} ForwardValid(env: Env, failing: bool, budget: nat, m: Meter, aw: AnsiWriter.State, out: string, cs: seq<string>)
    requires AnsiWriter.Valid(aw)
    ensures AnsiWriter.Valid(Forward(env, failing, budget, m, aw, out, cs).aw)
    decreases |cs|
  {
    if cs != [] {
      var m1 := Measure(env, m, cs[0]);
      if m1.cur <= budget {
        var r := AnsiWriter.Run(failing, aw, out, cs[0]);
        AnsiWriter.RunValid(failing, aw, out, cs[0]);
        if !r.failed {
          ForwardValid(env, failing, budget, m1, r.st, r.out, cs[1..]);
        }
      }
    }
  }

  /** The loop over `a + b` is the loop over `a`, then, unless it stopped, the loop over `b`. */
  lemma {:induction false} ForwardAppend(env: Env, failing: bool, budget: nat, m: Meter, aw: AnsiWriter.State, out: string, a: seq<string>, b: seq<string>)
    ensures var l := Forward(env, failing, budget, m, aw, out, a);
      Forward(env, failing, budget, m, aw, out, a + b)
      == if l.cut || l.failed then l else Forward(env, failing, budget, l.m, l.aw, l.out, b)
    decreases |a|
  {
    if a == [] {
      assert a + b == b;
    } else {
      assert (a + b)[0] == a[0] && (a + b)[1..] == a[1..] + b;
      var s := Next(env, failing, budget, m, aw, out, a[0]);
      if !(s.cut || s.failed) {
        ForwardAppend(env, failing, budget, s.m, s.aw, s.out, a[1..], b);
      }
    }
  }

  /** When every cluster fits the budget, all of them go through the `ansi.Writer` in order. */
  lemma {:induction false} ForwardFits(env: Env, budget: nat, m: Meter, aw: AnsiWriter.State, out: string, cs: seq<string>)
    requires MeasureAll(env, m, cs).cur <= budget
    ensures var r := AnsiWriter.Run(false, aw, out, Concat(cs));
      Forward(env, false, budget, m, aw, out, cs) == Stop(MeasureAll(env, m, cs), r.st, r.out, false, false)
    decreases |cs|
  {
    if cs != [] {
      var m1 := Measure(env, m, cs[0]);
      MeasureGrows(env, m1, cs[1..]);
      var r := AnsiWriter.Run(false, aw, out, cs[0]);
      AnsiWriter.WorkingNeverFails(aw, out, cs[0]);
      ForwardFits(env, budget, m1, r.st, r.out, cs[1..]);
      AnsiWriter.RunAppend(false, aw, out, cs[0], Concat(cs[1..]));
    }
  }

  /**
   * When the clusters do not fit, the loop stops at the first cluster `cs[k]`
   * that runs past the budget: that cluster is visible, everything before it
   * went through the `ansi.Writer`, and nothing after it did.
   */
  lemma {:induction false} ForwardCut(env: Env, budget: nat, m: Meter, aw: AnsiWriter.State, out: string, cs: seq<string>) returns (k: nat)
    requires m.cur <= budget < MeasureAll(env, m, cs).cur
    ensures k < |cs|
    ensures MeasureAll(env, m, cs[..k]).cur <= budget < MeasureAll(env, m, cs[..k + 1]).cur
    ensures Visible(env, MeasureAll(env, m, cs[..k]), cs[k])
    ensures var r := AnsiWriter.Run(false, aw, out, Concat(cs[..k]));
      Forward(env, false, budget, m, aw, out, cs) == Stop(MeasureAll(env, m, cs[..k + 1]), r.st, r.out, true, false)
    decreases |cs|
  {
    assert cs != [];
    var m1 := Measure(env, m, cs[0]);
    assert cs[..1] == [cs[0]];
    if m1.cur > budget {
      k := 0;
      assert cs[..0] == [];
    } else {
      var r := AnsiWriter.Run(false, aw, out, cs[0]);
      AnsiWriter.WorkingNeverFails(aw, out, cs[0]);
      var k' := ForwardCut(env, budget, m1, r.st, r.out, cs[1..]);
      k := k' + 1;
      assert cs[..k][0] == cs[0] && cs[..k][1..] == cs[1..][..k'];
      assert cs[..k + 1][0] == cs[0] && cs[..k + 1][1..] == cs[1..][..k' + 1];
      assert Concat(cs[..k]) == cs[0] + Concat(cs[1..][..k']);
      AnsiWriter.RunAppend(false, aw, out, cs[0], Concat(cs[1..][..k']));
    }
  }

  /** On a working forward writer the loop is cut exactly when the clusters do not fit, and never fails. */
  lemma CutIffOverBudget(env: Env, budget: nat, m: Meter, aw: AnsiWriter.State, out: string, cs: seq<string>)
    requires m.cur <= budget
    ensures var l := Forward(env, false, budget, m, aw, out, cs);
      !l.failed && (l.cut <==> MeasureAll(env, m, cs).cur > budget)
  {
    if MeasureAll(env, m, cs).cur > budget {
      var _ := ForwardCut(env, budget, m, aw, out, cs);
    } else {
      ForwardFits(env, budget, m, aw, out, cs);
    }
  }

  /** A failing forward writer receives nothing. */
  lemma {:induction false} ForwardFailing(env: Env, budget: nat, m: Meter, aw: AnsiWriter.State, out: string, cs: seq<string>)
    ensures Forward(env, true, budget, m, aw, out, cs).out == out
    decreases |cs|
  {
    if cs != [] {
      var m1 := Measure(env, m, cs[0]);
      if m1.cur <= budget {
        var r := AnsiWriter.Run(true, aw, out, cs[0]);
        AnsiWriter.FailingForwardsNothing(aw, out, cs[0]);
        if !r.failed {
          ForwardFailing(env, budget, m1, r.st, r.out, cs[1..]);
        }
      }
    }
  }

  // ---------------------------------------------------------------------
  // One `Write`.

  /** A tail wider than the remaining width is all that is written. */
  lemma TailTooWide(env: Env, tail: string, failing: bool, st: State, out: string, b: string)
    requires st.width < PrintableWidth(env.width, tail)
    ensures Written(env, tail, failing, st, out, b) == Result(st, out, true, [], ByteLen(tail), false)
  {
  }

  /**
   * Otherwise the tail's width is taken off the `width` field itself, so a
   * second `Write` on the same writer is charged for the tail again.
   */
  lemma TailCharged(env: Env, tail: string, failing: bool, st: State, out: string, b: string)
    requires PrintableWidth(env.width, tail) <= st.width
    ensures Written(env, tail, failing, st, out, b).st.width == st.width - PrintableWidth(env.width, tail)
  {
  }

  /**
   * Input that fits the budget is forwarded unchanged: what the forward
   * writer received, followed by what the `ansi.Writer` still holds, is the
   * input. The tail is not written and `len(b)` is returned.
   */
  lemma WrittenFits(env: Env, tail: string, st: State, out: string, b: string)
    requires IsSegmenter(env.seg) && AnsiWriter.Drained(st.aw)
    requires PrintableWidth(env.width, tail) <= st.width
    requires MeasureAll(env, Meter(st.ansi, 0), env.seg(b)).cur <= st.width - PrintableWidth(env.width, tail)
    ensures var r := Written(env, tail, false, st, out, b);
      && !r.tailed && !r.err && r.n == ByteLen(b) && r.after == []
      && r.out + r.st.aw.ansiseq == out + st.aw.ansiseq + b
    ensures var r := Written(env, tail, false, st, out, b);
      var a := AnsiWriter.Run(false, st.aw, out, b);
      r.out == a.out && r.st.aw == a.st
  {
    var budget := st.width - PrintableWidth(env.width, tail);
    ForwardFits(env, budget, Meter(st.ansi, 0), st.aw, out, env.seg(b));
    AnsiWriter.Transparent(st.aw, out, b);
  }

  /**
   * Input that does not fit is cut before the first cluster that runs past
   * the budget, which is a visible one, so no escape sequence is split.
   * Then the tail is written, and a reset when colours are in effect.
   */
  lemma WrittenCut(env: Env, tail: string, st: State, out: string, b: string) returns (k: nat)
    requires IsSegmenter(env.seg) && AnsiWriter.Drained(st.aw)
    requires PrintableWidth(env.width, tail) <= st.width
    requires MeasureAll(env, Meter(st.ansi, 0), env.seg(b)).cur > st.width - PrintableWidth(env.width, tail)
    ensures var cs := env.seg(b);
      var m0 := Meter(st.ansi, 0);
      var budget := st.width - PrintableWidth(env.width, tail);
      && k < |cs|
      && MeasureAll(env, m0, cs[..k]).cur <= budget < MeasureAll(env, m0, cs[..k + 1]).cur
      && Visible(env, MeasureAll(env, m0, cs[..k]), cs[k])
    ensures var r := Written(env, tail, false, st, out, b);
      && r.tailed && !r.err && r.n == ByteLen(tail)
      && r.out + r.st.aw.ansiseq == out + st.aw.ansiseq + Concat(env.seg(b)[..k])
      && r.after == if r.st.aw.lastseq != [] && r.st.aw.seqchanged then RESET else []
    ensures var r := Written(env, tail, false, st, out, b);
      var a := AnsiWriter.Run(false, st.aw, out, Concat(env.seg(b)[..k]));
      r.out == a.out && r.st.aw == a.st
  {
    var budget := st.width - PrintableWidth(env.width, tail);
    k := ForwardCut(env, budget, Meter(st.ansi, 0), st.aw, out, env.seg(b));
    AnsiWriter.Transparent(st.aw, out, Concat(env.seg(b)[..k]));
  }

  /** A failing forward writer receives nothing; the tail still goes to `buf`. */
  lemma WrittenFailing(env: Env, tail: string, st: State, out: string, b: string)
    ensures Written(env, tail, true, st, out, b).out == out
  {
    var tw := PrintableWidth(env.width, tail);
    if tw <= st.width {
      ForwardFailing(env, st.width - tw, Meter(st.ansi, 0), st.aw, out, env.seg(b));
    }
  }

  /** `Write` keeps the `ansi.Writer` in a reachable state. */
  lemma WrittenValid(env: Env, tail: string, failing: bool, st: State, out: string, b: string)
    requires AnsiWriter.Valid(st.aw)
    ensures AnsiWriter.Valid(Written(env, tail, failing, st, out, b).st.aw)
  {
    var tw := PrintableWidth(env.width, tail);
    if tw <= st.width {
      ForwardValid(env, failing, st.width - tw, Meter(st.ansi, 0), st.aw, out, env.seg(b));
    }
  }

  // ---------------------------------------------------------------------
  // Plain text.

  lemma {:induction false} PrintableMeasure(env: Env, c: nat, s: string)
    requires env.marker == ESC && Printable(s)
    ensures MeasureAll(env, Meter(false, c), Singletons(s)) == Meter(false, c + |s|)
    decreases |s|
  {
    if s != [] {
      assert Singletons(s)[1..] == Singletons(s[1..]);
      PrintableMeasure(env, c + 1, s[1..]);
    }
  }

  lemma PrintableClusters(env: Env, s: string)
    requires IsSegmenter(env.seg) && Printable(s)
    ensures env.seg(s) == Singletons(s)
  {
    AsciiSegmentation(s, env.seg(s));
  }

  /**
   * On printable ASCII, `StringWithTail` is the tail alone when the tail is
   * wider than `width`, the input when input and tail fit, and otherwise the
   * longest prefix that leaves room for the tail, followed by the tail.
   */
  lemma PlainWithTail(env: Env, s: string, width: nat, tail: string)
    requires IsSegmenter(env.seg) && env.marker == ESC && Printable(s) && Printable(tail)
    ensures WithTail(env, s, width, tail)
         == if |tail| > width then tail
            else if |s| + |tail| <= width then s
            else s[..width - |tail|] + tail
  {
    PrintableWidthIsLength(env.width, tail);
    if |tail| <= width {
      if |s| + |tail| <= width {
        PlainFits(env, s, width, tail, []);
      } else {
        PlainCut(env, s, width, tail, []);
      }
    }
  }

  /** Printable ASCII that fits is forwarded whole, and `len(b)` is returned. */
  lemma PlainFits(env: Env, s: string, width: nat, tail: string, out: string)
    requires IsSegmenter(env.seg) && env.marker == ESC && Printable(s)
    requires PrintableWidth(env.width, tail) == |tail| && |s| + |tail| <= width
    ensures var r := Written(env, tail, false, Fresh(width), out, s);
      r.out == out + s && !r.tailed && r.after == [] && !r.err && r.n == ByteLen(s)
  {
    PrintableClusters(env, s);
    PrintableMeasure(env, 0, s);
    assert ESC !in s;
    WrittenFits(env, tail, Fresh(width), out, s);
    AnsiWriter.PlainPassesThrough(AnsiWriter.Initial, out, s);
  }

  /** Printable ASCII that does not fit is forwarded up to the budget; no reset follows the tail. */
  lemma PlainCut(env: Env, s: string, width: nat, tail: string, out: string)
    requires IsSegmenter(env.seg) && env.marker == ESC && Printable(s)
    requires PrintableWidth(env.width, tail) == |tail| && |tail| <= width < |s| + |tail|
    ensures var r := Written(env, tail, false, Fresh(width), out, s);
      r.out == out + s[..width - |tail|] && r.tailed && r.after == [] && !r.err && r.n == ByteLen(tail)
  {
    PrintableClusters(env, s);
    PrintableMeasure(env, 0, s);
    var k := WrittenCut(env, tail, Fresh(width), out, s);
    PlainPrefix(env, s, k, width - |tail|);
    assert ESC !in s[..k];
    AnsiWriter.PlainPassesThrough(AnsiWriter.Initial, out, s[..k]);
  }

  /** The cut of printable ASCII falls after exactly `budget` runes. */
  lemma PlainPrefix(env: Env, s: string, k: nat, budget: nat)
    requires env.marker == ESC && Printable(s) && k < |s|
    requires MeasureAll(env, Meter(false, 0), Singletons(s)[..k]).cur <= budget < MeasureAll(env, Meter(false, 0), Singletons(s)[..k + 1]).cur
    ensures k == budget && Concat(Singletons(s)[..k]) == s[..k]
  {
    var cs := Singletons(s);
    assert cs[..k] == Singletons(s[..k]);
    assert cs[..k + 1] == Singletons(s[..k + 1]);
    PrintableMeasure(env, 0, s[..k]);
    PrintableMeasure(env, 0, s[..k + 1]);
  }

  // ---------------------------------------------------------------------
  // The writer.

  /** `Writer`: the settings, `buf`, the `ansi.Writer` and the `ansi` flag. */
  class Writer {
    var width: nat
    const tail: string
    const env: Env
    /** `buf`, a `bytes.Buffer`, which never fails. */
    const buf: Sink
    const ansiWriter: AnsiWriter.Writer
    var ansi: bool

    function Fields(): State
      reads this, ansiWriter
    {
      State(width, ansi, ansiWriter.Fields())
    }

    /** `buf` accepts every write, and the `ansi.Writer` is in a reachable state. */
    ghost predicate Valid()
      reads this, ansiWriter
    {
      !buf.failing && AnsiWriter.Valid(ansiWriter.Fields())
    }

    /** `NewWriter(width, tail)`: the `ansi.Writer` forwards into `buf`. */
    constructor NewWriter(env: Env, width: nat, tail: string)
      ensures Valid() && Fields() == Fresh(width)
      ensures this.env == env && this.tail == tail && ansiWriter.forward == buf && buf.data == []
      ensures fresh(buf) && fresh(ansiWriter)
    {
      this.env, this.width, this.tail := env, width, tail;
      var b := new Sink(false);
      buf := b;
      ansiWriter := new AnsiWriter.Writer(b);
      ansi := false;
    }

    /** `NewWriterPipe(forward, width, tail)`: the `ansi.Writer` forwards into `forward`. */
    constructor NewWriterPipe(forward: Sink, env: Env, width: nat, tail: string)
      ensures Valid() && Fields() == Fresh(width)
      ensures this.env == env && this.tail == tail && ansiWriter.forward == forward && buf.data == []
      ensures fresh(buf) && fresh(ansiWriter)
    {
      this.env, this.width, this.tail := env, width, tail;
      buf := new Sink(false);
      ansiWriter := new AnsiWriter.Writer(forward);
      ansi := false;
    }

    /**
     * One iteration of `Write`'s loop up to its `return`s: the `switch`, the
     * budget test, and forwarding through the `ansi.Writer`.
     */
    method Consume(cl: string, budget: nat, curWidth: nat) returns (cur: nat, cut: bool, failed: bool)
      requires AnsiWriter.Valid(ansiWriter.Fields())
      modifies this`ansi, ansiWriter, ansiWriter.forward
      ensures AnsiWriter.Valid(ansiWriter.Fields())
      ensures var s := Next(env, ansiWriter.forward.failing, budget, Meter(old(ansi), curWidth), old(ansiWriter.Fields()), old(ansiWriter.forward.data), cl);
        && Meter(ansi, cur) == s.m && cut == s.cut && failed == s.failed
        && ansiWriter.Fields() == s.aw && ansiWriter.forward.data == s.out
    {
      cur := curWidth;
      if |cl| == 1 && cl[0] < '\U{80}' && cl[0] == env.marker {
        ansi := true;
      } else if |cl| == 1 && cl[0] < '\U{80}' && ansi && env.isTerm(cl[0]) {
        ansi := false;
      } else if ansi {
      } else {
        cur := cur + env.clusterWidth(cl);
      }
      if cur > budget {
        return cur, true, false;
      }
      AnsiWriter.RunValid(ansiWriter.forward.failing, ansiWriter.Fields(), ansiWriter.forward.data, cl);
      var _, e := ansiWriter.Write(cl);
      return cur, false, e;
    }

    /** `Write`'s loop over the clusters of `b`, up to the cut or the first failed write. */
    method Clusters(b: string, budget: nat) returns (cut: bool, failed: bool)
      requires AnsiWriter.Valid(ansiWriter.Fields())
      modifies this`ansi, ansiWriter, ansiWriter.forward
      ensures AnsiWriter.Valid(ansiWriter.Fields())
      ensures var l := Forward(env, ansiWriter.forward.failing, budget, Meter(old(ansi), 0), old(ansiWriter.Fields()), old(ansiWriter.forward.data), env.seg(b));
        && ansi == l.m.ansi && cut == l.cut && failed == l.failed
        && ansiWriter.Fields() == l.aw && ansiWriter.forward.data == l.out
    {
      var fwd := ansiWriter.forward;
      var curWidth: nat := 0;
      var cs := env.seg(b);
      ghost var l0 := Forward(env, fwd.failing, budget, Meter(ansi, 0), ansiWriter.Fields(), fwd.data, cs);
      var i := 0;
      while i < |cs|
        invariant 0 <= i <= |cs|
        invariant AnsiWriter.Valid(ansiWriter.Fields())
        invariant l0 == Forward(env, fwd.failing, budget, Meter(ansi, curWidth), ansiWriter.Fields(), fwd.data, cs[i..])
      {
        assert cs[i..][0] == cs[i] && cs[i..][1..] == cs[i + 1..];
        curWidth, cut, failed := Consume(cs[i], budget, curWidth);
        if cut || failed {
          return;
        }
        i := i + 1;
      }
      return false, false;
    }

    /** The cut: the tail to `buf`, then a reset when colours are in effect. */
    method Cut() returns (n: nat, err: bool)
      requires Valid()
      modifies buf, ansiWriter.forward
      ensures n == ByteLen(tail) && !err
      ensures var after := if ansiWriter.lastseq != [] && ansiWriter.seqchanged && !ansiWriter.forward.failing then RESET else [];
        if ansiWriter.forward == buf then buf.data == old(buf.data) + tail + after
        else ansiWriter.forward.data == old(ansiWriter.forward.data) + after && buf.data == old(buf.data) + tail
    {
      n, err := buf.Write(tail);
      var last := ansiWriter.LastSequence();
      if last != [] {
        ansiWriter.ResetAnsi();
      }
    }

    /** The part of `Write` after the tail has been charged: the loop, then the cut. */
    method Charged(b: string) returns (n: nat, err: bool)
      requires Valid()
      modifies this`ansi, buf, ansiWriter, ansiWriter.forward
      ensures Valid()
      ensures var l := Forward(env, ansiWriter.forward.failing, width, Meter(old(ansi), 0), old(ansiWriter.Fields()), old(ansiWriter.forward.data), env.seg(b));
        var after := if l.cut && l.aw.lastseq != [] && l.aw.seqchanged && !ansiWriter.forward.failing then RESET else [];
        var toBuf := if l.cut then tail else [];
        && ansi == l.m.ansi && ansiWriter.Fields() == l.aw
        && n == (if l.cut then ByteLen(tail) else if l.failed then 0 else ByteLen(b))
        && err == (!l.cut && l.failed)
        && if ansiWriter.forward == buf then buf.data == l.out + toBuf + after
           else ansiWriter.forward.data == l.out + after && buf.data == old(buf.data) + toBuf
    {
      var cut, failed := Clusters(b, width);
      if cut {
        n, err := Cut();
      } else if failed {
        n, err := 0, true;
      } else {
        n, err := ByteLen(b), false;
      }
    }

    /**
     * `Write`. The forward writer receives the clusters that fit and, after
     * a cut, a reset; `buf` receives the tail. When the two are the same
     * buffer, the tail lands between them.
     */
    method Write(b: string) returns (n: nat, err: bool)
      requires Valid()
      modifies this, buf, ansiWriter, ansiWriter.forward
      ensures Valid()
      ensures var r := Written(env, tail, ansiWriter.forward.failing, old(Fields()), old(ansiWriter.forward.data), b);
        && Fields() == r.st && n == r.n && err == r.err
        && if ansiWriter.forward == buf then buf.data == r.out + (if r.tailed then tail else []) + r.after
           else ansiWriter.forward.data == r.out + r.after && buf.data == old(buf.data) + (if r.tailed then tail else [])
    {
      var tw := PrintableRuneWidth(env.width, tail);
      if width < tw {
        n, err := buf.Write(tail);
        return;
      }
      ghost var l := Forward(env, ansiWriter.forward.failing, width - tw, Meter(ansi, 0), ansiWriter.Fields(), ansiWriter.forward.data, env.seg(b));
      WrittenAfterLoop(env, tail, ansiWriter.forward.failing, Fields(), ansiWriter.forward.data, b, l);
      width := width - tw;
      n, err := Charged(b);
    }

    /** `String`: what `buf` holds. */
    function String(): string
      reads buf
    {
      buf.data
    }
  }

  /** `StringWithTail(s, width, tail)` (and `BytesWithTail`). */
  method StringWithTail(env: Env, s: string, width: nat, tail: string) returns (r: string)
    ensures r == WithTail(env, s, width, tail)
  {
    var f := new Writer.NewWriter(env, width, tail);
    var _, _ := f.Write(s);
    r := f.buf.data;
  }

  /** `String(s, width)` (and `Bytes`): no tail. */
  method String(env: Env, s: string, width: nat) returns (r: string)
    ensures r == WithTail(env, s, width, [])
  {
    r := StringWithTail(env, s, width, []);
  }
}
