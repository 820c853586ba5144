/**
 * The external Unicode collaborators the layout code relies on, stated only
 * through the properties the model needs:
 *  - UTF-8 encoded length (Go measures buffers and return counts in bytes),
 *  - Go's `unicode.IsSpace`,
 *  - the cell width of a rune (`runewidth.RuneWidth`), left abstract,
 *  - grapheme-cluster segmentation and cluster width (`uniseg`), left abstract.
 */
module Unicode {

  /** Number of bytes in the UTF-8 encoding of one code point. */
  function RuneLen(c: char): (k: nat)
    ensures 1 <= k <= 4
    ensures k == 1 <==> c < '\U{80}'
  {
    if c < '\U{80}' then 1
    else if c < '\U{800}' then 2
    else if c < '\U{10000}' then 3
    else 4
  }

  /** Number of bytes in the UTF-8 encoding of a string: Go's `len` on the bytes. */
  function ByteLen(s: string): (k: nat)
    ensures k >= |s|
    ensures k == 0 <==> s == []
    decreases |s|
  {
    if s == [] then 0 else RuneLen(s[0]) + ByteLen(s[1..])
  }

  lemma {:induction false} ByteLenAppend(a: string, b: string)
    ensures ByteLen(a + b) == ByteLen(a) + ByteLen(b)
    decreases |a|
  {
    if a == [] {
      assert a + b == b;
    } else {
      assert (a + b)[1..] == a[1..] + b;
      ByteLenAppend(a[1..], b);
    }
  }

  /** Go's `unicode.IsSpace`: the Latin-1 spaces and the White_Space property. */
  predicate IsSpace(c: char) {
    if c <= '\U{FF}' then
      c == '\t' || c == '\n' || c == '\U{0B}' || c == '\U{0C}' || c == '\r' || c == ' '
      || c == '\U{85}' || c == '\U{A0}'
    else
      c == '\U{1680}' || ('\U{2000}' <= c <= '\U{200A}') || c == '\U{2028}' || c == '\U{2029}'
      || c == '\U{202F}' || c == '\U{205F}' || c == '\U{3000}'
  }

  /**
   * What is assumed of `runewidth.RuneWidth`: at most two cells, control
   * characters take none and printable ASCII takes one.
   */
  ghost predicate IsCellWidth(f: char -> nat) {
    forall c :: f(c) <= 2 && (c < ' ' ==> f(c) == 0) && (' ' <= c <= '~' ==> f(c) == 1)
  }

  function NarrowWidth(c: char): nat {
    if c < ' ' then 0 else 1
  }

  /** A cell-width function for runes, standing for `runewidth.RuneWidth`. */
  type WidthFn = f: char -> nat | IsCellWidth(f) witness NarrowWidth

  /** The concatenation of a list of clusters. */
  function Concat(cs: seq<string>): string
    decreases |cs|
  {
    if cs == [] then [] else cs[0] + Concat(cs[1..])
  }

  lemma {:induction false} ConcatAppend(a: seq<string>, b: seq<string>)
    ensures Concat(a + b) == Concat(a) + Concat(b)
    decreases |a|
  {
    if a == [] {
      assert a + b == b;
    } else {
      assert (a + b)[1..] == a[1..] + b;
      ConcatAppend(a[1..], b);
    }
  }

  /**
   * What is assumed of grapheme-cluster segmentation: the clusters are
   * non-empty and concatenate back to the input, ESC is a cluster of its own,
   * and two ASCII characters are never in one cluster unless they are CR LF.
   */
  ghost predicate IsSegmentation(s: string, cs: seq<string>) {
    && Concat(cs) == s
    && (forall i :: 0 <= i < |cs| ==> cs[i] != [])
    && (forall i :: 0 <= i < |cs| && '\U{1B}' in cs[i] ==> cs[i] == ['\U{1B}'])
    && (forall i :: 0 <= i < |cs| && |cs[i]| >= 2 && cs[i][0] < '\U{80}' && cs[i][1] < '\U{80}' ==>
          cs[i][0] == '\r' && cs[i][1] == '\n')
  }

  /** The segmentation into single runes; valid for text without combining marks. */
  function Singletons(s: string): (cs: seq<string>)
    ensures |cs| == |s|
    ensures forall i :: 0 <= i < |s| ==> cs[i] == [s[i]]
    ensures IsSegmentation(s, cs)
    decreases |s|
  {
    if s == [] then []
    else
      var rest := Singletons(s[1..]);
      assert ([[s[0]]] + rest)[1..] == rest;
      [[s[0]]] + rest
  }

  lemma SingletonsAppend(a: string, b: string)
    ensures Singletons(a + b) == Singletons(a) + Singletons(b)
  {
    assert forall i :: 0 <= i < |a + b| ==> Singletons(a + b)[i] == (Singletons(a) + Singletons(b))[i];
  }

  /** `f` segments every string, as `uniseg`'s cluster iteration does. */
  ghost predicate IsSegmenter(f: string -> seq<string>) {
    forall s :: IsSegmentation(s, f(s))
  }

  /**
   * Text made of ASCII runes other than CR has only one segmentation: every
   * rune is a cluster of its own.
   */
  lemma {:induction false} AsciiSegmentation(s: string, cs: seq<string>)
    requires IsSegmentation(s, cs)
    requires forall i :: 0 <= i < |s| ==> s[i] < '\U{80}' && s[i] != '\r'
    ensures cs == Singletons(s)
    decreases |cs|
  {
    if cs == [] {
      assert s == [];
    } else {
      assert s == cs[0] + Concat(cs[1..]);
      assert forall k :: 0 <= k < |cs[0]| ==> cs[0][k] == s[k];
      assert cs[0] == [s[0]];
      var rest := cs[1..];
      assert forall i :: 0 <= i < |rest| ==> rest[i] == cs[i + 1];
      AsciiSegmentation(s[1..], rest);
    }
  }

  /**
   * What is assumed of the cluster width `uniseg` reports: a printable ASCII
   * rune on its own takes one cell.
   */
  ghost predicate IsClusterWidth(f: string -> nat) {
    forall c :: ' ' <= c <= '~' ==> f([c]) == 1
  }

  function OneCell(cluster: string): nat { 1 }

  /** The width of a grapheme cluster, standing for the width `uniseg` returns with it. */
  type ClusterWidthFn = f: string -> nat | IsClusterWidth(f) witness OneCell
}
