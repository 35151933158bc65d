/**
 * Printing a suite path as an indented tree, omitting the segments it shares with the
 * previously printed path (index.js, `printSpecLabel`).
 */
module PathRender {
  import opened Text

  /** The output stream and the path cursor (`currentPath`). */
  datatype Screen = Screen(out: seq<string>, cur: seq<string>)

  /** Appends `xs` to the output, leaving the cursor alone. */
  function Append(sc: Screen, xs: seq<string>): Screen
  {
    Screen(sc.out + xs, sc.cur)
  }

  /** The indent of the segment at depth `depth`: `"  "` once more per level. */
  function Indent(depth: nat): (r: string)
    ensures |r| == 2 * (depth + 1)
  {
    RepeatLength("  ", depth + 1);
    Repeat("  ", depth + 1)
  }

  /** An indent consists of spaces only. */
  lemma IndentSpaces(depth: nat)
    ensures forall i | 0 <= i < |Indent(depth)| :: Indent(depth)[i] == ' '
  {
    RepeatUniform("  ", depth + 1, ' ');
  }

  /**
   * The text printed for `seg` at depth `depth`: when longer than `width`, it is cut to
   * `slice(0, width - 3)` and ends in `...`. From a width of 3 on this fits the width
   * exactly; below 3 the negative slice end drops characters from the end instead.
   */
  function Label(seg: string, depth: nat, width: nat): string
  {
    var raw := Indent(depth) + seg;
    if |raw| > width then SliceTo(raw, width - 3) + "..." else raw
  }

  /**
   * A label that fits is the indented segment itself; a longer one keeps a prefix of it
   * and ends in `...`, and from a width of 3 on it is exactly `width` characters long.
   */
  lemma LabelShape(seg: string, depth: nat, width: nat)
    ensures var r, raw := Label(seg, depth, width), Indent(depth) + seg;
      && (width >= 3 ==> |r| <= width)
      && (|raw| <= width ==> r == raw)
      && (|raw| > width ==>
        && 3 <= |r| <= |raw| + 3 && r[|r| - 3..] == "..." && r[..|r| - 3] == raw[..|r| - 3]
        && (width >= 3 ==> |r| == width)
        && (width < 3 ==> |r| == 3 + if |raw| + width > 3 then |raw| + width - 3 else 0))
  {
  }

  /** `strmul(' ', width - |text|)`: the spaces that pad a label to `width`, none when the label is longer. */
  function Padding(text: string, width: nat): string
  {
    if |text| <= width then Repeat(" ", width - |text|) else ""
  }

  /** The length of the longest common prefix of `a` and `b`. */
  function CommonPrefix(a: seq<string>, b: seq<string>): (k: nat)
    ensures k <= |a| && k <= |b|
    ensures a[..k] == b[..k]
    ensures k < |a| && k < |b| ==> a[k] != b[k]
  {
    if |a| == 0 || |b| == 0 || a[0] != b[0] then 0
    else
      var k' := CommonPrefix(a[1..], b[1..]);
      assert a[..k' + 1] == [a[0]] + a[1..][..k'];
      assert b[..k' + 1] == [b[0]] + b[1..][..k'];
      k' + 1
  }

  /**
   * What segment `j` of `path` prints: its text, then a line break, or, for the last
   * segment, the spaces that pad the text to `width`.
   */
  function SegmentOut(path: seq<string>, j: nat, width: nat): seq<string>
    requires j < |path|
  {
    var text := Label(path[j], j, width);
    if j < |path| - 1 then [text, "\n"] else [text, Padding(text, width)]
  }

  /** What segments `lo` up to (not including) `hi` of `path` print. */
  function Lines(path: seq<string>, lo: nat, hi: nat, width: nat): seq<string>
    requires lo <= hi <= |path|
    decreases hi
  {
    if hi == lo then [] else Lines(path, lo, hi - 1, width) + SegmentOut(path, hi - 1, width)
  }

  /**
   * `printSpecLabel(path)`: when `path` is a prefix of the cursor nothing is printed and
   * the cursor stays; otherwise the segments from the first difference on are printed
   * and the cursor becomes `path`.
   */
  function LabelOn(sc: Screen, path: seq<string>, width: nat): Screen
  {
    var k := CommonPrefix(sc.cur, path);
    if k == |path| then sc else Screen(sc.out + Lines(path, k, |path|, width), path)
  }

  /**
   * The printed segments, two strings each: segment `j` is its text at depth `j`,
   * followed by a line break unless it is the last segment, which is followed by padding.
   */
  lemma {:induction false} LinesAt(path: seq<string>, lo: nat, hi: nat, width: nat, j: nat)
    requires lo <= j < hi <= |path|
    ensures |Lines(path, lo, hi, width)| == 2 * (hi - lo)
    ensures Lines(path, lo, hi, width)[2 * (j - lo)] == Label(path[j], j, width)
    ensures Lines(path, lo, hi, width)[2 * (j - lo) + 1] ==
      if j < |path| - 1 then "\n" else Padding(Label(path[j], j, width), width)
  {
    var pre := Lines(path, lo, hi - 1, width);
    var last := SegmentOut(path, hi - 1, width);
    assert Lines(path, lo, hi, width) == pre + last;
    LinesLength(path, lo, hi - 1, width);
    if j < hi - 1 {
      LinesAt(path, lo, hi - 1, width, j);
      assert (pre + last)[2 * (j - lo)] == pre[2 * (j - lo)];
      assert (pre + last)[2 * (j - lo) + 1] == pre[2 * (j - lo) + 1];
    } else {
      var text := Label(path[j], j, width);
      assert last == if j < |path| - 1 then [text, "\n"] else [text, Padding(text, width)];
      assert (pre + last)[2 * (j - lo)] == last[0];
      assert (pre + last)[2 * (j - lo) + 1] == last[1];
    }
  }

  lemma {:induction false} LinesLength(path: seq<string>, lo: nat, hi: nat, width: nat)
    requires lo <= hi <= |path|
    ensures |Lines(path, lo, hi, width)| == 2 * (hi - lo)
  {
    if hi > lo {
      LinesLength(path, lo, hi - 1, width);
    }
  }

  /**
   * From a width of 3 on, the last segment's text and its padding together are exactly
   * `width` characters, so the glyph columns line up; the padding is all spaces.
   */
  lemma LastSegmentWidth(path: seq<string>, width: nat)
    requires |path| > 0
    ensures var out := SegmentOut(path, |path| - 1, width);
      && (width >= 3 ==> |out[0]| + |out[1]| == width)
      && forall i | 0 <= i < |out[1]| :: out[1][i] == ' '
  {
    var text := Label(path[|path| - 1], |path| - 1, width);
    LabelShape(path[|path| - 1], |path| - 1, width);
    if |text| <= width {
      RepeatLength(" ", width - |text|);
      RepeatUniform(" ", width - |text|, ' ');
    }
  }

  /**
   * The path diff: with `k` the first index where `path` leaves the cursor, printing
   * writes segments `k..` of `path`, in order, and leaves the cursor at `path`; when
   * `path` is a prefix of the cursor, nothing is written and the cursor is unchanged.
   */
  lemma PathDiff(sc: Screen, path: seq<string>, width: nat)
    ensures var k, r := CommonPrefix(sc.cur, path), LabelOn(sc, path, width);
      && (k == |path| <==> |path| <= |sc.cur| && path == sc.cur[..|path|])
      && (k == |path| ==> r == sc)
      && (k < |path| ==>
            && r.cur == path
            && |r.out| == |sc.out| + 2 * (|path| - k)
            && r.out[..|sc.out|] == sc.out
            && forall j | k <= j < |path| :: r.out[|sc.out| + 2 * (j - k)] == Label(path[j], j, width))
  {
    var k := CommonPrefix(sc.cur, path);
    if k < |path| {
      var r := LabelOn(sc, path, width);
      LinesLength(path, k, |path|, width);
      forall j | k <= j < |path| ensures r.out[|sc.out| + 2 * (j - k)] == Label(path[j], j, width) {
        LinesAt(path, k, |path|, width, j);
      }
    }
  }

  /** Printing the same path twice in a row prints nothing the second time. */
  lemma LabelOnIdempotent(sc: Screen, path: seq<string>, width: nat)
    ensures LabelOn(LabelOn(sc, path, width), path, width) == LabelOn(sc, path, width)
  {
  }

  /** Moving from `A > B > x` to `A > C > y` prints only `C` (depth 1) and `y` (depth 2). */
  lemma Divergence(out: seq<string>)
    ensures LabelOn(Screen(out, ["A", "B", "x"]), ["A", "C", "y"], 75) ==
      Screen(out + ["    C", "\n", "      y", Repeat(" ", 68)], ["A", "C", "y"])
  {
    var path := ["A", "C", "y"];
    assert CommonPrefix(["A", "B", "x"], path) == 1;
    assert Repeat("  ", 2) == "    " && Repeat("  ", 3) == "      ";
    assert Label("C", 1, 75) == "    C" && Label("y", 2, 75) == "      y";
    assert SegmentOut(path, 1, 75) == ["    C", "\n"];
    assert Padding("      y", 75) == Repeat(" ", 68);
    assert SegmentOut(path, 2, 75) == ["      y", Repeat(" ", 68)];
    assert Lines(path, 1, 3, 75) == Lines(path, 1, 2, 75) + SegmentOut(path, 2, 75);
  }
}
