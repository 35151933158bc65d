/**
 * What each printer of the reporter writes, as functions of the state it reads:
 * the summaries, the per-group lines and detail rows, and the failure appendix.
 * Colouring (chalk) is the identity here.
 */
module ReportText {
  import opened Wrappers
  import opened OrderedMap
  import opened Text
  import opened KarmaTypes
  import opened Classify
  import opened PathRender

  /* ----- Overviews ----- */

  /** The parenthetical of failed and skipped counts printed after "Executed X of Y". */
  function CountsNote(failed: nat, skipped: nat): string
  {
    if failed != 0 || skipped != 0 then
      " ("
      + (if failed != 0 then NatToString(failed) + " Failed" else "")
      + (if failed != 0 && skipped != 0 then ", " else "")
      + (if skipped != 0 then NatToString(skipped) + " Skipped" else "")
      + ") "
    else ""
  }

  /** The timing parenthetical, printed once the browser is ready. */
  function TimingNote(b: Browser, fmtTime: int -> string): string
  {
    if b.isReady then " (" + fmtTime(b.lastResult.totalTime) + ", " + fmtTime(b.lastResult.netTime) + ") " else ""
  }

  /** `printBrowser(browser)`. */
  function BrowserText(b: Browser, fmtTime: int -> string): string
  {
    var res := b.lastResult;
    b.name + ": Executed " + NatToString(res.success + res.failed) + " of " + NatToString(res.total)
    + CountsNote(res.failed, res.skipped) + TimingNote(b, fmtTime)
  }

  /**
   * The parenthetical appears exactly when something failed or was skipped; the
   * separator ", " only when both did.
   */
  lemma CountsNoteCases(failed: nat, skipped: nat)
    ensures CountsNote(failed, skipped) == "" <==> failed == 0 && skipped == 0
    ensures failed != 0 && skipped != 0 ==>
      CountsNote(failed, skipped) == " (" + NatToString(failed) + " Failed" + ", " + NatToString(skipped) + " Skipped" + ") "
    ensures failed != 0 && skipped == 0 ==>
      CountsNote(failed, skipped) == " (" + NatToString(failed) + " Failed" + ") "
    ensures failed == 0 && skipped != 0 ==>
      CountsNote(failed, skipped) == " (" + NatToString(skipped) + " Skipped" + ") "
  {
    var f, sep, sk := (if failed != 0 then NatToString(failed) + " Failed" else ""),
                      (if failed != 0 && skipped != 0 then ", " else ""),
                      (if skipped != 0 then NatToString(skipped) + " Skipped" else "");
    if failed != 0 || skipped != 0 {
      assert CountsNote(failed, skipped) == " (" + f + sep + sk + ") ";
      assert |CountsNote(failed, skipped)| >= 2;
      if skipped == 0 {
        assert sep == "" && sk == "";
        assert f + sep + sk == f;
      } else if failed == 0 {
        assert f == "" && sep == "";
        assert f + sep + sk == sk;
      }
    }
  }

  /**
   * The browser line starts with "Executed X of Y", where X reads back as the number of
   * specs that succeeded or failed and Y as the total.
   */
  lemma BrowserLine(b: Browser, fmtTime: int -> string)
    ensures var res, t := b.lastResult, BrowserText(b, fmtTime);
      var x, y := NatToString(res.success + res.failed), NatToString(res.total);
      var head := b.name + ": Executed " + x + " of " + y;
      && t[..|head|] == head
      && ParseNat(x) == res.success + res.failed && ParseNat(y) == res.total
  {
    var res := b.lastResult;
    var head := b.name + ": Executed " + NatToString(res.success + res.failed) + " of " + NatToString(res.total);
    var rest := CountsNote(res.failed, res.skipped) + TimingNote(b, fmtTime);
    assert BrowserText(b, fmtTime) == head + rest;
    assert (head + rest)[..|head|] == head;
    NatToStringRoundTrip(res.success + res.failed);
    NatToStringRoundTrip(res.total);
  }

  /** `printBrowsersOverview`: line `i` for the first `n` browsers. */
  function OverviewText(browsers: seq<Browser>, fmtTime: int -> string, n: nat): (r: seq<string>)
    requires n <= |browsers|
    ensures |r| == 2 * n
  {
    if n == 0 then []
    else
      OverviewText(browsers, fmtTime, n - 1) + [OverviewLine(browsers[n - 1], fmtTime, n - 1), "\n"]
  }

  /** The overview line of browser number `i`. */
  function OverviewLine(b: Browser, fmtTime: int -> string, i: nat): string
  {
    " " + NatToString(i) + ": " + BrowserText(b, fmtTime)
  }

  /** Line `i` of the overview is browser `i`'s number and line, followed by a line break. */
  lemma {:induction false} OverviewAt(browsers: seq<Browser>, fmtTime: int -> string, n: nat, i: nat)
    requires i < n <= |browsers|
    ensures OverviewText(browsers, fmtTime, n)[2 * i] == OverviewLine(browsers[i], fmtTime, i)
    ensures OverviewText(browsers, fmtTime, n)[2 * i + 1] == "\n"
  {
    var pre := OverviewText(browsers, fmtTime, n - 1);
    PairAt(pre, n - 1, OverviewLine(browsers[n - 1], fmtTime, n - 1), "\n", i);
    if i < n - 1 {
      OverviewAt(browsers, fmtTime, n - 1, i);
    }
  }

  /** The count lines are printed when at least one browser ran and the run was neither disconnected nor errored. */
  predicate ShowsCounts(nBrowsers: nat, results: RunResults)
  {
    nBrowsers >= 1 && !results.disconnected && !results.error
  }

  /** One count line of the summary: glyph, count and caption, then the average per browser. */
  function CountLine(glyph: string, count: nat, caption: string, nBrowsers: nat, perBrowser: (nat, nat) -> string): seq<string>
  {
    [glyph + NatToString(count) + caption, "(" + perBrowser(count, nBrowsers) + " per Browser)", "\n"]
  }

  /**
   * `printOverallTestSummary`: the title, then, when the counts are shown, the succeeded,
   * skipped and failed lines (the last two always: arrays are truthy) and the
   * browser-summary title.
   */
  function SummaryText(nSucc: nat, nSkip: nat, nFail: nat, nBrowsers: nat, results: RunResults,
                       perBrowser: (nat, nat) -> string): seq<string>
  {
    if ShowsCounts(nBrowsers, results) then
      ["\n", "TEST SUMMARY:", "\n"]
      + CountLine(" ✓ ", nSucc, " TESTS SUCCEEDED ", nBrowsers, perBrowser)
      + CountLine(" - ", nSkip, " TESTS SKIPPED ", nBrowsers, perBrowser)
      + CountLine(" ✗ ", nFail, " TESTS FAILED ", nBrowsers, perBrowser)
      + ["\n", "BROWSER SUMMARY:", "\n"]
    else ["\n", "TEST SUMMARY:", "\n"]
  }

  /** The skipped and failed lines print even when those counts are zero; nothing but the title prints otherwise. */
  lemma SummaryLines(nSucc: nat, nSkip: nat, nFail: nat, nBrowsers: nat, results: RunResults, perBrowser: (nat, nat) -> string)
    ensures var s := SummaryText(nSucc, nSkip, nFail, nBrowsers, results, perBrowser);
      if nBrowsers >= 1 && !results.disconnected && !results.error then
        && |s| == 15
        && s[3] == " ✓ " + NatToString(nSucc) + " TESTS SUCCEEDED "
        && s[6] == " - " + NatToString(nSkip) + " TESTS SKIPPED "
        && s[9] == " ✗ " + NatToString(nFail) + " TESTS FAILED "
      else s == ["\n", "TEST SUMMARY:", "\n"]
  {
  }

  /* ----- Group lines ----- */

  /** The `n` browser column markers of the table header. */
  function Columns(n: nat): (r: seq<string>)
    ensures |r| == n
  {
    if n == 0 then [] else Columns(n - 1) + [" " + NatToString(n - 1) + " "]
  }

  /** `printTableHeader`: blank space as wide as a label, then one column marker per browser. */
  function HeaderText(n: nat, width: nat): seq<string>
  {
    [Repeat(" ", width), " "] + Columns(n) + ["\n"]
  }

  /**
   * The header starts with exactly `width` spaces, so the columns line up with the glyphs
   * after a padded label, and then names browser `i` by its index, in browser order.
   */
  lemma {:induction false} HeaderShape(n: nat, width: nat)
    ensures var h := HeaderText(n, width);
      && |h| == n + 3 && |h[0]| == width && h[1] == " " && h[n + 2] == "\n"
      && (forall c | 0 <= c < |h[0]| :: h[0][c] == ' ')
      && forall i | 0 <= i < n :: h[i + 2] == " " + NatToString(i) + " "
  {
    RepeatLength(" ", width);
    RepeatUniform(" ", width, ' ');
    ColumnsAt(n);
  }

  lemma {:induction false} ColumnsAt(n: nat)
    ensures forall i | 0 <= i < n :: Columns(n)[i] == " " + NatToString(i) + " "
  {
    if n > 0 {
      ColumnsAt(n - 1);
      var c, p := Columns(n), Columns(n - 1);
      assert c == p + [" " + NatToString(n - 1) + " "];
      forall i | 0 <= i < n - 1 ensures c[i] == p[i] {
      }
    }
  }

  /** `printTestSuccess`: the group label and its pass count on one line. */
  function SuccessOn(sc: Screen, group: string, t: Totals, width: nat): Screen
  {
    Append(LabelOn(sc, [group], width), [" ", " ✓  ", NatToString(t.successes), " Passed ", "  ", "\n"])
  }

  /** A glyph followed by a count. */
  function Count(glyph: string, n: nat): seq<string>
  {
    [glyph, NatToString(n)]
  }

  /** `printTestPartials`: the group label and its pass, skip and fail counts. */
  function PartialsOn(sc: Screen, group: string, t: Totals, width: nat): Screen
  {
    Append(LabelOn(sc, [group], width),
      [" [ "] + Count("✓ ", t.successes) + [" | "] + Count("- ", t.skips) + [" | "]
      + Count("✗ ", t.errors) + [" ] ", "\n"])
  }

  /* ----- Detail rows ----- */

  /** The glyph of one browser's result. */
  function Glyph(r: Result): string
  {
    if IsSkip(r) then " - " else if !r.success then " ✗ " else " ✓ "
  }

  /** The glyphs of the first `n` results, each followed by two spaces. */
  function GlyphRow(rs: seq<Result>, n: nat): (row: seq<string>)
    requires n <= |rs|
    ensures |row| == 2 * n
  {
    if n == 0 then [] else GlyphRow(rs, n - 1) + [Glyph(rs[n - 1]), "  "]
  }

  /** One glyph per browser, in browser order. */
  lemma {:induction false} GlyphRowAt(rs: seq<Result>, n: nat)
    requires n <= |rs|
    ensures var row := GlyphRow(rs, n);
      forall i | 0 <= i < n :: row[2 * i] == Glyph(rs[i]) && row[2 * i + 1] == "  "
  {
    if n > 0 {
      GlyphRowAt(rs, n - 1);
    }
  }

  /** The first result object of a spec: `specResults[Object.keys(specResults)[0]]`. */
  function First(e: SpecEntry): Ref
    requires EntryShape(e)
  {
    e.results.m[FirstKey(e.results)]
  }

  /** The position of the array-index key of smallest numeric value among `keys`, if there is one. */
  function MinIndexKey(keys: seq<string>): (r: Option<nat>)
    ensures r.Some? ==> r.value < |keys|
  {
    if |keys| == 0 then None
    else
      var r, k := MinIndexKey(keys[..|keys| - 1]), keys[|keys| - 1];
      if !IsIndexKey(k) then r
      else if r.None? || ParseNat(k) < ParseNat(keys[r.value]) then Some(|keys| - 1)
      else r
  }

  /**
   * `Object.keys(results)[0]`: the array-index browser id of smallest value when there is
   * one, and otherwise the browser id inserted first.
   */
  function FirstKey(results: OMap<string, Ref>): string
    requires |results.keys| > 0
  {
    match MinIndexKey(results.keys)
    case Some(i) => results.keys[i]
    case None => results.keys[0]
  }

  /** `MinIndexKey` finds an array-index key exactly when there is one, and the smallest. */
  lemma {:induction false} MinIndexKeyOrder(keys: seq<string>)
    ensures var r := MinIndexKey(keys);
      && (r.None? <==> forall i | 0 <= i < |keys| :: !IsIndexKey(keys[i]))
      && (r.Some? ==> IsIndexKey(keys[r.value]))
      && (r.Some? ==> forall i | 0 <= i < |keys| && IsIndexKey(keys[i]) :: ParseNat(keys[r.value]) <= ParseNat(keys[i]))
  {
    if |keys| > 0 {
      var pre := keys[..|keys| - 1];
      MinIndexKeyOrder(pre);
      forall i | 0 <= i < |pre| ensures pre[i] == keys[i] {}
    }
  }

  /**
   * The first result of a spec is that of the browser whose id `Object.keys` lists first:
   * the smallest array-index id if any id is one, else the id inserted first.
   */
  lemma FirstKeyOrder(results: OMap<string, Ref>)
    requires |results.keys| > 0
    ensures var k, keys := FirstKey(results), results.keys;
      && k in keys
      && ((exists i | 0 <= i < |keys| :: IsIndexKey(keys[i])) ==>
            && IsIndexKey(k)
            && forall i | 0 <= i < |keys| && IsIndexKey(keys[i]) :: ParseNat(k) <= ParseNat(keys[i]))
      && ((forall i | 0 <= i < |keys| :: !IsIndexKey(keys[i])) ==> k == keys[0])
  {
    MinIndexKeyOrder(results.keys);
  }

  /** The browser ids "1" and "2" are array indices of values 1 and 2. */
  lemma SmallIndexKeys()
    ensures IsIndexKey("1") && ParseNat("1") == 1
    ensures IsIndexKey("2") && ParseNat("2") == 2
  {
    assert "1"[..0] == "" && "2"[..0] == "";
    assert DigitValue('1') == 1 && DigitValue('2') == 2;
  }

  /** Browser "1" comes first even when browser "2" reported first. */
  lemma IndexKeysFirst()
    ensures FirstKey(Empty<string, Ref>().Put("2", 0).Put("1", 1)) == "1"
  {
    var keys: seq<string> := ["2", "1"];
    assert Empty<string, Ref>().Put("2", 0).Put("1", 1).keys == keys;
    SmallIndexKeys();
    assert keys[..1] == ["2"] && ["2"][..0] == [];
    assert MinIndexKey(["2"]) == Some(0);
    assert MinIndexKey(keys) == Some(1);
  }

  /** `suite.push(description)` on a result object (a missing suite first becomes `[]`). */
  function Extend(r: Result): Result
  {
    r.(suite := Some(SuitePath(r) + [r.description]))
  }

  /**
   * `printTestDetails` for one spec: extend the first result's suite by its description,
   * then, unless the spec passed, print that suite as a path and one glyph per browser.
   */
  function DetailOn(objs: seq<Result>, sc: Screen, e: SpecEntry, browsers: seq<Browser>, width: nat): (r: (seq<Result>, Screen))
    requires EntryOk(e, |objs|) && EntryCovers(e, browsers)
    ensures |r.0| == |objs|
    ensures r.0 == objs[First(e) := Extend(objs[First(e)])]
  {
    var f := First(e);
    var o := objs[f := Extend(objs[f])];
    EntryResolves(e, o, browsers);
    var rs := Outcomes(o, e.results, browsers);
    if SpecVerdict(rs) == Passed then (o, sc)
    else (o, Append(LabelOn(sc, SuitePath(o[f]), width), [" "] + GlyphRow(rs, |rs|) + ["\n"]))
  }

  /** `printTestDetails` over the first `n` specs of a group. */
  function DetailsOn(objs: seq<Result>, sc: Screen, specs: OMap<string, SpecEntry>, browsers: seq<Browser>, width: nat, n: nat)
    : (r: (seq<Result>, Screen))
    requires SpecsOk(specs, |objs|) && SpecsCover(specs, browsers) && n <= |specs.keys|
    ensures |r.0| == |objs|
  {
    if n == 0 then (objs, sc)
    else
      var p := DetailsOn(objs, sc, specs, browsers, width, n - 1);
      assert SpecsOk(specs, |p.0|);
      DetailOn(p.0, p.1, specs.m[specs.keys[n - 1]], browsers, width)
  }

  /** The spec loop of `printTestDetails` takes one more step on spec `n`. */
  lemma DetailsOnStep(objs: seq<Result>, sc: Screen, specs: OMap<string, SpecEntry>, browsers: seq<Browser>, width: nat, n: nat)
    requires SpecsOk(specs, |objs|) && SpecsCover(specs, browsers) && n < |specs.keys|
    ensures var p, e := DetailsOn(objs, sc, specs, browsers, width, n), specs.m[specs.keys[n]];
      && EntryOk(e, |p.0|) && EntryCovers(e, browsers)
      && DetailsOn(objs, sc, specs, browsers, width, n + 1) == DetailOn(p.0, p.1, e, browsers, width)
  {
    EntryAt(specs, n, |objs|, browsers);
  }

  /**
   * A detail row is printed exactly for a spec that did not pass: the suite path (now
   * ending in the description), a space, one glyph per browser in browser order, a line break.
   * The first result's suite is extended either way.
   */
  lemma DetailRow(objs: seq<Result>, sc: Screen, e: SpecEntry, browsers: seq<Browser>, width: nat)
    requires EntryOk(e, |objs|) && EntryCovers(e, browsers)
    ensures var r, f := DetailOn(objs, sc, e, browsers, width), First(e);
      && Resolves(r.0, e.results, browsers)
      && r.0[f].suite == Some(SuitePath(objs[f]) + [objs[f].description])
      && var rs := Outcomes(r.0, e.results, browsers);
      && (SpecVerdict(rs) == Passed ==> r.1 == sc)
      && (SpecVerdict(rs) != Passed ==>
            var sc' := LabelOn(sc, SuitePath(objs[f]) + [objs[f].description], width);
            var row := GlyphRow(rs, |rs|);
            && r.1.cur == sc'.cur
            && r.1.out == sc'.out + ([" "] + row + ["\n"])
            && |row| == 2 * |browsers|
            && forall i | 0 <= i < |browsers| :: row[2 * i] == Glyph(r.0[e.results.m[browsers[i].id]]))
  {
    var f := First(e);
    var o := objs[f := Extend(objs[f])];
    assert DetailOn(objs, sc, e, browsers, width).0 == o;
    assert SuitePath(o[f]) == SuitePath(objs[f]) + [objs[f].description];
    EntryResolves(e, o, browsers);
    var rs := Outcomes(o, e.results, browsers);
    if SpecVerdict(rs) != Passed {
      var row := GlyphRow(rs, |rs|);
      assert DetailOn(objs, sc, e, browsers, width).1 == Append(LabelOn(sc, SuitePath(o[f]), width), [" "] + row + ["\n"]);
      GlyphRowAt(rs, |rs|);
      forall i | 0 <= i < |browsers| ensures row[2 * i] == Glyph(o[e.results.m[browsers[i].id]]) {
        assert rs[i] == o[e.results.m[browsers[i].id]];
      }
    }
  }

  /** Browser `i`'s column of a spec's row shows the glyph of that browser's result. */
  lemma GlyphAt(rs: seq<Result>, i: nat)
    requires i < |rs|
    ensures |GlyphRow(rs, |rs|)| == 2 * |rs| && GlyphRow(rs, |rs|)[2 * i] == Glyph(rs[i])
  {
    GlyphRowAt(rs, |rs|);
  }

  /** A skipped spec shows a skip glyph for some browser. */
  lemma SkippedShowsSkipGlyph(rs: seq<Result>)
    requires SpecVerdict(rs) == Skipped
    ensures exists i | 0 <= i < |rs| :: GlyphRow(rs, |rs|)[2 * i] == " - "
  {
    var i :| 0 <= i < |rs| && IsSkip(rs[i]);
    GlyphAt(rs, i);
  }

  /** An errored spec shows a failure glyph and no skip glyph. */
  lemma ErroredShowsFailureGlyph(rs: seq<Result>)
    requires SpecVerdict(rs) == Errored
    ensures exists i | 0 <= i < |rs| :: GlyphRow(rs, |rs|)[2 * i] == " ✗ "
    ensures forall i | 0 <= i < |rs| :: GlyphRow(rs, |rs|)[2 * i] != " - "
  {
    var i :| 0 <= i < |rs| && IsError(rs[i]);
    GlyphAt(rs, i);
    forall j | 0 <= j < |rs| ensures GlyphRow(rs, |rs|)[2 * j] != " - " {
      assert !IsSkip(rs[j]);
      GlyphAt(rs, j);
    }
  }

  /** A passed spec shows a pass glyph in every column. */
  lemma PassedShowsPassGlyphs(rs: seq<Result>)
    requires SpecVerdict(rs) == Passed
    ensures forall i | 0 <= i < |rs| :: GlyphRow(rs, |rs|)[2 * i] == " ✓ "
  {
    forall j | 0 <= j < |rs| ensures GlyphRow(rs, |rs|)[2 * j] == " ✓ " {
      assert !IsSkip(rs[j]) && !IsError(rs[j]);
      GlyphAt(rs, j);
    }
  }

  /* ----- Groups ----- */

  /** The state one group's rendering reads and writes. */
  datatype Render = Render(objects: seq<Result>, groups: Table, screen: Screen)

  ghost predicate RenderOk(w: Render, browsers: seq<Browser>)
  {
    TableOk(w.groups, |w.objects|) && TableCovers(w.groups, browsers)
  }

  /** The counts of a group after classifying its specs, starting from the group's current totals. */
  function GroupTally(w: Render, name: string, browsers: seq<Browser>): Totals
    requires RenderOk(w, browsers) && name in w.groups.m
  {
    var g := w.groups.m[name];
    Tally(g.totals, Verdicts(w.objects, g.specs, browsers), |g.specs.keys|)
  }

  /**
   * One iteration of the group loop of `onRunComplete`: classify the group's specs into
   * its totals, then print the compact success line, or the header, the partials line
   * and the detail rows.
   */
  function GroupOn(w: Render, name: string, browsers: seq<Browser>, width: nat): (r: Render)
    requires RenderOk(w, browsers) && name in w.groups.m
    ensures |r.objects| == |w.objects|
  {
    var g := w.groups.m[name];
    var t := GroupTally(w, name, browsers);
    var groups' := w.groups.Put(name, g.(totals := t));
    if t.errors == 0 && t.skips == 0 then Render(w.objects, groups', SuccessOn(w.screen, name, t, width))
    else Detailed(w.objects, groups', w.screen, name, g.specs, t, browsers, width)
  }

  /** A group with errors or skips: a line break, the table header, the partials line, the detail rows, a line break. */
  function Detailed(objs: seq<Result>, groups: Table, sc: Screen, name: string, specs: OMap<string, SpecEntry>,
                    t: Totals, browsers: seq<Browser>, width: nat): (r: Render)
    requires SpecsOk(specs, |objs|) && SpecsCover(specs, browsers)
    ensures r.groups == groups && |r.objects| == |objs|
  {
    var sc' := PartialsOn(Append(sc, ["\n"] + HeaderText(|browsers|, width)), name, t, width);
    var d := DetailsOn(objs, sc', specs, browsers, width, |specs.keys|);
    Render(d.0, groups, Append(d.1, ["\n"]))
  }

  /**
   * One group's iteration stores the new totals under the same name and changes nothing
   * else in the table; the table stays well formed and keeps its order.
   */
  lemma GroupOnOk(w: Render, name: string, browsers: seq<Browser>, width: nat)
    requires RenderOk(w, browsers) && name in w.groups.m
    ensures var r := GroupOn(w, name, browsers, width);
      && RenderOk(r, browsers)
      && r.groups == w.groups.Put(name, w.groups.m[name].(totals := GroupTally(w, name, browsers)))
      && r.groups.keys == w.groups.keys && r.groups.m.Keys == w.groups.m.Keys
      && r.groups.m[name] == w.groups.m[name].(totals := GroupTally(w, name, browsers))
      && (forall k | k in w.groups.m && k != name :: r.groups.m[k] == w.groups.m[k])
  {
    var g := w.groups.m[name];
    var groups' := w.groups.Put(name, g.(totals := GroupTally(w, name, browsers)));
    assert GroupOn(w, name, browsers, width).groups == groups';
    forall k | k in groups'.m ensures SpecsOk(groups'.m[k].specs, |w.objects|) && SpecsCover(groups'.m[k].specs, browsers) {
      assert groups'.m[k].specs == w.groups.m[k].specs;
    }
  }

  /** The group loop of `onRunComplete` over the first `n` groups, in insertion order. */
  function GroupsOn(w: Render, browsers: seq<Browser>, width: nat, n: nat): (r: Render)
    requires RenderOk(w, browsers) && n <= |w.groups.keys|
    ensures RenderOk(r, browsers) && |r.objects| == |w.objects| && r.groups.keys == w.groups.keys
  {
    if n == 0 then w
    else
      var p := GroupsOn(w, browsers, width, n - 1);
      GroupOnOk(p, w.groups.keys[n - 1], browsers, width);
      GroupOn(p, w.groups.keys[n - 1], browsers, width)
  }

  /** A group whose totals start at zero and whose specs all pass gets the compact success line. */
  lemma CompactLine(w: Render, name: string, browsers: seq<Browser>, width: nat)
    requires RenderOk(w, browsers) && name in w.groups.m
    requires w.groups.m[name].totals == Totals(0, 0, 0)
    requires var g := w.groups.m[name]; var vs := Verdicts(w.objects, g.specs, browsers);
      forall i | 0 <= i < |vs| :: vs[i] == Passed
    ensures var t := GroupTally(w, name, browsers);
      && t == Totals(|w.groups.m[name].specs.keys|, 0, 0)
      && GroupOn(w, name, browsers, width).screen == SuccessOn(w.screen, name, t, width)
  {
    var g := w.groups.m[name];
    TallyAllPassedFromZero(Verdicts(w.objects, g.specs, browsers));
  }

  /**
   * A group that has a spec that did not pass gets the header, the partials line and the
   * detail rows instead.
   */
  lemma DetailedLines(w: Render, name: string, browsers: seq<Browser>, width: nat, i: nat)
    requires RenderOk(w, browsers) && name in w.groups.m
    requires var g := w.groups.m[name]; var vs := Verdicts(w.objects, g.specs, browsers);
      i < |vs| && vs[i] != Passed
    ensures var g, t := w.groups.m[name], GroupTally(w, name, browsers);
      && (t.errors > g.totals.errors || t.skips > g.totals.skips)
      && GroupOn(w, name, browsers, width).screen == Detailed(w.objects, w.groups, w.screen, name, g.specs, t, browsers, width).screen
  {
    var g := w.groups.m[name];
    var t := GroupTally(w, name, browsers);
    TallyNotAllPassed(g.totals, Verdicts(w.objects, g.specs, browsers), i);
    assert t.errors != 0 || t.skips != 0;
    var groups' := w.groups.Put(name, g.(totals := t));
    assert GroupOn(w, name, browsers, width) == Detailed(w.objects, groups', w.screen, name, g.specs, t, browsers, width);
  }

  /* ----- Failure appendix ----- */

  const Whitespace := "     "

  /** The three lines of one log entry of failure number `k`. */
  function LogEntry(k: nat, r: Result, fmtError: string -> string, j: nat): seq<string>
    requires j < |r.log|
  {
    [ NatToString(k) + "): " + r.description, "\n",
      Whitespace + Join(SuitePath(r), " "), "\n",
      Whitespace + fmtError(r.log[j]), "\n" ]
  }

  /** The first `j` log entries of failure number `k`. */
  function LogLines(k: nat, r: Result, fmtError: string -> string, j: nat): (s: seq<string>)
    requires j <= |r.log|
    ensures |s| == 6 * j
  {
    if j == 0 then [] else LogLines(k, r, fmtError, j - 1) + LogEntry(k, r, fmtError, j - 1)
  }

  /** Failure number `k`: a blank line unless it is the first, then one block per log entry. */
  function FailureBlock(k: nat, r: Result, fmtError: string -> string): seq<string>
  {
    (if k > 1 then ["\n"] else []) + LogLines(k, r, fmtError, |r.log|)
  }

  /** The blocks of the first `n` failures, numbered from 1. */
  function Blocks(objs: seq<Result>, failures: seq<Ref>, fmtError: string -> string, n: nat): seq<string>
    requires n <= |failures| && forall i | 0 <= i < |failures| :: failures[i] < |objs|
  {
    if n == 0 then [] else Blocks(objs, failures, fmtError, n - 1) + FailureBlock(n, objs[failures[n - 1]], fmtError)
  }

  /** `printErrorDetails(failures)`. */
  function AppendixText(objs: seq<Result>, failures: seq<Ref>, fmtError: string -> string): seq<string>
    requires forall i | 0 <= i < |failures| :: failures[i] < |objs|
  {
    ["\n", "FAILED TESTS:", "\n", "\n"] + Blocks(objs, failures, fmtError, |failures|) + ["\n"]
  }

  lemma {:induction false} LogLinesAt(k: nat, r: Result, fmtError: string -> string, n: nat, j: nat)
    requires j < n <= |r.log|
    ensures LogLines(k, r, fmtError, n)[6 * j..6 * j + 6] == LogEntry(k, r, fmtError, j)
  {
    var s := LogLines(k, r, fmtError, n);
    if j < n - 1 {
      LogLinesAt(k, r, fmtError, n - 1, j);
      assert s[..6 * (n - 1)] == LogLines(k, r, fmtError, n - 1);
      assert s[6 * j..6 * j + 6] == s[..6 * (n - 1)][6 * j..6 * j + 6];
    } else {
      assert s[6 * j..6 * j + 6] == s[6 * (n - 1)..];
    }
  }

  /** Every log entry of failure `k` is labelled `k`: the number does not advance per entry. */
  lemma FailureBlockShape(k: nat, r: Result, fmtError: string -> string, j: nat)
    requires k >= 1 && j < |r.log|
    ensures var b, off := FailureBlock(k, r, fmtError), if k > 1 then 1 else 0;
      && |b| == off + 6 * |r.log|
      && b[off + 6 * j..off + 6 * j + 6] == LogEntry(k, r, fmtError, j)
      && b[off + 6 * j] == NatToString(k) + "): " + r.description
  {
    var pre: seq<string> := if k > 1 then ["\n"] else [];
    var lines := LogLines(k, r, fmtError, |r.log|);
    LogLinesAt(k, r, fmtError, |r.log|, j);
    SliceAfter(pre, lines, 6 * j, 6 * j + 6);
  }

  /** A blank line precedes failure `k` exactly when `k > 1`. */
  lemma BlankLineBefore(k: nat, r: Result, fmtError: string -> string)
    requires k >= 1
    ensures var b := FailureBlock(k, r, fmtError);
      k > 1 <==> |b| > 0 && b[0] == "\n"
  {
    var b := FailureBlock(k, r, fmtError);
    if k == 1 && |b| > 0 {
      FailureBlockShape(k, r, fmtError, 0);
      assert b[0] == NatToString(1) + "): " + r.description;
      assert b[0][0] == '1';
    }
  }
}
