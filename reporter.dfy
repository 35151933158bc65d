/**
 * The karma-chameleon reporter object (index.js): it folds the runner's spec events into
 * its lists and its `specGroups` table, and on run completion prints the summaries, one
 * line or block per group and the failure appendix. `writeCommonMsg` appends to `out`.
 */
module Reporter {
  import opened Wrappers
  import opened OrderedMap
  import opened Text
  import opened KarmaTypes
  import opened Aggregation
  import opened Classify
  import opened PathRender
  import opened ReportText

  /** The reporter's invariant: the three lists and the table refer only to objects of a store of `size` objects. */
  ghost predicate StateOk(size: nat, failures: seq<Ref>, successes: seq<Ref>, skipped: seq<Ref>, groups: Option<Table>)
  {
    && RefsIn(failures, size) && RefsIn(successes, size) && RefsIn(skipped, size)
    && (groups.Some? ==> TableOk(groups.value, size))
  }

  class ChameleonReporter {
    /** The maximum label width, `config.karmaReporter.specLength || 75`. */
    const specLength: nat
    /** The result objects the runner handed over; lists and table refer to them by index. */
    var objects: seq<Result>
    var failures: seq<Ref>
    var successes: seq<Ref>
    var skipped: seq<Ref>
    /** `null` until the first result of the run is seen. */
    var specGroups: Option<Table>
    /** The previously printed suite path. */
    var currentPath: seq<string>
    /** Everything written with `writeCommonMsg`, one string per call. */
    var out: seq<string>

    ghost predicate Valid()
      reads this
    {
      StateOk(|objects|, failures, successes, skipped, specGroups)
    }

    /** A configured width of 0 stands for "not configured". */
    constructor (configuredLength: nat)
      ensures Valid()
      ensures specLength == if configuredLength == 0 then 75 else configuredLength
      ensures objects == [] && failures == [] && successes == [] && skipped == []
      ensures specGroups == None && currentPath == [] && out == []
    {
      specLength := if configuredLength == 0 then 75 else configuredLength;
      objects, failures, successes, skipped := [], [], [], [];
      specGroups := None;
      currentPath := [];
      out := [];
    }

    /** `writeCommonMsg(s)`. */
    method Write(s: string)
      modifies this`out
      ensures out == old(out) + [s]
    {
      out := out + [s];
    }

    /** `printLineBreak()`. */
    method PrintLineBreak()
      modifies this`out
      ensures out == old(out) + ["\n"]
    {
      Write("\n");
    }

    /* ----- Karma events ----- */

    /** `onRunStart()`: resets the cursor and the table; the three lists are kept. */
    method OnRunStart()
      requires Valid()
      modifies this`specGroups, this`currentPath
      ensures Valid()
      ensures specGroups == None && currentPath == []
    {
      currentPath := [];
      specGroups := None;
    }

    /**
     * `specSuccess`, `specFailure` and `specSkipped` (one shared function): a result without
     * a suite is dropped; otherwise it goes to exactly one list and is filed in the table.
     */
    method SpecEvent(browser: Browser, result: Result)
      requires Valid()
      modifies this`objects, this`failures, this`successes, this`skipped, this`specGroups
      ensures Valid()
      ensures result.suite.None? ==>
        && objects == old(objects) && failures == old(failures) && successes == old(successes)
        && skipped == old(skipped) && specGroups == old(specGroups)
      ensures result.suite.Some? ==>
        var ref := |old(objects)|;
        var routedSkip := result.skipped || result.pending;
        && objects == old(objects) + [result]
        && skipped == old(skipped) + (if routedSkip then [ref] else [])
        && successes == old(successes) + (if !routedSkip && result.success then [ref] else [])
        && failures == old(failures) + (if !routedSkip && !result.success then [ref] else [])
        && specGroups == Some(Record(if old(specGroups).Some? then old(specGroups).value else Empty(), browser.id, result, ref))
    {
      if result.suite.None? {
        return;
      }
      var ref := |objects|;
      objects := objects + [result];
      Route(result, ref);
      File(browser.id, result, ref);
    }

    /** `results.skipped || results.pending`, then `success`, decide the one list the new result joins. */
    method Route(result: Result, ref: Ref)
      requires ref < |objects|
      requires RefsIn(failures, |objects|) && RefsIn(successes, |objects|) && RefsIn(skipped, |objects|)
      modifies this`failures, this`successes, this`skipped
      ensures RefsIn(failures, |objects|) && RefsIn(successes, |objects|) && RefsIn(skipped, |objects|)
      ensures var routedSkip := result.skipped || result.pending;
        && skipped == old(skipped) + (if routedSkip then [ref] else [])
        && successes == old(successes) + (if !routedSkip && result.success then [ref] else [])
        && failures == old(failures) + (if !routedSkip && !result.success then [ref] else [])
    {
      RefsInPush(skipped, |objects|, ref, |objects|);
      RefsInPush(successes, |objects|, ref, |objects|);
      RefsInPush(failures, |objects|, ref, |objects|);
      if result.skipped || result.pending {
        skipped := skipped + [ref];
      } else if result.success {
        successes := successes + [ref];
      } else {
        failures := failures + [ref];
      }
    }

    /** Files result object `ref` in the table, creating the table (`specGroups = {}`) on the first result. */
    method File(browserId: string, result: Result, ref: Ref)
      requires result.suite.Some? && ref < |objects|
      requires specGroups.Some? ==> TableOk(specGroups.value, |objects| - 1)
      modifies this`specGroups
      ensures specGroups.Some? && TableOk(specGroups.value, |objects|)
      ensures specGroups == Some(Record(if old(specGroups).Some? then old(specGroups).value else Empty(), browserId, result, ref))
    {
      if specGroups.None? {
        specGroups := Some(Empty());
      } else {
        TableOkGrows(specGroups.value, |objects| - 1, |objects|);
      }
      RecordKeepsTableOk(specGroups.value, |objects|, browserId, result, ref);
      specGroups := Some(Record(specGroups.value, browserId, result, ref));
    }

    /* ----- Overviews ----- */

    /** `printBrowser(browser)`. */
    method PrintBrowser(browser: Browser, fmtTime: int -> string) returns (msg: string)
      ensures msg == BrowserText(browser, fmtTime)
    {
      var res := browser.lastResult;
      var totalExecuted := res.success + res.failed;
      msg := browser.name + ": Executed " + NatToString(totalExecuted) + " of " + NatToString(res.total);
      msg := AppendCounts(msg, res.failed, res.skipped);
      if browser.isReady {
        var timing := " (" + fmtTime(res.totalTime) + ", " + fmtTime(res.netTime) + ") ";
        msg := msg + timing;
      }
    }

    /** The `if (results.failed || results.skipped)` block of `printBrowser`: appends the parenthetical to `msg0`. */
    method AppendCounts(msg0: string, failed: nat, skipped: nat) returns (msg: string)
      ensures msg == msg0 + CountsNote(failed, skipped)
    {
      msg := msg0;
      ghost var note := "";
      if failed != 0 || skipped != 0 {
        msg, note := msg + " (", " (";
        if failed != 0 {
          AppendAssoc(msg0, note, NatToString(failed) + " Failed");
          msg, note := msg + (NatToString(failed) + " Failed"), note + (NatToString(failed) + " Failed");
        }
        if failed != 0 && skipped != 0 {
          AppendAssoc(msg0, note, ", ");
          msg, note := msg + ", ", note + ", ";
        }
        if skipped != 0 {
          AppendAssoc(msg0, note, NatToString(skipped) + " Skipped");
          msg, note := msg + (NatToString(skipped) + " Skipped"), note + (NatToString(skipped) + " Skipped");
        }
        AppendAssoc(msg0, note, ") ");
        msg, note := msg + ") ", note + ") ";
      }
      assert msg == msg0 + note;
    }

    /** `printBrowsersOverview(browsers)`: one numbered line per browser. */
    method PrintBrowsersOverview(browsers: seq<Browser>, fmtTime: int -> string)
      modifies this`out
      ensures out == old(out) + OverviewText(browsers, fmtTime, |browsers|)
    {
      var i := 0;
      while i < |browsers|
        invariant 0 <= i <= |browsers|
        invariant out == old(out) + OverviewText(browsers, fmtTime, i)
      {
        var text := PrintBrowser(browsers[i], fmtTime);
        ghost var line := [OverviewLine(browsers[i], fmtTime, i), "\n"];
        assert " " + NatToString(i) + ": " + text == line[0];
        Write(" " + NatToString(i) + ": " + text);
        PrintLineBreak();
        assert out == old(out) + OverviewText(browsers, fmtTime, i) + line;
        AppendAssoc(old(out), OverviewText(browsers, fmtTime, i), line);
        assert OverviewText(browsers, fmtTime, i + 1) == OverviewText(browsers, fmtTime, i) + line;
        i := i + 1;
      }
    }

    /** One count line of `printOverallTestSummary` (the source repeats this code three times). */
    method PrintCountLine(glyph: string, count: nat, caption: string, nBrowsers: nat, perBrowser: (nat, nat) -> string)
      modifies this`out
      ensures out == old(out) + CountLine(glyph, count, caption, nBrowsers, perBrowser)
    {
      Write(glyph + NatToString(count) + caption);
      Write("(" + perBrowser(count, nBrowsers) + " per Browser)");
      PrintLineBreak();
    }

    /** `printOverallTestSummary(browsers, results)`. */
    method PrintOverallTestSummary(browsers: seq<Browser>, results: RunResults, perBrowser: (nat, nat) -> string)
      modifies this`out
      ensures out == old(out) + SummaryText(|successes|, |skipped|, |failures|, |browsers|, results, perBrowser)
    {
      PrintLineBreak();
      Write("TEST SUMMARY:");
      PrintLineBreak();
      if ShowsCounts(|browsers|, results) {
        PrintCountLine(" ✓ ", |successes|, " TESTS SUCCEEDED ", |browsers|, perBrowser);
        // `if (this.skipped)` and `if (this.failures)` test arrays, which are always truthy
        PrintCountLine(" - ", |skipped|, " TESTS SKIPPED ", |browsers|, perBrowser);
        PrintCountLine(" ✗ ", |failures|, " TESTS FAILED ", |browsers|, perBrowser);
        PrintLineBreak();
        Write("BROWSER SUMMARY:");
        PrintLineBreak();
      }
    }

    /* ----- Individual tests ----- */

    /** The body of the segment loop of `printSpecLabel` once segment `i` differs: its label, then a break or padding. */
    method PrintSegment(path: seq<string>, i: nat, indent: string)
      requires i < |path| && indent == Repeat("  ", i + 1)
      modifies this`out
      ensures out == old(out) + SegmentOut(path, i, specLength)
    {
      var text := indent + path[i];
      if |text| > specLength {
        text := SliceTo(text, specLength - 3) + "...";
      }
      assert text == Label(path[i], i, specLength);
      Write(text);
      if i < |path| - 1 {
        PrintLineBreak();
      } else {
        var pad := Strmul(" ", specLength - |text|);
        Write(pad);
      }
    }

    /** `printSpecLabel(path)`: prints the part of `path` that differs from the previously printed path. */
    method PrintSpecLabel(path: seq<string>)
      modifies this`out, this`currentPath
      ensures Screen(out, currentPath) == LabelOn(Screen(old(out), old(currentPath)), path, specLength)
    {
      ghost var k := CommonPrefix(old(currentPath), path);
      var indent := "  ";
      var i := 0;
      while i < |path|
        invariant 0 <= i <= |path|
        invariant indent == Repeat("  ", i + 1)
        invariant i <= k ==> currentPath == old(currentPath) && out == old(out)
        invariant i > k ==> currentPath == path[..i] && out == old(out) + Lines(path, k, i, specLength)
      {
        var s := path[i];
        if i < k {
          assert old(currentPath)[..k][i] == path[..k][i];
        }
        if i < |currentPath| && s != currentPath[i] {
          currentPath := currentPath[..i];
        }
        if i >= |currentPath| {
          assert currentPath == path[..i] && out == old(out) + Lines(path, k, i, specLength);
          PrintSegment(path, i, indent);
          AppendAssoc(old(out), Lines(path, k, i, specLength), SegmentOut(path, i, specLength));
          currentPath := currentPath + [s];
          assert currentPath == path[..i + 1];
        }
        indent := indent + "  ";
        i := i + 1;
      }
    }

    /** `printTestSuccess(specGroup, specTotals)`. */
    method PrintTestSuccess(group: string, t: Totals)
      modifies this`out, this`currentPath
      ensures Screen(out, currentPath) == SuccessOn(Screen(old(out), old(currentPath)), group, t, specLength)
    {
      PrintSpecLabel([group]);
      ghost var labelled := out;
      Write(" ");
      Write(" ✓  ");
      Write(NatToString(t.successes));
      Write(" Passed ");
      Write("  ");
      PrintLineBreak();
      assert out == labelled + [" ", " ✓  ", NatToString(t.successes), " Passed ", "  ", "\n"];
    }

    /** A glyph and a count, written as two messages (the source repeats this pair three times). */
    method PrintCount(glyph: string, count: nat)
      modifies this`out
      ensures out == old(out) + Count(glyph, count)
    {
      Write(glyph);
      Write(NatToString(count));
    }

    /** `printTestPartials(specGroup, specTotals)`; the label is red on errors, yellow otherwise. */
    method PrintTestPartials(group: string, t: Totals)
      modifies this`out, this`currentPath
      ensures Screen(out, currentPath) == PartialsOn(Screen(old(out), old(currentPath)), group, t, specLength)
    {
      PrintSpecLabel([group]);
      Write(" [ ");
      PrintCount("✓ ", t.successes);
      Write(" | ");
      PrintCount("- ", t.skips);
      Write(" | ");
      PrintCount("✗ ", t.errors);
      Write(" ] ");
      PrintLineBreak();
    }

    /** `printTableHeader(browsers)`. */
    method PrintTableHeader(browsers: seq<Browser>)
      modifies this`out
      ensures out == old(out) + HeaderText(|browsers|, specLength)
    {
      var pad := Strmul(" ", specLength);
      Write(pad);
      Write(" ");
      ghost var start := out;
      var i := 0;
      while i < |browsers|
        invariant 0 <= i <= |browsers|
        invariant out == start + Columns(i)
      {
        AppendAssoc(start, Columns(i), [" " + NatToString(i) + " "]);
        Write(" " + NatToString(i) + " ");
        i := i + 1;
      }
      PrintLineBreak();
      AppendAssoc(old(out), [Repeat(" ", specLength), " "], Columns(|browsers|));
      AppendAssoc(old(out), [Repeat(" ", specLength), " "] + Columns(|browsers|), ["\n"]);
    }

    /** The browser loop shared by `calculateResults` and `printTestDetails`. */
    method ScanBrowsers(results: OMap<string, Ref>, browsers: seq<Browser>) returns (anySkips: bool, anyErrors: bool)
      requires Resolves(objects, results, browsers)
      ensures var rs := Outcomes(objects, results, browsers);
        anySkips == AnySkip(rs, |rs|) && anyErrors == AnyError(rs, |rs|)
    {
      ghost var rs := Outcomes(objects, results, browsers);
      anySkips, anyErrors := false, false;
      var i := 0;
      while i < |browsers|
        invariant 0 <= i <= |browsers|
        invariant anySkips == AnySkip(rs, i) && anyErrors == AnyError(rs, i)
      {
        ScanStep(rs, i);
        var browserResult := objects[results.m[browsers[i].id]];
        assert browserResult == rs[i];
        if browserResult.pending || browserResult.skipped {
          anySkips := true;
        } else if !browserResult.success {
          anyErrors := true;
        }
        i := i + 1;
      }
    }

    /** One iteration of the spec loop of `calculateResults`: a skip beats an error, and a pass needs neither. */
    method CountSpec(results: OMap<string, Ref>, browsers: seq<Browser>, t: Totals) returns (t': Totals)
      requires Resolves(objects, results, browsers)
      ensures t' == Bump(t, SpecVerdict(Outcomes(objects, results, browsers)))
    {
      var anySkips, anyErrors := ScanBrowsers(results, browsers);
      if anySkips {
        t' := t.(skips := t.skips + 1);
      } else if anyErrors {
        t' := t.(errors := t.errors + 1);
      } else {
        t' := t.(successes := t.successes + 1);
      }
    }

    /**
     * `calculateResults(specData, specTotals, browsers)`: bumps one counter per spec. The
     * source bumps the group's totals object in place; here the new totals are returned
     * and the caller stores them in the group.
     */
    method CalculateResults(specs: OMap<string, SpecEntry>, totals: Totals, browsers: seq<Browser>) returns (t: Totals)
      requires SpecsOk(specs, |objects|) && SpecsCover(specs, browsers)
      ensures t == Tally(totals, Verdicts(objects, specs, browsers), |specs.keys|)
    {
      ghost var vs := Verdicts(objects, specs, browsers);
      t := totals;
      var n := 0;
      while n < |specs.keys|
        invariant 0 <= n <= |specs.keys|
        invariant t == Tally(totals, vs, n)
      {
        t := CountStep(specs, browsers, t, n);
        n := n + 1;
      }
    }

    /** One iteration of the spec loop of `calculateResults`: counts spec number `n`. */
    method CountStep(specs: OMap<string, SpecEntry>, browsers: seq<Browser>, t: Totals, n: nat) returns (t': Totals)
      requires SpecsOk(specs, |objects|) && SpecsCover(specs, browsers) && n < |specs.keys|
      ensures t' == Bump(t, Verdicts(objects, specs, browsers)[n])
    {
      VerdictAt(objects, specs, browsers, n);
      t' := CountSpec(specs.m[specs.keys[n]].results, browsers, t);
    }

    /** The glyph loop of `printTestDetails`: one glyph and two spaces per browser. */
    method PrintGlyphs(results: OMap<string, Ref>, browsers: seq<Browser>)
      requires Resolves(objects, results, browsers)
      modifies this`out
      ensures out == old(out) + GlyphRow(Outcomes(objects, results, browsers), |browsers|)
    {
      ghost var rs := Outcomes(objects, results, browsers);
      var i := 0;
      while i < |browsers|
        invariant 0 <= i <= |browsers|
        invariant out == old(out) + GlyphRow(rs, i)
      {
        var browserResult := objects[results.m[browsers[i].id]];
        assert browserResult == rs[i];
        if browserResult.pending || browserResult.skipped {
          Write(" - ");
          Write("  ");
        } else if !browserResult.success {
          Write(" ✗ ");
          Write("  ");
        } else {
          Write(" ✓ ");
          Write("  ");
        }
        i := i + 1;
      }
    }

    /** One iteration of the spec loop of `printTestDetails`. */
    method PrintDetail(e: SpecEntry, browsers: seq<Browser>)
      requires EntryOk(e, |objects|) && EntryCovers(e, browsers)
      modifies this`objects, this`out, this`currentPath
      ensures |objects| == |old(objects)|
      ensures var r := DetailOn(old(objects), Screen(old(out), old(currentPath)), e, browsers, specLength);
        objects == r.0 && Screen(out, currentPath) == r.1
    {
      var first := First(e);
      ExtendSuite(first);
      EntryResolves(e, objects, browsers);
      PrintRow(e.results, browsers, objects[first].suite.value);
    }

    /** `suite.push(description)` on result object `ref`, creating the suite when it has none. */
    method ExtendSuite(ref: Ref)
      requires ref < |objects|
      modifies this`objects
      ensures objects == old(objects)[ref := Extend(old(objects)[ref])]
    {
      var r := objects[ref];
      var suite := if r.suite.Some? then r.suite.value else [];
      objects := objects[ref := r.(suite := Some(suite + [r.description]))];
    }

    /** The row of a spec that did not pass: its path, a space, one glyph per browser, a line break. */
    method PrintRow(results: OMap<string, Ref>, browsers: seq<Browser>, path: seq<string>)
      requires Resolves(objects, results, browsers)
      modifies this`out, this`currentPath
      ensures var rs := Outcomes(objects, results, browsers); var sc := Screen(old(out), old(currentPath));
        Screen(out, currentPath) ==
          if SpecVerdict(rs) == Passed then sc else Append(LabelOn(sc, path, specLength), [" "] + GlyphRow(rs, |rs|) + ["\n"])
    {
      ghost var rs := Outcomes(objects, results, browsers);
      var anySkips, anyErrors := ScanBrowsers(results, browsers);
      if anySkips || anyErrors {
        PrintSpecLabel(path);
        ghost var labelled := out;
        Write(" ");
        PrintGlyphs(results, browsers);
        PrintLineBreak();
        assert out == labelled + ([" "] + GlyphRow(rs, |rs|) + ["\n"]);
      }
    }

    /**
     * `printTestDetails(specData, browsers)`: pushes each spec's description onto its first
     * result's suite, then prints a row for every spec that did not pass.
     */
    method PrintTestDetails(specs: OMap<string, SpecEntry>, browsers: seq<Browser>)
      requires SpecsOk(specs, |objects|) && SpecsCover(specs, browsers)
      modifies this`objects, this`out, this`currentPath
      ensures |objects| == |old(objects)|
      ensures var r := DetailsOn(old(objects), Screen(old(out), old(currentPath)), specs, browsers, specLength, |specs.keys|);
        objects == r.0 && Screen(out, currentPath) == r.1
    {
      ghost var objs0, sc0 := objects, Screen(out, currentPath);
      var n := 0;
      while n < |specs.keys|
        invariant 0 <= n <= |specs.keys|
        invariant var p := DetailsOn(objs0, sc0, specs, browsers, specLength, n);
          objects == p.0 && Screen(out, currentPath) == p.1
      {
        PrintDetailStep(objs0, sc0, specs, browsers, n);
        n := n + 1;
      }
    }

    /** One iteration of the spec loop of `printTestDetails`: spec number `n`, on the state the first `n` left. */
    method PrintDetailStep(ghost objs0: seq<Result>, ghost sc0: Screen, specs: OMap<string, SpecEntry>,
                           browsers: seq<Browser>, n: nat)
      requires SpecsOk(specs, |objs0|) && SpecsCover(specs, browsers) && n < |specs.keys|
      requires var p := DetailsOn(objs0, sc0, specs, browsers, specLength, n);
        objects == p.0 && Screen(out, currentPath) == p.1
      modifies this`objects, this`out, this`currentPath
      ensures var p := DetailsOn(objs0, sc0, specs, browsers, specLength, n + 1);
        objects == p.0 && Screen(out, currentPath) == p.1
    {
      DetailsOnStep(objs0, sc0, specs, browsers, specLength, n);
      PrintDetail(specs.m[specs.keys[n]], browsers);
    }

    /* ----- Error printing ----- */

    /** One iteration of the failure loop of `printErrorDetails`: failure number `index`. */
    method PrintFailure(index: nat, failure: Result, fmtError: string -> string)
      modifies this`out
      ensures out == old(out) + FailureBlock(index, failure, fmtError)
    {
      if index > 1 {
        PrintLineBreak();
      }
      ghost var start := out;
      var j := 0;
      while j < |failure.log|
        invariant 0 <= j <= |failure.log|
        invariant out == start + LogLines(index, failure, fmtError, j)
      {
        PrintLogEntry(index, failure, fmtError, j);
        AppendAssoc(start, LogLines(index, failure, fmtError, j), LogEntry(index, failure, fmtError, j));
        j := j + 1;
      }
      AppendAssoc(old(out), if index > 1 then ["\n"] else [], LogLines(index, failure, fmtError, |failure.log|));
    }

    /** One log entry of failure number `index`: the numbered description, the suite path, the formatted log line. */
    method PrintLogEntry(index: nat, failure: Result, fmtError: string -> string, j: nat)
      requires j < |failure.log|
      modifies this`out
      ensures out == old(out) + LogEntry(index, failure, fmtError, j)
    {
      var whitespace := Whitespace;
      var testPath := Join(SuitePath(failure), " ");
      Write(NatToString(index) + "): " + failure.description);
      PrintLineBreak();
      Write(whitespace + testPath);
      PrintLineBreak();
      Write(whitespace + fmtError(failure.log[j]));
      PrintLineBreak();
    }

    /** `printErrorDetails(errors)`: failure `k` prints one block per log entry, each numbered `k`. */
    method PrintErrorDetails(errors: seq<Ref>, fmtError: string -> string)
      requires RefsIn(errors, |objects|)
      modifies this`out
      ensures out == old(out) + AppendixText(objects, errors, fmtError)
    {
      PrintLineBreak();
      Write("FAILED TESTS:");
      PrintLineBreak();
      PrintLineBreak();
      ghost var start := out;
      assert start == old(out) + ["\n", "FAILED TESTS:", "\n", "\n"];
      var n := 0;
      while n < |errors|
        invariant 0 <= n <= |errors|
        invariant out == start + Blocks(objects, errors, fmtError, n)
      {
        PrintFailure(n + 1, objects[errors[n]], fmtError);
        AppendAssoc(start, Blocks(objects, errors, fmtError, n), FailureBlock(n + 1, objects[errors[n]], fmtError));
        n := n + 1;
      }
      PrintLineBreak();
      ghost var blocks := Blocks(objects, errors, fmtError, |errors|);
      AppendAssoc(old(out), ["\n", "FAILED TESTS:", "\n", "\n"], blocks);
      AppendAssoc(old(out), ["\n", "FAILED TESTS:", "\n", "\n"] + blocks, ["\n"]);
    }

    /* ----- Run complete ----- */

    /**
     * One iteration of the group loop of `onRunComplete`: the group's totals are computed
     * from its specs' verdicts, then the group is printed compactly or in detail.
     */
    method PrintGroup(name: string, browsers: seq<Browser>)
      requires Valid() && specGroups.Some? && name in specGroups.value.m
      requires TableCovers(specGroups.value, browsers)
      modifies this`objects, this`specGroups, this`out, this`currentPath
      ensures Valid() && specGroups.Some? && TableCovers(specGroups.value, browsers)
      ensures Render(objects, specGroups.value, Screen(out, currentPath)) ==
        GroupOn(old(Render(objects, specGroups.value, Screen(out, currentPath))), name, browsers, specLength)
    {
      ghost var before := Render(objects, specGroups.value, Screen(out, currentPath));
      GroupOnOk(before, name, browsers, specLength);
      var g := specGroups.value.m[name];
      assert SpecsOk(g.specs, |objects|) && SpecsCover(g.specs, browsers);
      var t := CalculateResults(g.specs, g.totals, browsers);
      assert t == GroupTally(before, name, browsers);
      specGroups := Some(specGroups.value.Put(name, g.(totals := t)));
      assert specGroups.value == GroupOn(before, name, browsers, specLength).groups;
      assert Valid();
      if t.errors == 0 && t.skips == 0 {
        PrintTestSuccess(name, t);
      } else {
        PrintDetailed(name, g.specs, t, browsers);
      }
    }

    /** The detailed form of a group: a line break, the table header, the partials line, the detail rows, a line break. */
    method PrintDetailed(name: string, specs: OMap<string, SpecEntry>, t: Totals, browsers: seq<Browser>)
      requires Valid() && specGroups.Some? && SpecsOk(specs, |objects|) && SpecsCover(specs, browsers)
      modifies this`objects, this`out, this`currentPath
      ensures Valid() && |objects| == |old(objects)|
      ensures Render(objects, specGroups.value, Screen(out, currentPath)) ==
        Detailed(old(objects), specGroups.value, Screen(old(out), old(currentPath)), name, specs, t, browsers, specLength)
    {
      PrintLineBreak();
      PrintTableHeader(browsers);
      AppendAssoc(old(out), ["\n"], HeaderText(|browsers|, specLength));
      assert Screen(out, currentPath) == Append(Screen(old(out), old(currentPath)), ["\n"] + HeaderText(|browsers|, specLength));
      PrintTestPartials(name, t);
      ghost var partials := Screen(out, currentPath);
      PrintTestDetails(specs, browsers);
      ghost var d := DetailsOn(old(objects), partials, specs, browsers, specLength, |specs.keys|);
      assert objects == d.0 && Screen(out, currentPath) == d.1;
      assert StateOk(|objects|, failures, successes, skipped, specGroups);
      PrintLineBreak();
    }

    /** The group loop of `onRunComplete`: every group, in insertion order. */
    method PrintGroups(browsers: seq<Browser>)
      requires Valid() && specGroups.Some? && TableCovers(specGroups.value, browsers)
      modifies this`objects, this`specGroups, this`out, this`currentPath
      ensures Valid() && specGroups.Some?
      ensures Render(objects, specGroups.value, Screen(out, currentPath)) ==
        GroupsOn(old(Render(objects, specGroups.value, Screen(out, currentPath))), browsers, specLength, |old(specGroups).value.keys|)
    {
      ghost var w0 := Render(objects, specGroups.value, Screen(out, currentPath));
      var keys := specGroups.value.keys;
      var n := 0;
      while n < |keys|
        invariant 0 <= n <= |keys| && keys == w0.groups.keys
        invariant Valid() && specGroups.Some? && TableCovers(specGroups.value, browsers)
        invariant Render(objects, specGroups.value, Screen(out, currentPath)) == GroupsOn(w0, browsers, specLength, n)
      {
        PrintGroup(keys[n], browsers);
        n := n + 1;
      }
    }

    /** The part of `onRunComplete` after the summaries when results were seen: the groups, then the failure appendix. */
    method PrintGroupsAndFailures(browsers: seq<Browser>, results: RunResults, fmtError: string -> string)
      requires Valid() && specGroups.Some? && TableCovers(specGroups.value, browsers)
      modifies this`objects, this`specGroups, this`out, this`currentPath
      ensures Valid()
      ensures var w := GroupsOn(old(Render(objects, specGroups.value, Screen(out, currentPath))),
                                browsers, specLength, |old(specGroups).value.keys|);
        && objects == w.objects && specGroups == Some(w.groups) && currentPath == w.screen.cur
        && out == w.screen.out + (if |browsers| >= 1 && results.failed != 0 then AppendixText(w.objects, failures, fmtError) else [])
    {
      PrintGroups(browsers);
      if |browsers| >= 1 && results.failed != 0 {
        PrintErrorDetails(failures, fmtError);
      }
    }

    /**
     * `onRunComplete(browsers, results)`: the summaries; then, if no result was seen, the
     * no-tests message and nothing else; otherwise every group in insertion order, and the
     * failure appendix when at least one browser ran and the run reports failures.
     */
    method OnRunComplete(browsers: seq<Browser>, results: RunResults, fmtTime: int -> string,
                         perBrowser: (nat, nat) -> string, fmtError: string -> string)
      requires Valid()
      requires specGroups.Some? ==> TableCovers(specGroups.value, browsers)
      modifies this`objects, this`specGroups, this`out, this`currentPath
      ensures Valid()
      ensures var head := old(out) + SummaryText(|successes|, |skipped|, |failures|, |browsers|, results, perBrowser)
                                   + OverviewText(browsers, fmtTime, |browsers|);
        old(specGroups).None? ==>
          && objects == old(objects) && specGroups == None && currentPath == old(currentPath)
          && out == head + ["No tests ran in any browsers."]
      ensures var head := old(out) + SummaryText(|successes|, |skipped|, |failures|, |browsers|, results, perBrowser)
                                   + OverviewText(browsers, fmtTime, |browsers|);
        old(specGroups).Some? ==>
          var w := GroupsOn(Render(old(objects), old(specGroups).value, Screen(head + ["\n"], old(currentPath))),
                            browsers, specLength, |old(specGroups).value.keys|);
          && objects == w.objects && specGroups == Some(w.groups) && currentPath == w.screen.cur
          && out == w.screen.out + (if |browsers| >= 1 && results.failed != 0 then AppendixText(w.objects, failures, fmtError) else [])
    {
      PrintOverallTestSummary(browsers, results, perBrowser);
      PrintBrowsersOverview(browsers, fmtTime);
      AppendAssoc(old(out), SummaryText(|successes|, |skipped|, |failures|, |browsers|, results, perBrowser),
                  OverviewText(browsers, fmtTime, |browsers|));
      if specGroups.None? {
        Write("No tests ran in any browsers.");
        return;
      }
      PrintLineBreak();
      PrintGroupsAndFailures(browsers, results, fmtError);
    }
  }
}
