# karma-chameleon reporter, modelled in Dafny

karma-chameleon is a Karma reporter ("chameleon" reporter, `index.js`). While a test run is
going, the runner hands it one event per browser and spec. The reporter folds these events
into two structures:

- three flat lists (`failures`, `successes`, `skipped`);
- a two-level, insertion-ordered table `specGroups`. The table maps a group name (the first
  suite segment) to the group's totals and specs. Each spec maps browser ids to that
  browser's result.

When the run completes, the reporter writes:

- a test summary and one line per browser;
- one line per group: either a compact success line, or a table with a row for every
  spec that was skipped or failed in some browser;
- finally, an appendix with every failure's log.

Suite paths are printed as an indented tree. A path prints only its segments from the
first one that differs from the last printed path, and each label is cut and padded to
`specLength` columns.

The model is imperative, like the reporter:

- **`Reporter.ChameleonReporter`** is a class with the reporter's fields. Every printer
  appends strings to a field `out`, which stands for `writeCommonMsg`.
- **Result objects are shared by reference.** The same object sits in a list and in the
  table, and `printTestDetails` changes it in place. So the class keeps an object store
  `objects: seq<Result>`; the lists and the table hold indices (`Ref`) into it.
- **Each method is proved against a function of the old state.** These functions live in
  `Aggregation`, `Classify`, `PathRender` and `ReportText`. The lemmas next to them state
  what the reporter promises.

Modules:

- `Text`: `strmul`, JavaScript's `slice(0, end)` and number-to-decimal text.
- `OrderedMap`: insertion-ordered maps. They stand in for the JavaScript objects used as
  maps.
- `KarmaTypes`: results, browsers, spec entries, groups, and the well-formedness
  predicates over them.
- `Aggregation`: the table update of a spec event.
- `Classify`: per-spec verdicts and the per-group totals.
- `PathRender`: the path-diff label printer.
- `ReportText`: the text of every printer.
- `Reporter`: the reporter class itself.

## Model

| member | source | states |
|---|---|---|
| Text.Strmul | index.js:4-10 | returns `s` repeated `n` times; a negative count gives the empty string |
| Text.RepeatLength | index.js:4-10 | `s` repeated `n` times is `n` times as long as `s` |
| Text.RepeatUniform | index.js:4-10 | repeating spaces gives only spaces |
| Text.SliceTo | index.js:188 | `slice(0, end)` is always a prefix of the string: exactly `end` long when `end` is within the string, the whole string past its end, and counted back from the end when `end` is negative |
| Text.NatToStringRoundTrip | index.js:218 | the decimal text the reporter prints for a count reads back as that count |
| Text.NatToStringDigits | index.js:218 | the decimal text of a count is made of digits only |
| Reporter.ChameleonReporter.constructor | index.js:17-27 | `specLength` is the configured value, or 75 when none (or 0) is configured; the lists are empty, `specGroups` is null, nothing has been printed |
| Reporter.ChameleonReporter.OnRunStart | index.js:345-349 | resets `specGroups` to null and the cursor to the empty path; the three lists are kept |
| Reporter.ChameleonReporter.SpecEvent | index.js:390-438 | a result without a suite changes nothing; otherwise the result is stored once. Its reference is appended to exactly one list, chosen in order: skipped (skipped or pending), then successes, then failures; the other lists are unchanged. The table becomes `Record` of the old table (an empty one if null) |
| Reporter.ChameleonReporter.Route | index.js:399-407 | appends the reference to exactly the list the flags select and leaves the other two unchanged |
| Reporter.ChameleonReporter.File | index.js:395-437 | creates the table if it is null, files the result under its group, spec and browser, and keeps the table well formed |
| Aggregation.Record | index.js:410-437 | after filing, `specGroups[suite[0]].specs[id].results[browser.id]` is the new result (a repeat report of the same browser and spec overwrites it) |
| Aggregation.RecordGroupFrame | index.js:413-422 | a group is created only on first sight, with totals {0, 0, 0}, and appended to the group order; an existing group keeps its totals and position; no other group changes |
| Aggregation.RecordSpecFrame | index.js:428-435 | a spec entry is created only on first sight and appended to the spec order; no other spec of the group changes |
| Aggregation.RecordEntry | index.js:428-437 | a new entry has `specId = id`, `spec = suite + [description]` and only this browser; an existing entry keeps its id and path, gains or overwrites only this browser, and no other browser's result changes |
| Aggregation.RecordKeepsTableOk | index.js:410-437 | filing a stored result keeps every reference in the table pointing into the object store |
| Aggregation.FiledKeepsSpecsOk | index.js:426-437 | filing into one group keeps that group's spec map well formed |
| Reporter.ChameleonReporter.PrintBrowser | index.js:70-99 | builds the browser line `BrowserText` with its step-by-step `+=` |
| Reporter.ChameleonReporter.AppendCounts | index.js:76-92 | appends exactly the failed/skipped parenthetical `CountsNote` to the message |
| ReportText.BrowserLine | index.js:72-74 | the browser line starts with "Executed X of Y"; X reads back as success + failed, Y as the total |
| ReportText.CountsNoteCases | index.js:76-92 | the parenthetical is empty exactly when nothing failed and nothing was skipped; it holds the failed count, the skipped count, or both joined by ", " |
| Reporter.ChameleonReporter.PrintBrowsersOverview | index.js:63-68 | prints ` i: ` and the browser line, then a line break, for every browser in order |
| ReportText.OverviewAt | index.js:64-67 | line `2i` of the overview is ` i: ` followed by browser `i`'s line, and line `2i + 1` is a line break |
| Reporter.ChameleonReporter.PrintOverallTestSummary | index.js:35-61 | prints the summary text of the current list lengths |
| ReportText.SummaryLines | index.js:40-60 | with a browser and no disconnect or error, 15 strings are printed, including the succeeded, skipped and failed lines with their counts; the skipped and failed lines appear even when zero. Otherwise only the title is printed |
| Reporter.ChameleonReporter.PrintCountLine | index.js:41-43 | prints the glyph, the count and the caption, the per-browser average, then a line break |
| Reporter.ChameleonReporter.PrintLineBreak | index.js:108-110 | appends one line break |
| Reporter.ChameleonReporter.PrintTestSuccess | index.js:142-150 | prints the group label, ` ✓  `, the success count, ` Passed `, then a line break |
| Reporter.ChameleonReporter.PrintTestPartials | index.js:152-174 | prints the group label, then the success, skip and error counts in brackets |
| Reporter.ChameleonReporter.PrintCount | index.js:160-171 | prints one glyph and its count |
| Reporter.ChameleonReporter.PrintSpecLabel | index.js:177-211 | output and cursor become `LabelOn` of the old output and cursor: the segments from the first difference on are printed, and the cursor becomes the path |
| Reporter.ChameleonReporter.PrintSegment | index.js:185-206 | prints segment `i`'s label, then a line break, or padding for the last segment |
| PathRender.PathDiff | index.js:179-210 | nothing is printed and the cursor stays exactly when the path is a prefix of the cursor. Otherwise the cursor becomes the path and exactly two strings per printed segment are appended after the old output, where `k` is the first index that differs; segment `j >= k` prints its label |
| PathRender.CommonPrefix | index.js:182-184 | `k` is the first index at which the cursor and the path differ, or where one of them ends |
| PathRender.LabelOnIdempotent | index.js:182-185 | printing the same path twice prints it once |
| PathRender.Divergence | index.js:179-210 | after `A/B/x`, printing `A/C/y` prints only `C` (depth 1) and `y` (depth 2, padded to 75 columns) |
| PathRender.Indent | index.js:178-209 | segment `i` is indented by `2 * (i + 1)` characters |
| PathRender.IndentSpaces | index.js:178-209 | the indent is spaces only |
| PathRender.LabelShape | index.js:186-189 | a label that fits the width is printed as is. A longer one keeps a prefix of the indented segment and ends in `...`; from a width of 3 on it is exactly the width long, so no label is wider than `specLength` |
| PathRender.LinesAt | index.js:185-206 | segment `j` prints its label, then a line break unless it is the last segment, which gets the padding |
| PathRender.LastSegmentWidth | index.js:201-206 | the last label and its padding together are exactly `specLength` wide, and the padding is spaces only |
| Reporter.ChameleonReporter.PrintTableHeader | index.js:214-221 | prints the header text for the browsers |
| ReportText.HeaderShape | index.js:214-221 | the header is `specLength` spaces, one space, ` i ` for each browser `i` in order, then a line break |
| ReportText.ColumnsAt | index.js:217-219 | column marker `i` is ` i ` |
| Reporter.ChameleonReporter.ScanBrowsers | index.js:230-238 | the two flags say whether some browser skipped, and whether some browser ran and failed |
| Reporter.ChameleonReporter.CountSpec | index.js:225-246 | bumps exactly the counter of the spec's verdict |
| Reporter.ChameleonReporter.CountStep | index.js:224-247 | spec `n` of the loop bumps exactly the counter of that spec's verdict |
| Reporter.ChameleonReporter.CalculateResults | index.js:223-248 | the totals after the loop are the old totals plus the tally of every spec's verdict, in order |
| Classify.SkipDominates | index.js:233-241 | one skipped or pending browser makes the spec a skip, whatever the other browsers report |
| Classify.VerdictCases | index.js:233-246 | skip iff some browser skipped; error iff none skipped and some did not succeed; pass iff every browser ran and succeeded |
| Classify.TallyCounts | index.js:240-246 | each counter grows by the number of specs with that verdict, so the sum grows by exactly the number of specs |
| Classify.TallyAllPassed | index.js:240-246 | errors and skips are unchanged exactly when every spec passed |
| Classify.TallyAllPassedFromZero | index.js:240-246 | from zero totals, a group whose specs all pass counts every spec as a success |
| Classify.TallyNotAllPassed | index.js:240-246 | a spec that does not pass raises the errors or the skips |
| Reporter.ChameleonReporter.PrintTestDetails | index.js:250-299 | the objects and output after the loop are `DetailsOn` of the old ones, spec by spec in insertion order |
| Reporter.ChameleonReporter.PrintDetailStep | index.js:252-298 | spec `n + 1` of the loop runs on the state the first `n` specs left, giving `DetailsOn` of `n + 1` specs |
| Reporter.ChameleonReporter.PrintDetail | index.js:253-297 | one spec: extends the suite of the result `Object.keys` lists first, then prints its row if needed |
| ReportText.FirstKeyOrder | index.js:256-260 | the first result is that of the browser id `Object.keys` lists first: the array-index id of smallest value when some id is an array index, otherwise the id inserted first |
| ReportText.MinIndexKeyOrder | index.js:256 | the search finds an array-index key exactly when there is one, and then the one of smallest value |
| ReportText.IndexKeysFirst | index.js:256 | when browser `2` reports before browser `1`, the first result is browser `1`'s |
| Reporter.ChameleonReporter.ExtendSuite | index.js:256-260 | the result object at the given reference (the spec's first result, `FirstKeyOrder`), and only it, gets its suite (`[]` if none) extended by its description |
| Reporter.ChameleonReporter.PrintRow | index.js:277-297 | a passing spec prints nothing. Otherwise it prints its path label, ` `, one glyph per browser and a line break |
| Reporter.ChameleonReporter.PrintGlyphs | index.js:281-294 | prints the glyphs of the browsers' results in browser order |
| ReportText.GlyphAt | index.js:281-294 | browser `i`'s column of a row shows the glyph of that browser's own result |
| ReportText.GlyphRowAt | index.js:281-294 | browser `i`'s glyph is at position `2 * i`, followed by two spaces |
| ReportText.DetailRow | index.js:253-297 | a spec's detail step extends the suite of its first result (`FirstKeyOrder`) by its description. It prints nothing for a passing spec. Otherwise it prints the label of the extended path, ` `, then one glyph per browser in browser order, each glyph that of the browser's own result |
| ReportText.DetailsOnStep | index.js:252-298 | the detail loop handles spec `n + 1` on the state spec `n` left |
| ReportText.SkippedShowsSkipGlyph | index.js:284-286 | a skipped spec's row shows ` - ` for some browser |
| ReportText.ErroredShowsFailureGlyph | index.js:287-289 | an errored spec's row shows ` ✗ ` for some browser and ` - ` for none |
| ReportText.PassedShowsPassGlyphs | index.js:290-292 | every browser of a passing spec has ` ✓ ` |
| Reporter.ChameleonReporter.PrintErrorDetails | index.js:308-336 | prints the title, then the block of failure `k` (1-based) for each failure, then a line break |
| Reporter.ChameleonReporter.PrintFailure | index.js:315-333 | prints failure `k`'s block: a blank line when `k > 1`, then one entry per log line |
| Reporter.ChameleonReporter.PrintLogEntry | index.js:323-332 | prints `k): description`, the joined suite and the formatted log line, each followed by a line break |
| ReportText.FailureBlockShape | index.js:315-333 | failure `k`'s block has six strings per log line, and every entry is labelled with the same `k` |
| ReportText.BlankLineBefore | index.js:319-321 | a failure's block starts with a blank line exactly when `k > 1` |
| ReportText.LogLinesAt | index.js:323-332 | log line `j` of a failure occupies strings `6j` to `6j + 6` |
| Reporter.ChameleonReporter.OnRunComplete | index.js:351-388 | prints the summary and the browser overview. With a null table, it then prints "No tests ran in any browsers." and nothing else changes. Otherwise it prints a line break, then the groups in order with totals written back, then the appendix exactly when there is a browser and `results.failed` is set |
| Reporter.ChameleonReporter.PrintGroupsAndFailures | index.js:363-387 | prints the groups, then the appendix exactly when there is a browser and `results.failed` is set |
| Reporter.ChameleonReporter.PrintGroups | index.js:363-381 | handles every group in insertion order and keeps the reporter's invariant |
| Reporter.ChameleonReporter.PrintGroup | index.js:364-380 | handles one group: totals recalculated and stored back, then its compact line or detail block |
| Reporter.ChameleonReporter.PrintDetailed | index.js:373-379 | prints a line break, the table header, the partials line, the detail rows, then a line break |
| ReportText.GroupOnOk | index.js:364-367 | a group's iteration stores its new totals under the same name; no other group and no order changes |
| ReportText.CompactLine | index.js:370-371 | a fresh group whose specs all pass gets totals {specs, 0, 0} and is printed as the compact success line |
| ReportText.DetailedLines | index.js:370-379 | a group with a non-passing spec has a raised error or skip total and is printed as the detail block |

## Left out

- Colours: `chalk` is the identity. The colour argument of `printSpecLabel` is dropped, since it only selects the colour.
- The per-browser averages `count / browsers.length` in the summary are floating-point division. They are a parameter `perBrowser` of the summary.
- `helper.formatTimeInterval` (the browser line) and `formatError` (the appendix) are foreign collaborators. They are parameters `fmtTime` and `fmtError`.
- `parseFilePath` and `printResultLabel` are never called, so they are not modelled.
- The dependency-injection wiring, `baseReporterDecorator`, the `config` plumbing, `config.colors`, `this._browsers`, `$inject` and the module registration are not modelled: they are glue.
- JavaScript enumerates array-index keys (such as `"3"`) of an object before the other keys, in ascending numeric order. `ReportText.FirstKey` follows this order for the first key of a browser-result map. The `for ... in` loops over `specGroups` and over a group's specs are modelled in insertion order instead, so group and spec names that are array indices print in a different order than in the model.
- Before the first `onRunStart`, `currentPath` is `undefined` in JavaScript, and printing a path would throw. The model starts with the empty path.
- String lengths count characters, not UTF-16 code units.
- Reporter.ChameleonReporter.SpecEvent: assumes every event hands over a fresh result object, as the runner does. Each event adds a new object to the store. A runner that passed the same object twice would alias it in JavaScript but not in the model.
- Counts are unbounded naturals printed as plain decimal digits (`Text.NatToString`). JavaScript's `'' + n` switches to exponent notation from 1e21; that is not modelled.
- `specLength` is a non-negative integer. A configured value that is not an integer, or is negative, is not modelled.
- Reporter.ChameleonReporter.CalculateResults: returns the new totals instead of incrementing the group's totals object in place. `PrintGroup` stores them back under the same name before printing, so the state afterwards is the same.
- Reporter.ChameleonReporter.SpecEvent: does not model the crash on a group name or spec id that is a property every array has (`length`, `map`, `push`, `constructor`, `__proto__` and the like). `specGroups` and each group's `specs` are arrays, so for such a name `specGroups[testFile] === undefined` or `specs[specId] === undefined` is false. No group or spec is created, and `specGroups[testFile].specs[specId].results` then throws a TypeError. By then the result is already in one of the lists and `specGroups` is no longer null. The model files such a result like any other name. Browser ids are keys of a plain object, and the model files `__proto__` as an ordinary key too.
- Reporter.ChameleonReporter.OnRunComplete: requires every browser of the run to have a result for every spec. The source reads `specResults[browser.id]` unconditionally and throws on a missing entry.
- The model keeps these behaviours of the code:
  - The summary lines of skips and failures are guarded by `if (this.skipped)` and `if (this.failures)`. These are arrays, so the guards are always true and the lines always print.
  - `onRunStart` does not clear the three lists.
  - Printing a path equal to the cursor prints nothing.
  - An empty suite `[]` is truthy, so such a result is accepted; it is filed under the group name `undefined`.
- The helper methods `Route`, `File`, `AppendCounts`, `PrintSegment`, `PrintCount`, `ScanBrowsers`, `CountSpec`, `CountStep`, `PrintDetailStep`, `PrintDetail`, `ExtendSuite`, `PrintRow`, `PrintGlyphs`, `PrintLogEntry`, `PrintGroup`, `PrintDetailed`, `PrintGroups` and `PrintGroupsAndFailures` factor out parts of the source's methods. They are not separate functions in `index.js`.
