/** The values the reporter receives from the runner and the tables it builds from them. */
module KarmaTypes {
  import opened Wrappers
  import opened OrderedMap

  /** One browser's outcome for one spec, as the runner hands it to `specSuccess`/`specFailure`/`specSkipped`. */
  datatype Result = Result(
    suite: Option<seq<string>>,
    description: string,
    id: string,
    success: bool,
    skipped: bool,
    pending: bool,
    log: seq<string>)

  /** A handle on a result object in the reporter's object store: results are shared by reference. */
  type Ref = nat

  /** `browser.lastResult`: counts and times of the browser's last run. */
  datatype LastResult = LastResult(success: nat, failed: nat, skipped: nat, total: nat, totalTime: int, netTime: int)

  /** A browser; `name` is what `'' + browser` prints. */
  datatype Browser = Browser(id: string, name: string, lastResult: LastResult, isReady: bool)

  /** The `results` argument of `onRunComplete`. */
  datatype RunResults = RunResults(failed: nat, disconnected: bool, error: bool)

  /** Per-group counts of specs (not of browser results). */
  datatype Totals = Totals(successes: nat, errors: nat, skips: nat)

  /** `{specId, spec, results}`: one logical spec and the result object each browser reported for it. */
  datatype SpecEntry = SpecEntry(specId: string, spec: seq<string>, results: OMap<string, Ref>)

  /** `{totals, specs}`: one top-level group of specs. */
  datatype Group = Group(totals: Totals, specs: OMap<string, SpecEntry>)

  /** `specGroups`: group name to group. */
  type Table = OMap<string, Group>

  /** The suite path of a result, `[]` when it has none. */
  function SuitePath(r: Result): seq<string>
  {
    if r.suite.Some? then r.suite.value else []
  }

  /** A spec entry's browser map is well formed and has a first browser. */
  ghost predicate EntryShape(e: SpecEntry)
  {
    e.results.Valid() && |e.results.keys| > 0
  }

  ghost predicate SpecsShape(specs: OMap<string, SpecEntry>)
  {
    specs.Valid() && forall s | s in specs.m :: EntryShape(specs.m[s])
  }

  /** Every reference of a list points into a store of size `n`. */
  ghost predicate RefsIn(xs: seq<Ref>, n: nat)
  {
    forall i | 0 <= i < |xs| :: xs[i] < n
  }

  lemma RefsInPush(xs: seq<Ref>, n: nat, ref: Ref, n': nat)
    requires RefsIn(xs, n) && n <= n' && ref < n'
    ensures RefsIn(xs + [ref], n')
  {
  }

  /** A well-formed spec entry that refers only to objects of a store of size `n`. */
  ghost predicate EntryOk(e: SpecEntry, n: nat)
  {
    EntryShape(e) && forall b | b in e.results.m :: e.results.m[b] < n
  }

  ghost predicate SpecsOk(specs: OMap<string, SpecEntry>, n: nat)
  {
    specs.Valid() && forall s | s in specs.m :: EntryOk(specs.m[s], n)
  }

  ghost predicate TableOk(t: Table, n: nat)
  {
    t.Valid() && forall g | g in t.m :: SpecsOk(t.m[g].specs, n)
  }

  /** Every browser of the run has reported a result for this spec. */
  ghost predicate EntryCovers(e: SpecEntry, browsers: seq<Browser>)
  {
    forall i | 0 <= i < |browsers| :: browsers[i].id in e.results.m
  }

  ghost predicate SpecsCover(specs: OMap<string, SpecEntry>, browsers: seq<Browser>)
  {
    forall s | s in specs.m :: EntryCovers(specs.m[s], browsers)
  }

  ghost predicate TableCovers(t: Table, browsers: seq<Browser>)
  {
    forall g | g in t.m :: SpecsCover(t.m[g].specs, browsers)
  }

  /** Spec `n` of a well-formed, covered group is a well-formed, covered entry. */
  lemma EntryAt(specs: OMap<string, SpecEntry>, n: nat, size: nat, browsers: seq<Browser>)
    requires SpecsOk(specs, size) && SpecsCover(specs, browsers) && n < |specs.keys|
    ensures specs.keys[n] in specs.m
    ensures EntryOk(specs.m[specs.keys[n]], size) && EntryCovers(specs.m[specs.keys[n]], browsers)
  {
  }

  lemma TableOkGrows(t: Table, n: nat, n': nat)
    requires TableOk(t, n) && n <= n'
    ensures TableOk(t, n')
  {
    forall g | g in t.m ensures SpecsOk(t.m[g].specs, n') {
      var specs := t.m[g].specs;
      forall s | s in specs.m ensures EntryOk(specs.m[s], n') {
        assert EntryOk(specs.m[s], n);
      }
    }
  }
}
