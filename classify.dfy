/** Reducing each spec's per-browser results to one verdict, and counting verdicts per group (index.js, `calculateResults`). */
module Classify {
  import opened OrderedMap
  import opened KarmaTypes

  datatype Verdict = Passed | Errored | Skipped

  /** `result.pending === true || result.skipped === true`. */
  predicate IsSkip(r: Result)
  {
    r.pending || r.skipped
  }

  /** A result that was run and did not succeed. */
  predicate IsError(r: Result)
  {
    !IsSkip(r) && !r.success
  }

  /** Every browser of the run has a result object in the store for this spec. */
  ghost predicate Resolves(objs: seq<Result>, results: OMap<string, Ref>, browsers: seq<Browser>)
  {
    forall i | 0 <= i < |browsers| :: browsers[i].id in results.m && results.m[browsers[i].id] < |objs|
  }

  lemma EntryResolves(e: SpecEntry, objs: seq<Result>, browsers: seq<Browser>)
    requires EntryOk(e, |objs|) && EntryCovers(e, browsers)
    ensures Resolves(objs, e.results, browsers)
  {
  }

  /** The result objects the browsers reported for one spec, in browser order. */
  function Outcomes(objs: seq<Result>, results: OMap<string, Ref>, browsers: seq<Browser>): (rs: seq<Result>)
    requires Resolves(objs, results, browsers)
    ensures |rs| == |browsers|
  {
    seq(|browsers|, i requires 0 <= i < |browsers| => objs[results.m[browsers[i].id]])
  }

  lemma OutcomeAt(objs: seq<Result>, results: OMap<string, Ref>, browsers: seq<Browser>, i: nat)
    requires Resolves(objs, results, browsers) && i < |browsers|
    ensures Outcomes(objs, results, browsers)[i] == objs[results.m[browsers[i].id]]
  {
  }

  /** Some result among the first `j` was skipped or pending. */
  predicate AnySkip(rs: seq<Result>, j: nat)
    requires j <= |rs|
  {
    exists i | 0 <= i < j :: IsSkip(rs[i])
  }

  /** Some result among the first `j` was run and did not succeed. */
  predicate AnyError(rs: seq<Result>, j: nat)
    requires j <= |rs|
  {
    exists i | 0 <= i < j :: IsError(rs[i])
  }

  /** One more browser extends the two scans by that browser's result. */
  lemma ScanStep(rs: seq<Result>, j: nat)
    requires j < |rs|
    ensures AnySkip(rs, j + 1) == (AnySkip(rs, j) || IsSkip(rs[j]))
    ensures AnyError(rs, j + 1) == (AnyError(rs, j) || IsError(rs[j]))
  {
    if IsSkip(rs[j]) {
      assert AnySkip(rs, j + 1);
    }
    if IsError(rs[j]) {
      assert AnyError(rs, j + 1);
    }
  }

  /** The verdict of one spec over all browsers: skip dominates error, error dominates success. */
  function SpecVerdict(rs: seq<Result>): Verdict
  {
    if AnySkip(rs, |rs|) then Skipped
    else if AnyError(rs, |rs|) then Errored
    else Passed
  }

  /** One skipping browser makes the spec a skip, whatever the other browsers report. */
  lemma SkipDominates(rs: seq<Result>, i: nat)
    requires i < |rs| && IsSkip(rs[i])
    ensures SpecVerdict(rs) == Skipped
  {
  }

  /** The three verdicts, each stated over the browsers' results. */
  lemma VerdictCases(rs: seq<Result>)
    ensures SpecVerdict(rs) == Skipped <==> exists i | 0 <= i < |rs| :: IsSkip(rs[i])
    ensures SpecVerdict(rs) == Errored <==>
      (forall i | 0 <= i < |rs| :: !IsSkip(rs[i])) && (exists i | 0 <= i < |rs| :: !rs[i].success)
    ensures SpecVerdict(rs) == Passed <==> forall i | 0 <= i < |rs| :: !IsSkip(rs[i]) && rs[i].success
  {
  }

  /** The verdict of one spec entry. */
  function EntryVerdict(objs: seq<Result>, e: SpecEntry, browsers: seq<Browser>): Verdict
    requires EntryOk(e, |objs|) && EntryCovers(e, browsers)
  {
    EntryResolves(e, objs, browsers);
    SpecVerdict(Outcomes(objs, e.results, browsers))
  }

  /** The verdicts of a group's specs, in insertion order. */
  function Verdicts(objs: seq<Result>, specs: OMap<string, SpecEntry>, browsers: seq<Browser>): (vs: seq<Verdict>)
    requires SpecsOk(specs, |objs|) && SpecsCover(specs, browsers)
    ensures |vs| == |specs.keys|
  {
    seq(|specs.keys|, i requires 0 <= i < |specs.keys| => EntryVerdict(objs, specs.m[specs.keys[i]], browsers))
  }

  /** Spec `n` of a well-formed group resolves, and its verdict is that of its browsers' outcomes. */
  lemma VerdictAt(objs: seq<Result>, specs: OMap<string, SpecEntry>, browsers: seq<Browser>, n: nat)
    requires SpecsOk(specs, |objs|) && SpecsCover(specs, browsers) && n < |specs.keys|
    ensures var e := specs.m[specs.keys[n]];
      && EntryOk(e, |objs|) && EntryCovers(e, browsers) && Resolves(objs, e.results, browsers)
      && Verdicts(objs, specs, browsers)[n] == SpecVerdict(Outcomes(objs, e.results, browsers))
  {
    EntryAt(specs, n, |objs|, browsers);
    EntryResolves(specs.m[specs.keys[n]], objs, browsers);
  }

  /** Bumps the one counter that matches the verdict. */
  function Bump(t: Totals, v: Verdict): (t': Totals)
  {
    match v
    case Skipped => t.(skips := t.skips + 1)
    case Errored => t.(errors := t.errors + 1)
    case Passed => t.(successes := t.successes + 1)
  }

  function Sum(t: Totals): nat
  {
    t.successes + t.errors + t.skips
  }

  /**
   * The totals after the first `n` verdicts were counted, starting from `t`.
   * Each verdict adds exactly one to exactly one counter.
   */
  function Tally(t: Totals, vs: seq<Verdict>, n: nat): Totals
    requires n <= |vs|
  {
    if n == 0 then t else Bump(Tally(t, vs, n - 1), vs[n - 1])
  }

  /**
   * Each counter grows by the number of its verdicts among the first `n`, so together
   * they grow by exactly `n`: every spec is counted once.
   */
  lemma {:induction false} TallyCounts(t: Totals, vs: seq<Verdict>, n: nat)
    requires n <= |vs|
    ensures var t', c := Tally(t, vs, n), multiset(vs[..n]);
      && t'.successes == t.successes + c[Passed]
      && t'.errors == t.errors + c[Errored]
      && t'.skips == t.skips + c[Skipped]
      && Sum(t') == Sum(t) + n
  {
    if n > 0 {
      TallyCounts(t, vs, n - 1);
      assert vs[..n] == vs[..n - 1] + [vs[n - 1]];
    }
  }

  /**
   * No error and no skip was counted exactly when every one of the first `n` verdicts is
   * a pass: this is when a group gets the compact success line.
   */
  lemma TallyAllPassed(t: Totals, vs: seq<Verdict>, n: nat)
    requires n <= |vs|
    ensures var t' := Tally(t, vs, n);
      (t'.errors == t.errors && t'.skips == t.skips) <==> (forall i | 0 <= i < n :: vs[i] == Passed)
  {
    TallyCounts(t, vs, n);
    if forall i | 0 <= i < n :: vs[i] == Passed {
      assert Errored !in vs[..n] && Skipped !in vs[..n];
    } else {
      var i :| 0 <= i < n && vs[i] != Passed;
      assert vs[..n][i] == vs[i];
    }
  }

  /** Starting from zero, a group whose specs all pass counts every spec as a success. */
  lemma TallyAllPassedFromZero(vs: seq<Verdict>)
    requires forall i | 0 <= i < |vs| :: vs[i] == Passed
    ensures Tally(Totals(0, 0, 0), vs, |vs|) == Totals(|vs|, 0, 0)
  {
    TallyCounts(Totals(0, 0, 0), vs, |vs|);
    TallyAllPassed(Totals(0, 0, 0), vs, |vs|);
  }

  /** A spec that does not pass leaves an error or a skip in the totals. */
  lemma TallyNotAllPassed(t: Totals, vs: seq<Verdict>, i: nat)
    requires i < |vs| && vs[i] != Passed
    ensures var t' := Tally(t, vs, |vs|);
      t'.errors > t.errors || t'.skips > t.skips
  {
    TallyCounts(t, vs, |vs|);
    TallyAllPassed(t, vs, |vs|);
  }
}
