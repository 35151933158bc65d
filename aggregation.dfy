/** How one reported result is folded into the `specGroups` table (index.js, `specSuccess`). */
module Aggregation {
  import opened Wrappers
  import opened OrderedMap
  import opened KarmaTypes

  /**
   * The table key of a suite: `suite[0]`. An empty suite is accepted by the
   * `!result.suite` guard, and indexing it yields `undefined`, used as the key "undefined".
   */
  function GroupKey(suite: seq<string>): string
  {
    if |suite| > 0 then suite[0] else "undefined"
  }

  /** The group a result of group `g` is filed into: the existing one, or a fresh one with zero totals. */
  function GroupFor(t: Table, g: string): Group
  {
    if g in t.m then t.m[g] else Group(Totals(0, 0, 0), Empty())
  }

  /** The spec entry a result is filed into: the existing one, or a fresh one for path `suite ++ [description]`. */
  function EntryFor(group: Group, r: Result): SpecEntry
    requires r.suite.Some?
  {
    if r.id in group.specs.m then group.specs.m[r.id]
    else SpecEntry(r.id, r.suite.value + [r.description], Empty())
  }

  /** The group after browser `browserId` reported the result object `ref` (whose value is `r`) into it. */
  function Filed(group: Group, browserId: string, r: Result, ref: Ref): (g': Group)
    requires r.suite.Some?
    ensures g'.totals == group.totals
    ensures r.id in g'.specs.m && g'.specs.m[r.id].results.m == EntryFor(group, r).results.m[browserId := ref]
  {
    var entry := EntryFor(group, r);
    var entry' := entry.(results := entry.results.Put(browserId, ref));
    group.(specs := group.specs.Put(r.id, entry'))
  }

  /**
   * The table after browser `browserId` reported the result object `ref` (whose value is `r`):
   * the result is filed under its group, spec id and browser id, and a repeated report
   * overwrites the earlier one.
   */
  function Record(t: Table, browserId: string, r: Result, ref: Ref): (t': Table)
    requires r.suite.Some?
    ensures var g := GroupKey(r.suite.value);
      && g in t'.m && r.id in t'.m[g].specs.m
      && browserId in t'.m[g].specs.m[r.id].results.m
      && t'.m[g].specs.m[r.id].results.m[browserId] == ref
  {
    var g := GroupKey(r.suite.value);
    t.Put(g, Filed(GroupFor(t, g), browserId, r, ref))
  }

  /**
   * Groups are created only on first sight, at the end of the iteration order and with zero
   * totals; an existing group keeps its totals; every other group is unchanged.
   */
  lemma RecordGroupFrame(t: Table, browserId: string, r: Result, ref: Ref)
    requires r.suite.Some?
    ensures var t', g := Record(t, browserId, r, ref), GroupKey(r.suite.value);
      && t'.m.Keys == t.m.Keys + {g}
      && (g in t.m ==> t'.keys == t.keys && t'.m[g].totals == t.m[g].totals)
      && (g !in t.m ==> t'.keys == t.keys + [g] && t'.m[g].totals == Totals(0, 0, 0) && t'.m[g].specs.keys == [r.id])
      && (forall k | k in t.m && k != g :: t'.m[k] == t.m[k])
  {
    var g := GroupKey(r.suite.value);
    var group := GroupFor(t, g);
    var g' := Filed(group, browserId, r, ref);
    assert Record(t, browserId, r, ref) == t.Put(g, g');
    if g !in t.m {
      assert group.specs == Empty();
      assert g'.specs.keys == [r.id];
    }
  }

  /** Within the result's group, a spec entry is created only on first sight; every other spec is unchanged. */
  lemma RecordSpecFrame(t: Table, browserId: string, r: Result, ref: Ref)
    requires r.suite.Some?
    ensures var t', g := Record(t, browserId, r, ref), GroupKey(r.suite.value);
      var before, after := GroupFor(t, g).specs, t'.m[g].specs;
      && after.m.Keys == before.m.Keys + {r.id}
      && (forall s | s in before.m && s != r.id :: after.m[s] == before.m[s])
      && (r.id in before.m ==> after.keys == before.keys && after.m[r.id].spec == before.m[r.id].spec)
      && (r.id !in before.m ==> after.keys == before.keys + [r.id])
  {
    var g := GroupKey(r.suite.value);
    assert Record(t, browserId, r, ref).m[g] == Filed(GroupFor(t, g), browserId, r, ref);
  }

  /**
   * A new spec entry has id `r.id`, path `suite ++ [description]` and only this browser;
   * in an existing entry only this browser's result changes.
   */
  lemma RecordEntry(t: Table, browserId: string, r: Result, ref: Ref)
    requires r.suite.Some?
    ensures var t', g := Record(t, browserId, r, ref), GroupKey(r.suite.value);
      var before, e := GroupFor(t, g).specs, t'.m[g].specs.m[r.id];
      if r.id in before.m then
        var e0 := before.m[r.id];
        && e.specId == e0.specId && e.spec == e0.spec
        && e.results.m.Keys == e0.results.m.Keys + {browserId}
        && (forall b | b in e0.results.m && b != browserId :: e.results.m[b] == e0.results.m[b])
        && (browserId in e0.results.m ==> e.results.keys == e0.results.keys)
        && (browserId !in e0.results.m ==> e.results.keys == e0.results.keys + [browserId])
      else
        e.specId == r.id && e.spec == r.suite.value + [r.description] && e.results.keys == [browserId]
  {
    var g := GroupKey(r.suite.value);
    var group := GroupFor(t, g);
    assert Record(t, browserId, r, ref).m[g] == Filed(group, browserId, r, ref);
  }

  /** Filing into a group keeps every reference of the group inside a store of size `n`. */
  lemma FiledKeepsSpecsOk(group: Group, n: nat, browserId: string, r: Result, ref: Ref)
    requires SpecsOk(group.specs, n) && r.suite.Some? && ref < n
    ensures SpecsOk(Filed(group, browserId, r, ref).specs, n)
  {
    var before, after := group.specs, Filed(group, browserId, r, ref).specs;
    var entry := EntryFor(group, r);
    assert EntryOk(entry, n) || entry.results == Empty();
    forall s | s in after.m ensures EntryOk(after.m[s], n) {
      if s != r.id {
        assert after.m[s] == before.m[s];
        assert EntryOk(before.m[s], n);
      }
    }
  }

  /** Recording keeps the table well formed and every reference inside the object store. */
  lemma RecordKeepsTableOk(t: Table, n: nat, browserId: string, r: Result, ref: Ref)
    requires TableOk(t, n) && r.suite.Some? && ref < n
    ensures TableOk(Record(t, browserId, r, ref), n)
  {
    var g := GroupKey(r.suite.value);
    var group := GroupFor(t, g);
    assert SpecsOk(group.specs, n) by {
      if g in t.m { assert SpecsOk(t.m[g].specs, n); }
    }
    FiledKeepsSpecsOk(group, n, browserId, r, ref);
    var t' := Record(t, browserId, r, ref);
    assert t' == t.Put(g, Filed(group, browserId, r, ref));
    forall k | k in t'.m ensures SpecsOk(t'.m[k].specs, n) {
      if k != g {
        assert t'.m[k] == t.m[k];
      }
    }
  }
}
