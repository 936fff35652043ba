/** The growth-rate calculator: how a unit's per-stat growth rates are put
    together from its personal growth, a parent's inherited bonus, its class
    bonus and the avatar's boon/bane trait, and how the character table is
    grouped by category when it is loaded.

    A Python dict keeps its keys in insertion order, and the chart draws the
    stats in the order of the character's row. A table row is therefore a
    `GrowthRow`: the keys in order together with the map from key to rate. */
module Compute {
  import opened Wrappers

  /** The "(none)" entry at the top of the class, parent, boon and bane lists. */
  const NoSelection: string := "（なし）"

  /** The avatar: the only character whose growth gets a boon and a bane. */
  const Avatar: string := "カムイ"

  /** The eight stats that can be chosen as boon or bane. */
  const TraitStats: seq<string> := ["HP", "力", "魔力", "技", "速さ", "幸運", "守備", "魔防"]

  /** +15 on the boon stat. */
  const GrowthBonus: map<string, int> := map s | s in TraitStats :: 15

  /** -15 on the bane stat. */
  const GrowthMalus: map<string, int> := map s | s in GrowthBonus :: -15

  /** One row of a growth table, keys in column order. */
  datatype GrowthRow = GrowthRow(keys: seq<string>, rates: map<string, int>)

  /** A table keyed by character name (personal growth) or by class name. */
  type Table = map<string, GrowthRow>

  /** The row has a rate for every one of the given stats. */
  predicate Covers(row: GrowthRow, stats: seq<string>) {
    forall i :: 0 <= i < |stats| ==> stats[i] in row.rates
  }

  predicate ParentActive(charGrowth: Table, parent: string) {
    parent != NoSelection && parent in charGrowth
  }

  predicate ClassActive(classGrowth: Table, cls: string) {
    cls != NoSelection && cls in classGrowth
  }

  /** The avatar's trait lookups find their stat: a stat equal to the boon is
      one of the eight trait stats, and so is a stat equal to the bane (when
      it is not also the boon). */
  predicate TraitLookupsDefined(stats: seq<string>, good: string, bad: string) {
    forall i :: 0 <= i < |stats| ==>
      (stats[i] == good ==> good in GrowthBonus) && (stats[i] == bad && stats[i] != good ==> bad in GrowthMalus)
  }

  /** The trait lookups are defined exactly when a boon or bane that the
      character actually has is one of the eight trait stats; an empty or
      "(none)" choice that matches no stat never reaches a lookup. */
  lemma TraitLookupsDefinedIff(stats: seq<string>, good: string, bad: string)
    ensures TraitLookupsDefined(stats, good, bad)
        <==> (good in stats ==> good in TraitStats) && (bad in stats && bad != good ==> bad in TraitStats)
  {
  }

  /** Half the parent's personal growth, rounded down, for each stat; all
      zero when no parent (or an unknown one) is selected. */
  function ParentBonus(charGrowth: Table, parent: string, stats: seq<string>): (r: seq<int>)
    requires ParentActive(charGrowth, parent) ==> Covers(charGrowth[parent], stats)
    ensures |r| == |stats|
    ensures forall i :: 0 <= i < |stats| ==>
      if ParentActive(charGrowth, parent)
      then 2 * r[i] <= charGrowth[parent].rates[stats[i]] < 2 * r[i] + 2
      else r[i] == 0
  {
    if ParentActive(charGrowth, parent) then
      seq(|stats|, i requires 0 <= i < |stats| => charGrowth[parent].rates[stats[i]] / 2)
    else
      seq(|stats|, _ => 0)
  }

  /** The class table's entry for each stat; all zero when no class (or an
      unknown one) is selected. */
  function ClassBonus(classGrowth: Table, cls: string, stats: seq<string>): (r: seq<int>)
    requires ClassActive(classGrowth, cls) ==> Covers(classGrowth[cls], stats)
    ensures |r| == |stats|
    ensures forall i :: 0 <= i < |stats| ==>
      r[i] == if ClassActive(classGrowth, cls) then classGrowth[cls].rates[stats[i]] else 0
  {
    if ClassActive(classGrowth, cls) then
      seq(|stats|, i requires 0 <= i < |stats| => classGrowth[cls].rates[stats[i]])
    else
      seq(|stats|, _ => 0)
  }

  /** The avatar's boon and bane: +15 on the boon stat, -15 on the bane stat
      (the boon wins when both name the same stat), 0 elsewhere; all zero for
      every other character. */
  function TraitBonus(character: string, good: string, bad: string, stats: seq<string>): (r: seq<int>)
    requires character == Avatar ==> TraitLookupsDefined(stats, good, bad)
    ensures |r| == |stats|
    ensures forall i :: 0 <= i < |stats| ==>
      r[i] == if character != Avatar then 0
              else if stats[i] == good then 15
              else if stats[i] == bad then -15
              else 0
  {
    if stats == [] then []
    else
      var s := stats[0];
      var b := if character != Avatar then 0
               else if s == good then GrowthBonus[s]
               else if s == bad then GrowthMalus[s]
               else 0;
      [b] + TraitBonus(character, good, bad, stats[1..])
  }

  /** The four stacked components of the chart and their per-stat sum, in
      the order of the character's stats. */
  datatype Composition = Composition(
    stats: seq<string>,
    base: seq<int>,
    parentBonus: seq<int>,
    classBonus: seq<int>,
    traitBonus: seq<int>,
    total: seq<int>)

  /** What the chart needs to be drawn without a missing key: the
      character's row has a rate for each of its own keys, an active parent
      or class row has a rate for each of the character's stats, and the
      avatar's trait lookups are defined. */
  predicate Selectable(charGrowth: Table, classGrowth: Table, character: string, cls: string,
                       parent: string, good: string, bad: string) {
    character in charGrowth ==>
      var stats := charGrowth[character].keys;
      && Covers(charGrowth[character], stats)
      && (ParentActive(charGrowth, parent) ==> Covers(charGrowth[parent], stats))
      && (ClassActive(classGrowth, cls) ==> Covers(classGrowth[cls], stats))
      && (character == Avatar ==> TraitLookupsDefined(stats, good, bad))
  }

  /** The growth chart for the current selection, or nothing (the "select a
      character" message) when the character is not in the table. */
  function Compose(charGrowth: Table, classGrowth: Table, character: string, cls: string,
                   parent: string, good: string, bad: string): (r: Option<Composition>)
    requires Selectable(charGrowth, classGrowth, character, cls, parent, good, bad)
    ensures r.None? <==> character !in charGrowth
    ensures r.Some? ==>
      var c := r.value;
      && c.stats == charGrowth[character].keys
      && |c.base| == |c.stats| && |c.total| == |c.stats|
      && (forall i :: 0 <= i < |c.stats| ==> c.base[i] == charGrowth[character].rates[c.stats[i]])
      && c.parentBonus == ParentBonus(charGrowth, parent, c.stats)
      && c.classBonus == ClassBonus(classGrowth, cls, c.stats)
      && c.traitBonus == TraitBonus(character, good, bad, c.stats)
      && (forall i :: 0 <= i < |c.stats| ==>
            c.total[i] == c.base[i] + c.parentBonus[i] + c.classBonus[i] + c.traitBonus[i])
  {
    if character !in charGrowth then None
    else
      var row := charGrowth[character];
      var stats := row.keys;
      var base := seq(|stats|, i requires 0 <= i < |stats| => row.rates[stats[i]]);
      var parentBonus := ParentBonus(charGrowth, parent, stats);
      var classBonus := ClassBonus(classGrowth, cls, stats);
      var traitBonus := TraitBonus(character, good, bad, stats);
      var total := seq(|stats|, i requires 0 <= i < |stats| =>
                         base[i] + parentBonus[i] + classBonus[i] + traitBonus[i]);
      Some(Composition(stats, base, parentBonus, classBonus, traitBonus, total))
  }

  function Sum(s: seq<int>): int {
    if s == [] then 0 else s[0] + Sum(s[1..])
  }

  /** The overall growth shown in the chart title. */
  function OverallTotal(c: Composition): int {
    Sum(c.total)
  }

  /** The sum of a pointwise sum of four sequences is the sum of their sums. */
  lemma {:induction false} SumPointwise(a: seq<int>, b: seq<int>, c: seq<int>, d: seq<int>, t: seq<int>)
    requires |a| == |t| && |b| == |t| && |c| == |t| && |d| == |t|
    requires forall i :: 0 <= i < |t| ==> t[i] == a[i] + b[i] + c[i] + d[i]
    ensures Sum(t) == Sum(a) + Sum(b) + Sum(c) + Sum(d)
  {
    if t != [] {
      SumPointwise(a[1..], b[1..], c[1..], d[1..], t[1..]);
    }
  }

  /** The title's overall total is the personal growth summed over all stats
      plus the summed parent, class and trait bonuses. */
  lemma OverallTotalSplits(charGrowth: Table, classGrowth: Table, character: string, cls: string,
                           parent: string, good: string, bad: string)
    requires Selectable(charGrowth, classGrowth, character, cls, parent, good, bad)
    requires character in charGrowth
    ensures var c := Compose(charGrowth, classGrowth, character, cls, parent, good, bad).value;
            OverallTotal(c) == Sum(c.base) + Sum(c.parentBonus) + Sum(c.classBonus) + Sum(c.traitBonus)
  {
    var c := Compose(charGrowth, classGrowth, character, cls, parent, good, bad).value;
    SumPointwise(c.base, c.parentBonus, c.classBonus, c.traitBonus, c.total);
  }

  predicate Distinct(stats: seq<string>) {
    forall i, j :: 0 <= i < j < |stats| ==> stats[i] != stats[j]
  }

  /** Over a row of distinct stats the avatar's trait adds +15 if the boon is
      one of them and -15 if the bane is one of them and differs from the
      boon: a boon and a different bane cancel out. */
  lemma {:induction false} TraitBonusSum(good: string, bad: string, stats: seq<string>)
    requires Distinct(stats)
    requires TraitLookupsDefined(stats, good, bad)
    ensures Sum(TraitBonus(Avatar, good, bad, stats))
         == (if good in stats then 15 else 0) + (if bad in stats && bad != good then -15 else 0)
  {
    if stats != [] {
      var rest := stats[1..];
      assert Distinct(rest);
      assert TraitLookupsDefined(rest, good, bad);
      TraitBonusSum(good, bad, rest);
      assert good in stats <==> stats[0] == good || good in rest;
      assert bad in stats <==> stats[0] == bad || bad in rest;
      assert stats[0] !in rest;
    }
  }

  /** For any character but the avatar, with neither a parent nor a class
      selected, the chart is the personal growth row, stat by stat. */
  lemma PlainGrowthIsPersonalGrowth(charGrowth: Table, classGrowth: Table, character: string,
                                    cls: string, parent: string, good: string, bad: string)
    requires Selectable(charGrowth, classGrowth, character, cls, parent, good, bad)
    requires character in charGrowth && character != Avatar
    requires !ParentActive(charGrowth, parent) && !ClassActive(classGrowth, cls)
    ensures var c := Compose(charGrowth, classGrowth, character, cls, parent, good, bad).value;
            && |c.total| == |charGrowth[character].keys|
            && forall i :: 0 <= i < |c.total| ==> c.total[i] == charGrowth[character].rates[charGrowth[character].keys[i]]
  {
  }

  /** One record of the character table after parsing: the name and
      category columns, and the remaining columns as the growth row. */
  datatype CharacterRecord = CharacterRecord(name: string, category: string, growth: GrowthRow)

  /** The names of the records in the given category, in record order. */
  function NamesIn(rows: seq<CharacterRecord>, category: string): seq<string> {
    if rows == [] then []
    else
      var last := rows[|rows| - 1];
      NamesIn(rows[..|rows| - 1], category) + (if last.category == category then [last.name] else [])
  }

  function CategoriesOf(rows: seq<CharacterRecord>): set<string> {
    set i | 0 <= i < |rows| :: rows[i].category
  }

  function NamesOf(rows: seq<CharacterRecord>): set<string> {
    set i | 0 <= i < |rows| :: rows[i].name
  }

  /** Record `i` is the last one with the given name. */
  predicate LastRowFor(rows: seq<CharacterRecord>, i: int, name: string) {
    0 <= i < |rows| && rows[i].name == name && forall j :: i < j < |rows| ==> rows[j].name != name
  }

  /** Each name in `data` maps to the growth row of the last record with that name. */
  ghost predicate HoldsLastRows(rows: seq<CharacterRecord>, data: Table) {
    forall n :: n in data ==> exists i :: LastRowFor(rows, i, n) && data[n] == rows[i].growth
  }

  /** `categories` lists, for each category that occurs, its records' names in order. */
  predicate GroupedBy(rows: seq<CharacterRecord>, categories: map<string, seq<string>>) {
    && categories.Keys == CategoriesOf(rows)
    && forall c :: c in categories ==> categories[c] == NamesIn(rows, c)
  }

  /** Reads the parsed records in order: each name maps to the growth row of
      the last record with that name, and each category that occurs maps to
      the names of its records, in record order. */
  method LoadWithCategory(rows: seq<CharacterRecord>) returns (data: Table, categories: map<string, seq<string>>)
    ensures data.Keys == NamesOf(rows)
    ensures forall n :: n in data ==> exists i :: LastRowFor(rows, i, n) && data[n] == rows[i].growth
    ensures categories.Keys == CategoriesOf(rows)
    ensures forall c :: c in categories ==> categories[c] == NamesIn(rows, c)
  {
    data := map[];
    categories := map[];
    var k := 0;
    while k < |rows|
      invariant 0 <= k <= |rows|
      invariant data.Keys == NamesOf(rows[..k])
      invariant HoldsLastRows(rows[..k], data)
      invariant GroupedBy(rows[..k], categories)
    {
      var row := rows[k];
      assert rows[..k + 1] == rows[..k] + [row];
      AppendRecord(rows[..k], row);
      LastRowStep(rows[..k], row, data);
      data := data[row.name := row.growth];
      GroupStep(rows[..k], row, categories);
      var names := if row.category in categories then categories[row.category] else [];
      categories := categories[row.category := names + [row.name]];
      k := k + 1;
    }
    assert rows[..k] == rows;
  }

  /** Storing one more record under its name keeps every name at its last record. */
  lemma LastRowStep(done: seq<CharacterRecord>, row: CharacterRecord, data: Table)
    requires HoldsLastRows(done, data)
    ensures HoldsLastRows(done + [row], data[row.name := row.growth])
  {
    var next := done + [row];
    var data' := data[row.name := row.growth];
    forall n | n in data'
      ensures exists i :: LastRowFor(next, i, n) && data'[n] == next[i].growth
    {
      if n == row.name {
        assert LastRowFor(next, |done|, n);
      } else {
        var i :| LastRowFor(done, i, n) && data[n] == done[i].growth;
        assert LastRowFor(next, i, n);
      }
    }
  }

  /** Appending one more record's name to its category's list, creating the
      list when the category is new, keeps the grouping exact. */
  lemma GroupStep(done: seq<CharacterRecord>, row: CharacterRecord, categories: map<string, seq<string>>)
    requires GroupedBy(done, categories)
    ensures var names := if row.category in categories then categories[row.category] else [];
            GroupedBy(done + [row], categories[row.category := names + [row.name]])
  {
    AppendRecord(done, row);
    if row.category !in categories {
      NamesInEmpty(done, row.category);
    }
  }

  /** Reading one more record adds its name and its category, and appends
      its name to its own category's list only. */
  lemma AppendRecord(done: seq<CharacterRecord>, row: CharacterRecord)
    ensures NamesOf(done + [row]) == NamesOf(done) + {row.name}
    ensures CategoriesOf(done + [row]) == CategoriesOf(done) + {row.category}
    ensures forall c :: NamesIn(done + [row], c) == NamesIn(done, c) + (if row.category == c then [row.name] else [])
  {
    var next := done + [row];
    assert next[..|next| - 1] == done;
    assert next[|next| - 1] == row;
    assert NamesOf(next) == NamesOf(done) + {row.name} by {
      forall n ensures n in NamesOf(next) <==> n in NamesOf(done) + {row.name} {
        if n in NamesOf(next) {
          var i :| 0 <= i < |next| && next[i].name == n;
          if i < |done| { assert done[i].name == n; }
        }
        if n in NamesOf(done) {
          var i :| 0 <= i < |done| && done[i].name == n;
          assert next[i].name == n;
        }
        if n == row.name { assert next[|done|].name == n; }
      }
    }
    assert CategoriesOf(next) == CategoriesOf(done) + {row.category} by {
      forall c ensures c in CategoriesOf(next) <==> c in CategoriesOf(done) + {row.category} {
        if c in CategoriesOf(next) {
          var i :| 0 <= i < |next| && next[i].category == c;
          if i < |done| { assert done[i].category == c; }
        }
        if c in CategoriesOf(done) {
          var i :| 0 <= i < |done| && done[i].category == c;
          assert next[i].category == c;
        }
        if c == row.category { assert next[|done|].category == c; }
      }
    }
  }

  /** A category has no names exactly when no record has that category, so
      the loaded table holds no empty category list. */
  lemma {:induction false} NamesInEmpty(rows: seq<CharacterRecord>, category: string)
    ensures NamesIn(rows, category) == [] <==> category !in CategoriesOf(rows)
  {
    if rows != [] {
      var init := rows[..|rows| - 1];
      NamesInEmpty(init, category);
      assert CategoriesOf(rows) == CategoriesOf(init) + {rows[|rows| - 1].category} by {
        forall c ensures c in CategoriesOf(rows) <==> c in CategoriesOf(init) + {rows[|rows| - 1].category} {
          if c in CategoriesOf(rows) {
            var i :| 0 <= i < |rows| && rows[i].category == c;
            if i < |rows| - 1 { assert init[i].category == c; }
          }
        }
      }
    }
  }

  /** Grouping two runs of records one after the other appends the second
      run's names after the first's, category by category. */
  lemma {:induction false} NamesInConcat(a: seq<CharacterRecord>, b: seq<CharacterRecord>, category: string)
    ensures NamesIn(a + b, category) == NamesIn(a, category) + NamesIn(b, category)
  {
    if b != [] {
      var init := b[..|b| - 1];
      assert (a + b)[..|a + b| - 1] == a + init;
      assert (a + b)[|a + b| - 1] == b[|b| - 1];
      NamesInConcat(a, init, category);
    } else {
      assert a + b == a;
    }
  }

  /** Every record's name is appended exactly once, to its own category's
      list, between the names of the records before it and those after it;
      the other categories' lists do not see it. */
  lemma EachRecordAppendedOnce(before: seq<CharacterRecord>, row: CharacterRecord,
                               after: seq<CharacterRecord>, category: string)
    ensures NamesIn(before + [row] + after, category)
         == NamesIn(before, category) + (if row.category == category then [row.name] else [])
            + NamesIn(after, category)
  {
    NamesInConcat(before + [row], after, category);
    NamesInConcat(before, [row], category);
    assert [row][..0] == [];
  }

  /** A name is listed under a category exactly when some record with that
      name has that category. */
  lemma {:induction false} NamesInMembership(rows: seq<CharacterRecord>, category: string, name: string)
    ensures name in NamesIn(rows, category)
        <==> exists i :: 0 <= i < |rows| && rows[i].category == category && rows[i].name == name
  {
    if rows != [] {
      var init := rows[..|rows| - 1];
      NamesInMembership(init, category, name);
      if exists i :: 0 <= i < |rows| && rows[i].category == category && rows[i].name == name {
        var i :| 0 <= i < |rows| && rows[i].category == category && rows[i].name == name;
        if i < |rows| - 1 { assert init[i] == rows[i]; }
      }
    }
  }
}
