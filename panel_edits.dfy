/**
  The edits the panel editor makes to its entry lists, as functions of the
  lists before the edit, and what each edit guarantees: which columns are
  present afterwards, what the new entry holds, which aliases and colours the
  entries carry, and which removal undoes which addition.
*/
module PanelEdits {
  import opened PanelData

  // ---------------------------------------------------------------------------
  // Additions

  /** The X entries once `addXAxisItem` has done its push: unchanged when the column is already there. */
  function PushX(x: seq<AxisItem>, name: string, customQuery: bool, timestampColumn: string): seq<AxisItem> {
    if name in Columns(x) then x else x + [NewXAxisItem(name, customQuery, timestampColumn, |x|)]
  }

  /** The Y entries once `addYAxisItem` has done its push. */
  function PushY(y: seq<AxisItem>, name: string, customQuery: bool): seq<AxisItem> {
    if name in Columns(y) then y else y + [NewYAxisItem(name, customQuery, y)]
  }

  /** The filters once `addFilteredItem` has done its push. */
  function PushFilter(filter: seq<FilterItem>, name: string): seq<FilterItem> {
    if name in FilterColumns(filter) then filter else filter + [NewFilterItem(name)]
  }

  /** The X entries after an `addXAxisItem` the chart type lets through: the push, then the renumbering. */
  function AddedX(x: seq<AxisItem>, name: string, customQuery: bool, timestampColumn: string): seq<AxisItem> {
    WithAliases(PushX(x, name, customQuery, timestampColumn), XAliasPrefix, customQuery)
  }

  /** The Y entries after an `addYAxisItem` the chart type lets through. */
  function AddedY(y: seq<AxisItem>, name: string, customQuery: bool): seq<AxisItem> {
    WithAliases(PushY(y, name, customQuery), YAliasPrefix, customQuery)
  }

  lemma AppendDistinct(s: seq<string>, v: string)
    requires NoDuplicates(s) && v !in s
    ensures NoDuplicates(s + [v])
  {
    var t := s + [v];
    forall i, j | 0 <= i < j < |t| ensures t[i] != t[j] {
      assert t[i] == s[i];
    }
  }

  lemma ColumnsOfAppend(items: seq<AxisItem>, e: AxisItem)
    ensures Columns(items + [e]) == Columns(items) + [e.column]
    ensures UsedColors(items + [e]) == UsedColors(items) + [e.color]
  {
  }

  /**
    The columns after `addXAxisItem` is let through: the new column is
    appended unless it is already present.
  */
  lemma AddedXColumns(x: seq<AxisItem>, name: string, customQuery: bool, timestampColumn: string)
    ensures Columns(AddedX(x, name, customQuery, timestampColumn))
         == if name in Columns(x) then Columns(x) else Columns(x) + [name]
    ensures |AddedX(x, name, customQuery, timestampColumn)| == if name in Columns(x) then |x| else |x| + 1
  {
    var p := PushX(x, name, customQuery, timestampColumn);
    WithAliasesKeeps(p, XAliasPrefix, customQuery);
    if name !in Columns(x) {
      ColumnsOfAppend(x, NewXAxisItem(name, customQuery, timestampColumn, |x|));
    }
  }

  /**
    The entries after `addXAxisItem` is let through: the new entry is the one
    built for the last position and keeps the alias it was pushed with; the
    earlier entries only have their aliases renumbered; and every alias is
    positional.
  */
  lemma AddedXEntries(x: seq<AxisItem>, name: string, customQuery: bool, timestampColumn: string)
    ensures name !in Columns(x) ==>
              && |AddedX(x, name, customQuery, timestampColumn)| == |x| + 1
              && AddedX(x, name, customQuery, timestampColumn)[|x|]
                 == NewXAxisItem(name, customQuery, timestampColumn, |x|)
    ensures forall i :: 0 <= i < |x| ==>
              && i < |AddedX(x, name, customQuery, timestampColumn)|
              && AddedX(x, name, customQuery, timestampColumn)[i]
                 == x[i].(alias := AliasAt(XAliasPrefix, i, customQuery, x[i].column))
    ensures AliasesPositional(AddedX(x, name, customQuery, timestampColumn), XAliasPrefix, customQuery)
  {
    WithAliasesKeeps(PushX(x, name, customQuery, timestampColumn), XAliasPrefix, customQuery);
  }

  /** An X addition keeps distinct columns distinct and gives distinct aliases. */
  lemma AddedXDistinct(x: seq<AxisItem>, name: string, customQuery: bool, timestampColumn: string)
    requires NoDuplicates(Columns(x))
    ensures NoDuplicates(Columns(AddedX(x, name, customQuery, timestampColumn)))
    ensures NoDuplicates(Aliases(AddedX(x, name, customQuery, timestampColumn)))
  {
    var p := PushX(x, name, customQuery, timestampColumn);
    WithAliasesKeeps(p, XAliasPrefix, customQuery);
    if name !in Columns(x) {
      ColumnsOfAppend(x, NewXAxisItem(name, customQuery, timestampColumn, |x|));
      AppendDistinct(Columns(x), name);
    }
    WithAliasesDistinct(p, XAliasPrefix, customQuery);
  }

  /** A Y addition keeps distinct columns distinct and gives distinct aliases. */
  lemma AddedYDistinct(y: seq<AxisItem>, name: string, customQuery: bool)
    requires NoDuplicates(Columns(y))
    ensures NoDuplicates(Columns(AddedY(y, name, customQuery)))
    ensures NoDuplicates(Aliases(AddedY(y, name, customQuery)))
  {
    var p := PushY(y, name, customQuery);
    WithAliasesKeeps(p, YAliasPrefix, customQuery);
    if name !in Columns(y) {
      ColumnsOfAppend(y, NewYAxisItem(name, customQuery, y));
      AppendDistinct(Columns(y), name);
    }
    WithAliasesDistinct(p, YAliasPrefix, customQuery);
  }

  /**
    The columns and colours after `addYAxisItem` is let through: the new
    column is appended unless it is already present, and its colour is
    `getNewColorValue` of the colours already in use; no other colour changes.
  */
  lemma AddedYColumns(y: seq<AxisItem>, name: string, customQuery: bool)
    ensures Columns(AddedY(y, name, customQuery))
         == if name in Columns(y) then Columns(y) else Columns(y) + [name]
    ensures |AddedY(y, name, customQuery)| == if name in Columns(y) then |y| else |y| + 1
    ensures UsedColors(AddedY(y, name, customQuery))
         == if name in Columns(y) then UsedColors(y)
            else UsedColors(y) + [Some(NewColorValue(UsedColors(y)))]
  {
    var p := PushY(y, name, customQuery);
    WithAliasesKeeps(p, YAliasPrefix, customQuery);
    if name !in Columns(y) {
      ColumnsOfAppend(y, NewYAxisItem(name, customQuery, y));
    }
  }

  /**
    The entries after `addYAxisItem` is let through: the new entry is the one
    built from the entries before and keeps the alias it was pushed with; the
    earlier entries only have their aliases renumbered; and every alias is
    positional.
  */
  lemma AddedYEntries(y: seq<AxisItem>, name: string, customQuery: bool)
    ensures name !in Columns(y) ==>
              && |AddedY(y, name, customQuery)| == |y| + 1
              && AddedY(y, name, customQuery)[|y|] == NewYAxisItem(name, customQuery, y)
    ensures forall i :: 0 <= i < |y| ==>
              && i < |AddedY(y, name, customQuery)|
              && AddedY(y, name, customQuery)[i]
                 == y[i].(alias := AliasAt(YAliasPrefix, i, customQuery, y[i].column))
    ensures AliasesPositional(AddedY(y, name, customQuery), YAliasPrefix, customQuery)
  {
    WithAliasesKeeps(PushY(y, name, customQuery), YAliasPrefix, customQuery);
  }

  /** An X addition the chart type lets through never takes the X axis past the chart type's limit. */
  lemma AddedXWithinCapacity(t: ChartType, x: seq<AxisItem>, name: string, customQuery: bool, timestampColumn: string)
    requires !IsAddXAxisNotAllowed(t, |x|)
    ensures XAxisCapacity(t).Some? ==> |AddedX(x, name, customQuery, timestampColumn)| <= XAxisCapacity(t).value
  {
    AddedXColumns(x, name, customQuery, timestampColumn);
  }

  /** A Y addition the chart type lets through never takes the Y axis past the chart type's limit. */
  lemma AddedYWithinCapacity(t: ChartType, y: seq<AxisItem>, name: string, customQuery: bool)
    requires !IsAddYAxisNotAllowed(t, |y|)
    ensures YAxisCapacity(t).Some? ==> |AddedY(y, name, customQuery)| <= YAxisCapacity(t).value
  {
    AddedYColumns(y, name, customQuery);
  }

  /**
    The filter `addFilteredItem` leaves: the column is present afterwards, it
    is appended as a fresh `list` filter unless it was there already, and
    distinct filter columns stay distinct.
  */
  lemma AddFilterSpec(filter: seq<FilterItem>, name: string)
    ensures name in FilterColumns(PushFilter(filter, name))
    ensures name in FilterColumns(filter) ==> PushFilter(filter, name) == filter
    ensures name !in FilterColumns(filter) ==>
              && FilterColumns(PushFilter(filter, name)) == FilterColumns(filter) + [name]
              && PushFilter(filter, name)[|filter|] == FilterItem("list", [], name, None, None)
    ensures NoDuplicates(FilterColumns(filter)) ==> NoDuplicates(FilterColumns(PushFilter(filter, name)))
  {
    if name !in FilterColumns(filter) {
      var r := PushFilter(filter, name);
      assert FilterColumns(r) == FilterColumns(filter) + [name];
      assert FilterColumns(r)[|filter|] == name;
      if NoDuplicates(FilterColumns(filter)) {
        AppendDistinct(FilterColumns(filter), name);
      }
    }
  }

  /** The Y entries of a chart without a Y limit after adding `names` one by one, starting from none. */
  function AddAllY(names: seq<string>, customQuery: bool): seq<AxisItem>
    decreases |names|
  {
    if names == [] then []
    else AddedY(AddAllY(names[..|names| - 1], customQuery), names[|names| - 1], customQuery)
  }

  lemma SomesAppend(cs: seq<string>, c: string)
    ensures Somes(cs + [c]) == Somes(cs) + [Some(c)]
  {
  }

  /** Without its last element, a sequence without repeats still has none, and lacks that element. */
  lemma DistinctFront(names: seq<string>)
    requires |names| > 0 && NoDuplicates(names)
    ensures NoDuplicates(names[..|names| - 1])
    ensures names[|names| - 1] !in names[..|names| - 1]
  {
    var front := names[..|names| - 1];
    forall i | 0 <= i < |front| ensures front[i] == names[i] {
    }
  }

  lemma FrontLast(s: seq<string>)
    requires |s| > 0
    ensures s[..|s| - 1] + [s[|s| - 1]] == s
  {
  }

  /** One more distinct column extends the columns and the colour run by one. */
  lemma AddAllYStep(names: seq<string>, customQuery: bool)
    requires |names| > 0
    requires Columns(AddAllY(names[..|names| - 1], customQuery)) == names[..|names| - 1]
    requires UsedColors(AddAllY(names[..|names| - 1], customQuery)) == Somes(ColorRun(Palette, |names| - 1))
    requires names[|names| - 1] !in names[..|names| - 1]
    ensures Columns(AddAllY(names, customQuery)) == names
    ensures UsedColors(AddAllY(names, customQuery)) == Somes(ColorRun(Palette, |names|))
  {
    var front, last := names[..|names| - 1], names[|names| - 1];
    var before := AddAllY(front, customQuery);
    var after := AddAllY(names, customQuery);
    assert after == AddedY(before, last, customQuery);
    AddedYColumns(before, last, customQuery);
    FrontLast(names);
    assert Columns(after) == front + [last];
    var run := ColorRun(Palette, |front|);
    var c := NewColorValue(Somes(run));
    assert ColorRun(Palette, |names|) == run + [c];
    SomesAppend(run, c);
    assert UsedColors(after) == Somes(run) + [Some(c)];
  }

  /**
    Adding distinct columns one by one gives entries for exactly those
    columns, in order, coloured by the run of `getNewColorValue` results.
  */
  lemma {:induction false} AddAllYColumnsAndColors(names: seq<string>, customQuery: bool)
    requires NoDuplicates(names)
    ensures Columns(AddAllY(names, customQuery)) == names
    ensures UsedColors(AddAllY(names, customQuery)) == Somes(ColorRun(Palette, |names|))
    decreases |names|
  {
    if names != [] {
      DistinctFront(names);
      AddAllYColumnsAndColors(names[..|names| - 1], customQuery);
      AddAllYStep(names, customQuery);
    }
  }

  /**
    Y colour order: adding distinct columns one by one to a chart without a Y
    limit colours the first twelve with the palette in order and every later
    one `#5960b2`.
  */
  lemma DistinctYAddsFollowPalette(names: seq<string>, customQuery: bool)
    requires NoDuplicates(names)
    ensures |AddAllY(names, customQuery)| == |names|
    ensures forall i :: 0 <= i < |names| ==>
              AddAllY(names, customQuery)[i].color == Some(if i < 12 then Palette[i] else "#5960b2")
  {
    AddAllYColumnsAndColors(names, customQuery);
    ColorRunFollowsPalette(|names|);
    var ys := AddAllY(names, customQuery);
    assert |ys| == |Columns(ys)| == |names|;
    forall i | 0 <= i < |names|
      ensures ys[i].color == Some(if i < 12 then Palette[i] else "#5960b2")
    {
      assert ys[i].color == UsedColors(ys)[i] == Some(ColorRun(Palette, |names|)[i]);
    }
  }

  // ---------------------------------------------------------------------------
  // Removals

  /** `findIndex` on the columns `cols` of the entries `s`, then `splice(index, 1)` when one is found. */
  function RemoveFirst<T>(s: seq<T>, cols: seq<string>, name: string): seq<T>
    requires |cols| == |s|
  {
    var k := FirstIndex(cols, name);
    if k >= 0 then RemoveAt(s, k) else s
  }

  /**
    First-match removal: nothing changes when no entry has the column;
    otherwise exactly the entry at the first position whose column matches is
    taken out and the others keep their order.
  */
  lemma RemoveFirstSpec<T>(s: seq<T>, cols: seq<string>, name: string)
    requires |cols| == |s|
    ensures name !in cols ==> RemoveFirst(s, cols, name) == s
    ensures name in cols ==>
              exists k :: 0 <= k < |s| && cols[k] == name && name !in cols[..k]
                && RemoveFirst(s, cols, name) == s[..k] + s[k + 1..]
  {
    var k := FirstIndex(cols, name);
    if k >= 0 {
      assert name !in cols[..k] by {
        forall j | 0 <= j < k ensures cols[..k][j] != name {
          assert cols[..k][j] == cols[j];
        }
      }
    }
  }

  /**
    Removing an axis entry takes the same position out of the columns and the
    aliases; with distinct columns the name is gone afterwards, and distinct
    columns and aliases stay distinct.
  */
  lemma RemoveAxisSpec(items: seq<AxisItem>, name: string)
    ensures Columns(RemoveFirst(items, Columns(items), name)) == RemoveFirst(Columns(items), Columns(items), name)
    ensures Aliases(RemoveFirst(items, Columns(items), name)) == RemoveFirst(Aliases(items), Columns(items), name)
    ensures NoDuplicates(Columns(items)) ==>
              && name !in Columns(RemoveFirst(items, Columns(items), name))
              && NoDuplicates(Columns(RemoveFirst(items, Columns(items), name)))
    ensures NoDuplicates(Aliases(items)) ==> NoDuplicates(Aliases(RemoveFirst(items, Columns(items), name)))
  {
    var k := FirstIndex(Columns(items), name);
    if k >= 0 {
      ColumnsOfRemoved(items, k);
      if NoDuplicates(Columns(items)) {
        RemoveAtKeepsDistinct(Columns(items), k);
      }
      if NoDuplicates(Aliases(items)) {
        RemoveAtKeepsDistinct(Aliases(items), k);
      }
    }
  }

  /** The same for filters. */
  lemma RemoveFilterSpec(filter: seq<FilterItem>, name: string)
    ensures FilterColumns(RemoveFirst(filter, FilterColumns(filter), name))
         == RemoveFirst(FilterColumns(filter), FilterColumns(filter), name)
  {
    var k := FirstIndex(FilterColumns(filter), name);
    if k >= 0 {
      FilterColumnsOfRemoved(filter, k);
    }
  }

  /** With distinct filter columns, the removed column is gone and the rest stay distinct. */
  lemma RemoveFilterDistinct(filter: seq<FilterItem>, name: string)
    requires NoDuplicates(FilterColumns(filter))
    ensures name !in FilterColumns(RemoveFirst(filter, FilterColumns(filter), name))
    ensures NoDuplicates(FilterColumns(RemoveFirst(filter, FilterColumns(filter), name)))
  {
    var cols := FilterColumns(filter);
    var k := FirstIndex(cols, name);
    RemoveFilterSpec(filter, name);
    if k >= 0 {
      assert RemoveFirst(cols, cols, name) == RemoveAt(cols, k);
      assert cols[k] == name;
      RemoveAtKeepsDistinct(cols, k);
    } else {
      assert RemoveFirst(cols, cols, name) == cols;
    }
  }

  /** Removing a filter just added for a new column gives back the filters as they were. */
  lemma RemoveUndoesAddFilter(filter: seq<FilterItem>, name: string)
    requires name !in FilterColumns(filter)
    ensures RemoveFirst(PushFilter(filter, name), FilterColumns(PushFilter(filter, name)), name) == filter
  {
    var r := PushFilter(filter, name);
    AddFilterSpec(filter, name);
    assert FilterColumns(r) == FilterColumns(filter) + [name];
    var k := FirstIndex(FilterColumns(r), name);
    assert k == |filter|;
    assert r[..k] == filter;
  }

  /** Removing an X column just added gives back the columns as they were. */
  lemma RemoveUndoesAddX(x: seq<AxisItem>, name: string, customQuery: bool, timestampColumn: string)
    requires name !in Columns(x)
    ensures Columns(RemoveFirst(AddedX(x, name, customQuery, timestampColumn),
                                Columns(AddedX(x, name, customQuery, timestampColumn)), name))
         == Columns(x)
  {
    var r := AddedX(x, name, customQuery, timestampColumn);
    AddedXColumns(x, name, customQuery, timestampColumn);
    RemoveAxisSpec(r, name);
    var cols := Columns(r);
    var k := FirstIndex(cols, name);
    assert k == |x|;
    assert cols[..k] == Columns(x);
  }

  // ---------------------------------------------------------------------------
  // Filter value cache

  /** `addFilteredItem` drops the first cached entry for the column. */
  function ClearCached(cache: seq<FilterValue>, name: string): seq<FilterValue> {
    RemoveFirst(cache, FilterValueColumns(cache), name)
  }

  /**
    Clearing and then storing a response: with at most one entry per column
    before, there is still at most one afterwards; the last entry is the
    response for the column; every entry for another column is kept, and no
    entry for another column is made up.
  */
  lemma RefreshCacheSpec(cache: seq<FilterValue>, name: string, firstHitKeys: Option<seq<string>>)
    ensures NoDuplicates(FilterValueColumns(cache)) ==>
              NoDuplicates(FilterValueColumns(ClearCached(cache, name) + [FieldValuesEntry(name, firstHitKeys)]))
    ensures var r := ClearCached(cache, name) + [FieldValuesEntry(name, firstHitKeys)];
              r[|r| - 1] == FieldValuesEntry(name, firstHitKeys)
    ensures forall v :: v in cache && v.column != name ==>
              v in ClearCached(cache, name) + [FieldValuesEntry(name, firstHitKeys)]
    ensures forall v :: v in ClearCached(cache, name) + [FieldValuesEntry(name, firstHitKeys)] && v.column != name ==>
              v in cache
    ensures forall c :: c != name ==>
              (c in FilterValueColumns(ClearCached(cache, name) + [FieldValuesEntry(name, firstHitKeys)])
               <==> c in FilterValueColumns(cache))
  {
    var cleared := ClearCached(cache, name);
    var e := FieldValuesEntry(name, firstHitKeys);
    var cols := FilterValueColumns(cache);
    var k := FirstIndex(cols, name);
    if k >= 0 {
      FilterValueColumnsOfRemoved(cache, k);
      forall v | v in cache && v.column != name ensures v in cleared {
        var j :| 0 <= j < |cache| && cache[j] == v;
        assert cols[j] == v.column;
        if j < k { assert cleared[j] == v; }
        else { assert j != k; assert cleared[j - 1] == v; }
      }
      forall v | v in cleared ensures v in cache {
        var j :| 0 <= j < |cleared| && cleared[j] == v;
        if j < k { assert cache[j] == v; } else { assert cache[j + 1] == v; }
      }
      forall c | c != name ensures c in FilterValueColumns(cleared) <==> c in cols {
        if c in cols {
          var j :| 0 <= j < |cols| && cols[j] == c;
          assert j != k;
          if j < k { assert FilterValueColumns(cleared)[j] == c; }
          else { assert FilterValueColumns(cleared)[j - 1] == c; }
        }
      }
    }
    assert FilterValueColumns(cleared + [e]) == FilterValueColumns(cleared) + [name];
    if NoDuplicates(cols) {
      if k >= 0 {
        RemoveAtKeepsDistinct(cols, k);
      }
      assert name !in FilterValueColumns(cleared);
      AppendDistinct(FilterValueColumns(cleared), name);
    }
  }
}
