/**
  Editing sessions on a fresh panel draft, each with the outcome the
  composable gives: positional aliases, the per-chart-type limits, duplicate
  columns, the timestamp histogram, stale aliases after a removal, the colour
  order, the filter round-trip, the field-values callback and the PromQL mode
  flag. Column names are parameters, so each session holds for any columns.
*/
module Scenarios {
  import opened PanelData
  import opened PanelEdits
  import opened DashboardPanel
  import Label

  /** The X entries after distinct columns `a`, `b`, `c` are added in that order, outside custom-query mode. */
  lemma ThreeXColumns(a: string, b: string, c: string, ts: string)
    requires a != b && b != c && a != c
    ensures Columns(AddedX(AddedX(AddedX([], a, false, ts), b, false, ts), c, false, ts)) == [a, b, c]
    ensures AliasesPositional(AddedX(AddedX(AddedX([], a, false, ts), b, false, ts), c, false, ts), XAliasPrefix, false)
  {
    var x1 := AddedX([], a, false, ts);
    AddedXColumns([], a, false, ts);
    assert Columns(x1) == [a];
    var x2 := AddedX(x1, b, false, ts);
    AddedXColumns(x1, b, false, ts);
    assert Columns(x2) == [a, b];
    AddedXColumns(x2, c, false, ts);
    AddedXEntries(x2, c, false, ts);
  }

  /** Positional aliases outside custom-query mode, for the first three positions. */
  lemma ThreeAliases(items: seq<AxisItem>)
    requires |items| == 3 && AliasesPositional(items, XAliasPrefix, false)
    ensures Aliases(items) == ["x_axis_1", "x_axis_2", "x_axis_3"]
  {
    assert NatToString(1) == "1" && NatToString(2) == "2" && NatToString(3) == "3";
    assert items[0].alias == "x_axis_1";
    assert items[1].alias == "x_axis_2";
    assert items[2].alias == "x_axis_3";
  }

  /** Three columns on a table chart are aliased `x_axis_1` to `x_axis_3`, in order. */
  method TableAliases(a: string, b: string, c: string, ts: string) returns (aliases: seq<string>)
    requires a != b && b != c && a != c
    ensures aliases == ["x_axis_1", "x_axis_2", "x_axis_3"]
  {
    var p := new Panel();
    p.chartType := Table;
    p.AddXAxisItem(a, ts);
    p.AddXAxisItem(b, ts);
    p.AddXAxisItem(c, ts);
    assert p.x == AddedX(AddedX(AddedX([], a, false, ts), b, false, ts), c, false, ts);
    ThreeXColumns(a, b, c, ts);
    assert |p.x| == |Columns(p.x)| == 3;
    ThreeAliases(p.x);
    aliases := Aliases(p.x);
  }

  /** A pie chart takes one X column; the second is refused. */
  method PieSecondXRejected(a: string, b: string, ts: string) returns (columns: seq<string>)
    ensures columns == [a]
  {
    var p := new Panel();
    p.chartType := Pie;
    p.AddXAxisItem(a, ts);
    AddedXColumns([], a, false, ts);
    p.AddXAxisItem(b, ts);
    columns := Columns(p.x);
  }

  /** A metric chart takes no X column at all. */
  method MetricXRejected(a: string, ts: string) returns (count: nat)
    ensures count == 0
  {
    var p := new Panel();
    p.chartType := Metric;
    p.AddXAxisItem(a, ts);
    count := |p.x|;
  }

  /** Adding a column already on the X axis only renumbers. */
  method DuplicateXIgnored(a: string, ts: string) returns (columns: seq<string>)
    ensures columns == [a]
  {
    var p := new Panel();
    p.AddXAxisItem(a, ts);
    AddedXColumns([], a, false, ts);
    var x1 := p.x;
    p.AddXAxisItem(a, ts);
    AddedXColumns(x1, a, false, ts);
    columns := Columns(p.x);
  }

  /** The timestamp column gets the histogram aggregation, any other column none. */
  method TimestampHistogram(ts: string, other: string) returns (first: Option<Aggregation>, second: Option<Aggregation>)
    requires other != ts
    ensures first == Some(Histogram) && second == None
  {
    var p := new Panel();
    p.AddXAxisItem(ts, ts);
    AddedXColumns([], ts, false, ts);
    var x1 := p.x;
    p.AddXAxisItem(other, ts);
    AddedXEntries(x1, other, false, ts);
    AddedXEntries([], ts, false, ts);
    first, second := p.x[0].aggregationFunction, p.x[1].aggregationFunction;
  }

  /** After distinct `a` and `b` are added, the entry for `b` is second and aliased `x_axis_2`. */
  lemma TwoXShape(a: string, b: string, ts: string)
    requires a != b
    ensures Columns(AddedX(AddedX([], a, false, ts), b, false, ts)) == [a, b]
    ensures AddedX(AddedX([], a, false, ts), b, false, ts)[1].alias == "x_axis_2"
  {
    var x1 := AddedX([], a, false, ts);
    AddedXColumns([], a, false, ts);
    assert Columns(x1) == [a];
    AddedXEntries(x1, b, false, ts);
    assert NatToString(2) == "2";
  }

  /** Taking out `a` leaves `b` in front, with its old alias. */
  lemma RemoveFirstOfTwoX(a: string, b: string, ts: string)
    requires a != b
    ensures var x := AddedX(AddedX([], a, false, ts), b, false, ts);
      |RemoveFirst(x, Columns(x), a)| == 1 && RemoveFirst(x, Columns(x), a)[0].alias == "x_axis_2"
  {
    TwoXShape(a, b, ts);
    var x := AddedX(AddedX([], a, false, ts), b, false, ts);
    assert FirstIndex(Columns(x), a) == 0;
  }

  /**
    Removal does not renumber: after the first of two X columns is removed,
    the remaining one keeps the alias `x_axis_2` until the next addition.
  */
  method StaleAliasAfterRemoval(a: string, b: string, ts: string) returns (alias: string)
    requires a != b
    ensures alias == "x_axis_2"
  {
    var p := new Panel();
    p.chartType := Table;
    p.AddXAxisItem(a, ts);
    p.AddXAxisItem(b, ts);
    ghost var x := AddedX(AddedX([], a, false, ts), b, false, ts);
    assert p.x == x;
    p.RemoveXAxisItem(a);
    assert p.x == RemoveFirst(x, Columns(x), a);
    RemoveFirstOfTwoX(a, b, ts);
    alias := p.x[0].alias;
  }

  /** The colours of distinct `a` and `b`, added to a chart without a Y limit. */
  lemma TwoYColors(a: string, b: string)
    requires a != b
    ensures UsedColors(AddedY(AddedY([], a, false), b, false)) == [Some("#5960b2"), Some("#c23531")]
  {
    var ys := AddAllY([a, b], false);
    assert AddAllY([a], false) == AddedY([], a, false) by { assert [a][..0] == []; }
    assert ys == AddedY(AddAllY([a], false), b, false) by { assert [a, b][..1] == [a]; }
    DistinctYAddsFollowPalette([a, b], false);
    assert ys[0].color == Some(Palette[0]) && ys[1].color == Some(Palette[1]);
    assert UsedColors(ys) == [ys[0].color, ys[1].color];
  }

  /** The first two Y columns of a bar chart receive the first two palette colours. */
  method YColorsInOrder(a: string, b: string) returns (colors: seq<Option<string>>)
    requires a != b
    ensures colors == [Some("#5960b2"), Some("#c23531")]
  {
    var p := new Panel();
    p.AddYAxisItem(a);
    p.AddYAxisItem(b);
    assert p.y == AddedY(AddedY([], a, false), b, false);
    TwoYColors(a, b);
    colors := UsedColors(p.y);
  }

  /** A filter added for a new column and then removed leaves no filter behind. */
  method FilterRoundTrip(name: string, org: string) returns (filters: seq<FilterItem>)
    ensures filters == []
  {
    var p := new Panel();
    var request := p.AddFilteredItem(name, org);
    p.RemoveFilterItem(name);
    RemoveUndoesAddFilter([], name);
    filters := p.filter;
  }

  /** The values of the first hit are cached for the column, without the empty keys. */
  method FieldValuesCached(name: string, org: string) returns (cache: seq<FilterValue>, request: FieldValuesRequest)
    ensures cache == [FilterValue(name, Some(["info", "error"]))]
    ensures request.fields == [name] && request.size == 10
  {
    var p := new Panel();
    request := p.AddFilteredItem(name, org);
    assert p.filterValue == [];
    p.OnFieldValues(name, HitWithKeys(["info", "", "error"]));
    assert Label.NonEmpty(["info", "", "error"]) == ["info", "error"] by {
      assert ["info", "", "error"][1..] == ["", "error"];
      assert ["", "error"][1..] == ["error"];
      assert ["error"][1..] == [];
    }
    cache := p.filterValue;
  }

  /** A response whose first hit has no values leaves the cache as the addition left it. */
  method FieldValuesWithoutValues(name: string, org: string) returns (cache: seq<FilterValue>)
    ensures cache == []
  {
    var p := new Panel();
    var request := p.AddFilteredItem(name, org);
    p.OnFieldValues(name, HitWithoutValues);
    cache := p.filterValue;
  }

  /** PromQL mode needs a metrics stream, a custom query and the `promql` query type. */
  method PromqlModeOnlyForCustomMetrics() returns (before: bool, after: bool)
    ensures !before && after
  {
    var p := new Panel();
    p.streamType := "metrics";
    p.queryType := "promql";
    before := PromqlMode(p.streamType, p.customQuery, p.queryType);
    p.customQuery := true;
    after := PromqlMode(p.streamType, p.customQuery, p.queryType);
  }

  /** Emptying the axes and filters keeps the cached filter values. */
  method RemoveXYFiltersKeepsCache(name: string, org: string) returns (filters: seq<FilterItem>, cache: seq<FilterValue>)
    ensures filters == [] && cache == [FilterValue(name, None)]
  {
    var p := new Panel();
    var request := p.AddFilteredItem(name, org);
    p.OnFieldValues(name, NoHit);
    p.RemoveXYFilters();
    filters, cache := p.filter, p.filterValue;
  }
}
