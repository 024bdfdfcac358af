/**
  The dashboard panel draft that the panel editor keeps while a panel is being
  built, and the operations the editor's buttons and drop targets call on it.
  Each operation is specified by the pure edit of `PanelEdits` it performs on
  the entry lists; `Valid` is the invariant they all keep.
*/
module DashboardPanel {
  import opened PanelData
  import opened PanelEdits

  /** What the success callback of the field-values request finds at `res.data.hits[0]`. */
  datatype FirstHit =
    | NoHit                              // no first hit: the pushed value is undefined
    | HitWithoutValues                   // a first hit without `values`: the callback throws
    | HitWithKeys(keys: seq<string>)     // the `key` of each of its `values`, in order

  /** The arguments of the field-values request `addFilteredItem` sends. */
  datatype FieldValuesRequest = FieldValuesRequest(
    orgIdentifier: string,
    streamName: string,
    fields: seq<string>,
    size: nat)

  /**
    One `forEach` of `updateArrayAlias` over a list of entries: each entry's
    alias is overwritten in turn by its positional value.
  */
  method Renumber(items: seq<AxisItem>, prefix: string, customQuery: bool) returns (r: seq<AxisItem>)
    ensures r == WithAliases(items, prefix, customQuery)
  {
    r := items;
    var i := 0;
    while i < |r|
      invariant 0 <= i <= |r| == |items|
      invariant forall j :: 0 <= j < i ==> r[j] == items[j].(alias := AliasAt(prefix, j, customQuery, items[j].column))
      invariant forall j :: i <= j < |r| ==> r[j] == items[j]
    {
      r := r[i := r[i].(alias := AliasAt(prefix, i, customQuery, r[i].column))];
      i := i + 1;
    }
  }

  /**
    After an addition, the axis that was renumbered without a push keeps its
    columns, and its aliases are distinct when its columns are.
  */
  lemma OtherAxisAfterAdd(other0: seq<AxisItem>, other: seq<AxisItem>, otherPrefix: string, customQuery: bool)
    requires other == WithAliases(other0, otherPrefix, customQuery)
    ensures Columns(other) == Columns(other0)
    ensures NoDuplicates(Columns(other0)) ==> NoDuplicates(Aliases(other))
  {
    WithAliasesKeeps(other0, otherPrefix, customQuery);
    if NoDuplicates(Columns(other0)) {
      WithAliasesDistinct(other0, otherPrefix, customQuery);
    }
  }

  class Panel {
    var chartType: ChartType
    var stream: string
    var streamType: string
    var queryType: string
    var query: string
    var customQuery: bool
    var x: seq<AxisItem>
    var y: seq<AxisItem>
    var filter: seq<FilterItem>
    var filterValue: seq<FilterValue>

    /** The draft `getDefaultDashboardPanelData` builds: a bar chart over a logs stream, in SQL mode, with no entries. */
    ghost predicate IsDefault()
      reads this
    {
      && chartType == Bar && stream == "" && streamType == DefaultStreamType
      && queryType == DefaultQueryType && query == "" && !customQuery
      && x == [] && y == [] && filter == [] && filterValue == []
    }

    /**
      No column is selected twice on an axis or filtered twice, and no two
      entries of an axis share an alias.
    */
    ghost predicate Valid()
      reads this
    {
      && NoDuplicates(Columns(x)) && NoDuplicates(Columns(y))
      && NoDuplicates(FilterColumns(filter))
      && NoDuplicates(Aliases(x)) && NoDuplicates(Aliases(y))
    }

    constructor ()
      ensures IsDefault() && Valid()
      ensures !PromqlMode(streamType, customQuery, queryType)
    {
      chartType, stream, streamType := Bar, "", DefaultStreamType;
      queryType, query, customQuery := DefaultQueryType, "", false;
      x, y, filter, filterValue := [], [], [], [];
    }

    /** `resetDashboardPanelData`: back to the default draft. */
    method ResetDashboardPanelData()
      modifies this
      ensures IsDefault() && Valid()
      ensures !PromqlMode(streamType, customQuery, queryType)
    {
      chartType, stream, streamType := Bar, "", DefaultStreamType;
      queryType, query, customQuery := DefaultQueryType, "", false;
      x, y, filter, filterValue := [], [], [], [];
    }

    /** `updateArrayAlias`: every X and Y alias set to its positional value. */
    method UpdateArrayAlias()
      modifies this`x, this`y
      ensures x == WithAliases(old(x), XAliasPrefix, customQuery)
      ensures y == WithAliases(old(y), YAliasPrefix, customQuery)
    {
      x := Renumber(x, XAliasPrefix, customQuery);
      y := Renumber(y, YAliasPrefix, customQuery);
    }

    /**
      `addXAxisItem`: nothing changes when the chart type admits no further X
      entry; otherwise the column is pushed unless present, and both axes are
      renumbered. `timestampColumn` is the configured timestamp column.
    */
    method AddXAxisItem(name: string, timestampColumn: string)
      modifies this`x, this`y
      ensures IsAddXAxisNotAllowed(chartType, |old(x)|) ==> x == old(x) && y == old(y)
      ensures !IsAddXAxisNotAllowed(chartType, |old(x)|) ==>
                && x == AddedX(old(x), name, customQuery, timestampColumn)
                && y == WithAliases(old(y), YAliasPrefix, customQuery)
      ensures old(Valid()) ==> Valid()
    {
      if IsAddXAxisNotAllowed(chartType, |x|) {
        return;
      }
      ghost var x0, y0 := x, y;
      if name !in Columns(x) {
        x := x + [NewXAxisItem(name, customQuery, timestampColumn, |x|)];
      }
      assert x == PushX(x0, name, customQuery, timestampColumn);
      UpdateArrayAlias();
      OtherAxisAfterAdd(y0, y, YAliasPrefix, customQuery);
      if NoDuplicates(Columns(x0)) {
        AddedXDistinct(x0, name, customQuery, timestampColumn);
      }
    }

    /**
      `addYAxisItem`: nothing changes when the chart type admits no further Y
      entry; otherwise the column is pushed unless present, coloured by
      `getNewColorValue`, and both axes are renumbered.
    */
    method AddYAxisItem(name: string)
      modifies this`x, this`y
      ensures IsAddYAxisNotAllowed(chartType, |old(y)|) ==> x == old(x) && y == old(y)
      ensures !IsAddYAxisNotAllowed(chartType, |old(y)|) ==>
                && y == AddedY(old(y), name, customQuery)
                && x == WithAliases(old(x), XAliasPrefix, customQuery)
      ensures old(Valid()) ==> Valid()
    {
      if IsAddYAxisNotAllowed(chartType, |y|) {
        return;
      }
      ghost var x0, y0 := x, y;
      if name !in Columns(y) {
        y := y + [NewYAxisItem(name, customQuery, y)];
      }
      assert y == PushY(y0, name, customQuery);
      UpdateArrayAlias();
      OtherAxisAfterAdd(x0, x, XAliasPrefix, customQuery);
      if NoDuplicates(Columns(y0)) {
        AddedYDistinct(y0, name, customQuery);
      }
    }

    /** `removeXAxisItem`: the first X entry on the column is taken out, if there is one. */
    method RemoveXAxisItem(name: string)
      modifies this`x
      ensures x == RemoveFirst(old(x), Columns(old(x)), name)
      ensures old(Valid()) ==> Valid() && name !in Columns(x)
    {
      RemoveAxisSpec(x, name);
      var index := FirstIndex(Columns(x), name);
      if index >= 0 {
        x := RemoveAt(x, index);
      }
    }

    /** `removeYAxisItem`: the first Y entry on the column is taken out, if there is one. */
    method RemoveYAxisItem(name: string)
      modifies this`y
      ensures y == RemoveFirst(old(y), Columns(old(y)), name)
      ensures old(Valid()) ==> Valid() && name !in Columns(y)
    {
      RemoveAxisSpec(y, name);
      var index := FirstIndex(Columns(y), name);
      if index >= 0 {
        y := RemoveAt(y, index);
      }
    }

    /** `removeFilterItem`: the first filter on the column is taken out, if there is one. */
    method RemoveFilterItem(name: string)
      modifies this`filter
      ensures filter == RemoveFirst(old(filter), FilterColumns(old(filter)), name)
      ensures old(Valid()) ==> Valid() && name !in FilterColumns(filter)
    {
      ghost var filter0 := filter;
      var index := FirstIndex(FilterColumns(filter), name);
      if index >= 0 {
        filter := RemoveAt(filter, index);
      }
      assert filter == RemoveFirst(filter0, FilterColumns(filter0), name);
      if NoDuplicates(FilterColumns(filter0)) {
        RemoveFilterDistinct(filter0, name);
      }
    }

    /** The first step of `addFilteredItem`: a `list` filter is pushed for the column unless it has one. */
    method PushFilterItem(name: string)
      modifies this`filter
      ensures filter == PushFilter(old(filter), name)
      ensures name in FilterColumns(filter)
      ensures NoDuplicates(FilterColumns(old(filter))) ==> NoDuplicates(FilterColumns(filter))
    {
      AddFilterSpec(filter, name);
      if name !in FilterColumns(filter) {
        filter := filter + [NewFilterItem(name)];
      }
    }

    /** The second step of `addFilteredItem`: the first cached entry for the column is dropped. */
    method DropCachedValues(name: string)
      modifies this`filterValue
      ensures filterValue == ClearCached(old(filterValue), name)
    {
      var found := FirstIndex(FilterValueColumns(filterValue), name);
      if found >= 0 {
        filterValue := RemoveAt(filterValue, found);
      }
    }

    /**
      The synchronous part of `addFilteredItem`: the column gets a `list`
      filter unless it has one, its cached values are dropped, and the request
      for fresh values is returned. `orgIdentifier` is the selected organisation.
    */
    method AddFilteredItem(name: string, orgIdentifier: string) returns (request: FieldValuesRequest)
      modifies this`filter, this`filterValue
      ensures filter == PushFilter(old(filter), name)
      ensures filterValue == ClearCached(old(filterValue), name)
      ensures request == FieldValuesRequest(orgIdentifier, stream, [name], 10)
      ensures name in FilterColumns(filter)
      ensures old(Valid()) ==> Valid()
    {
      PushFilterItem(name);
      DropCachedValues(name);
      request := FieldValuesRequest(orgIdentifier, stream, [name], 10);
    }

    /**
      The success callback of the request sent for `name`: the values of the
      first hit are cached for the column; a first hit without values makes
      the callback throw, and the error handler changes nothing.
    */
    method OnFieldValues(name: string, hit: FirstHit)
      modifies this`filterValue
      ensures hit.HitWithoutValues? ==> filterValue == old(filterValue)
      ensures hit.NoHit? ==> filterValue == old(filterValue) + [FieldValuesEntry(name, None)]
      ensures hit.HitWithKeys? ==> filterValue == old(filterValue) + [FieldValuesEntry(name, Some(hit.keys))]
    {
      match hit
      case HitWithoutValues =>
      case NoHit =>
        filterValue := filterValue + [FieldValuesEntry(name, None)];
      case HitWithKeys(keys) =>
        filterValue := filterValue + [FieldValuesEntry(name, Some(keys))];
    }

    /** `removeXYFilters`: both axes and the filters are emptied; the value cache is kept. */
    method RemoveXYFilters()
      modifies this`x, this`y, this`filter
      ensures x == [] && y == [] && filter == []
      ensures Valid()
    {
      x, y, filter := [], [], [];
    }
  }
}
