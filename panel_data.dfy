/**
  The values a dashboard panel draft is made of: chart types, axis and filter
  entries, the colour palette, the per-chart-type axis limits, the positional
  alias scheme and the look-ups the editor performs on entry lists.
*/
module PanelData {
  import Label

  datatype Option<T> = None | Some(value: T)

  /** Chart types with their own axis rules; every other type ("line", "area", ...) is `Other`. */
  datatype ChartType = Bar | Pie | Donut | Metric | Table | Stacked | HStacked | Other

  datatype Aggregation = Histogram | Count

  /** One selected column on the X or Y axis. */
  datatype AxisItem = AxisItem(
    displayLabel: string,  // the entry's `label`
    alias: string,
    column: string,
    color: Option<string>,
    aggregationFunction: Option<Aggregation>)

  /** One filter on a column (`kind` is the entry's `type`). */
  datatype FilterItem = FilterItem(
    kind: string,
    values: seq<string>,
    column: string,
    operator: Option<string>,
    value: Option<string>)

  /** Cached suggestions for a filter column; `None` is an undefined value list. */
  datatype FilterValue = FilterValue(column: string, value: Option<seq<string>>)

  /** The twelve series colours, in the order they are handed out. */
  const Palette: seq<string> := [
    "#5960b2", "#c23531", "#2f4554", "#61a0a8", "#d48265", "#91c7ae",
    "#749f83", "#ca8622", "#bda29a", "#6e7074", "#546570", "#c4ccd3"
  ]

  const XAliasPrefix: string := "x_axis_"
  const YAliasPrefix: string := "y_axis_"

  const DefaultStreamType: string := "logs"
  const DefaultQueryType: string := "sql"

  // ---------------------------------------------------------------------------
  // Derived flags

  /** `promqlMode`: a metrics stream edited as a custom PromQL query. */
  function PromqlMode(streamType: string, customQuery: bool, queryType: string): bool {
    streamType == "metrics" && customQuery && queryType == "promql"
  }

  /** Most X-axis entries a chart type admits; `None` is no limit. */
  function XAxisCapacity(t: ChartType): Option<nat> {
    match t
    case Pie | Donut => Some(1)
    case Metric => Some(0)
    case Table => None
    case _ => Some(2)
  }

  /** Most Y-axis entries a chart type admits; `None` is no limit. */
  function YAxisCapacity(t: ChartType): Option<nat> {
    match t
    case Pie | Donut | Metric | Stacked | HStacked => Some(1)
    case _ => None
  }

  /** `isAddXAxisNotAllowed`, for a chart type and the current number of X entries. */
  function IsAddXAxisNotAllowed(t: ChartType, n: nat): (blocked: bool)
    ensures blocked <==> XAxisCapacity(t).Some? && n >= XAxisCapacity(t).value
  {
    match t
    case Pie | Donut => n >= 1
    case Metric => n >= 0
    case Table => false
    case _ => n >= 2
  }

  /** `isAddYAxisNotAllowed`, for a chart type and the current number of Y entries. */
  function IsAddYAxisNotAllowed(t: ChartType, n: nat): (blocked: bool)
    ensures blocked <==> YAxisCapacity(t).Some? && n >= YAxisCapacity(t).value
  {
    match t
    case Pie | Donut => n >= 1
    case Metric => n >= 1
    case Stacked | HStacked => n >= 1
    case _ => false
  }

  // ---------------------------------------------------------------------------
  // Projections and look-ups

  function Columns(items: seq<AxisItem>): seq<string> {
    seq(|items|, i requires 0 <= i < |items| => items[i].column)
  }

  function Aliases(items: seq<AxisItem>): seq<string> {
    seq(|items|, i requires 0 <= i < |items| => items[i].alias)
  }

  function UsedColors(items: seq<AxisItem>): seq<Option<string>> {
    seq(|items|, i requires 0 <= i < |items| => items[i].color)
  }

  function FilterColumns(filters: seq<FilterItem>): seq<string> {
    seq(|filters|, i requires 0 <= i < |filters| => filters[i].column)
  }

  function FilterValueColumns(cache: seq<FilterValue>): seq<string> {
    seq(|cache|, i requires 0 <= i < |cache| => cache[i].column)
  }

  predicate NoDuplicates<T(==)>(s: seq<T>) {
    forall i, j :: 0 <= i < j < |s| ==> s[i] != s[j]
  }

  /** `findIndex(it => it.column == name)` on the columns: the first match, or -1. */
  function FirstIndex(cols: seq<string>, name: string): (k: int)
    ensures -1 <= k < |cols|
    ensures k == -1 <==> name !in cols
    ensures 0 <= k ==> cols[k] == name && forall j :: 0 <= j < k ==> cols[j] != name
    decreases |cols|
  {
    if |cols| == 0 then -1
    else if cols[0] == name then 0
    else
      var k := FirstIndex(cols[1..], name);
      if k < 0 then -1 else k + 1
  }

  /** `splice(k, 1)`. */
  function RemoveAt<T>(s: seq<T>, k: nat): (r: seq<T>)
    requires k < |s|
    ensures |r| == |s| - 1
    ensures forall i :: 0 <= i < k ==> r[i] == s[i]
    ensures forall i :: k <= i < |r| ==> r[i] == s[i + 1]
  {
    s[..k] + s[k + 1..]
  }

  /** Taking one element out keeps the others distinct, and the one taken is gone. */
  lemma RemoveAtKeepsDistinct<T>(s: seq<T>, k: nat)
    requires k < |s| && NoDuplicates(s)
    ensures NoDuplicates(RemoveAt(s, k))
    ensures s[k] !in RemoveAt(s, k)
  {
    var r := RemoveAt(s, k);
    forall i, j | 0 <= i < j < |r| ensures r[i] != r[j] {
      var i' := if i < k then i else i + 1;
      var j' := if j < k then j else j + 1;
      assert r[i] == s[i'] && r[j] == s[j'];
    }
  }

  lemma ColumnsOfRemoved(items: seq<AxisItem>, k: nat)
    requires k < |items|
    ensures Columns(RemoveAt(items, k)) == RemoveAt(Columns(items), k)
    ensures Aliases(RemoveAt(items, k)) == RemoveAt(Aliases(items), k)
  {
  }

  lemma FilterColumnsOfRemoved(filters: seq<FilterItem>, k: nat)
    requires k < |filters|
    ensures FilterColumns(RemoveAt(filters, k)) == RemoveAt(FilterColumns(filters), k)
  {
  }

  lemma FilterValueColumnsOfRemoved(cache: seq<FilterValue>, k: nat)
    requires k < |cache|
    ensures FilterValueColumns(RemoveAt(cache, k)) == RemoveAt(FilterValueColumns(cache), k)
  {
  }

  // ---------------------------------------------------------------------------
  // Positional aliases

  function Digit(d: nat): char
    requires d < 10
  {
    (48 + d) as char
  }

  /** Decimal rendering of a number, as string concatenation in JavaScript renders it. */
  function NatToString(n: nat): (s: string)
    ensures |s| > 0
    decreases n
  {
    if n < 10 then [Digit(n)] else NatToString(n / 10) + [Digit(n % 10)]
  }

  /** Different numbers render differently. */
  lemma {:induction false} NatToStringInjective(a: nat, b: nat)
    requires NatToString(a) == NatToString(b)
    ensures a == b
    decreases a
  {
    var sa, sb := NatToString(a), NatToString(b);
    if a < 10 && b < 10 {
      assert Digit(a) == sa[0] == sb[0] == Digit(b);
      assert Digit(a) as int == 48 + a;
    } else if a < 10 || b < 10 {
      assert false;
    } else {
      var pa, pb := NatToString(a / 10), NatToString(b / 10);
      assert sa == pa + [Digit(a % 10)] && sb == pb + [Digit(b % 10)];
      assert |pa| == |pb|;
      assert pa == sa[..|pa|] == sb[..|pb|] == pb;
      assert Digit(a % 10) == sa[|pa|] == sb[|pb|] == Digit(b % 10);
      assert Digit(a % 10) as int == 48 + a % 10;
      NatToStringInjective(a / 10, b / 10);
    }
  }

  /** The alias of the entry at 0-based position `i`: the 1-based positional name, or the column in custom-query mode. */
  function AliasAt(prefix: string, i: nat, customQuery: bool, column: string): string {
    if customQuery then column else prefix + NatToString(i + 1)
  }

  /** Every entry's alias is the one its position gives it. */
  predicate AliasesPositional(items: seq<AxisItem>, prefix: string, customQuery: bool) {
    forall i :: 0 <= i < |items| ==> items[i].alias == AliasAt(prefix, i, customQuery, items[i].column)
  }

  /** One `forEach` of `updateArrayAlias`: every alias overwritten by its positional value. */
  function WithAliases(items: seq<AxisItem>, prefix: string, customQuery: bool): seq<AxisItem> {
    seq(|items|, i requires 0 <= i < |items| =>
      items[i].(alias := AliasAt(prefix, i, customQuery, items[i].column)))
  }

  /** Renumbering keeps every column and colour, and leaves every alias at its positional value. */
  lemma WithAliasesKeeps(items: seq<AxisItem>, prefix: string, customQuery: bool)
    ensures Columns(WithAliases(items, prefix, customQuery)) == Columns(items)
    ensures UsedColors(WithAliases(items, prefix, customQuery)) == UsedColors(items)
    ensures AliasesPositional(WithAliases(items, prefix, customQuery), prefix, customQuery)
  {
  }

  /** The aliases renumbering gives are distinct whenever the columns are or the mode is not custom. */
  lemma WithAliasesDistinct(items: seq<AxisItem>, prefix: string, customQuery: bool)
    requires customQuery ==> NoDuplicates(Columns(items))
    ensures NoDuplicates(Aliases(WithAliases(items, prefix, customQuery)))
  {
    var r := WithAliases(items, prefix, customQuery);
    forall i, j | 0 <= i < j < |r| ensures r[i].alias != r[j].alias {
      if !customQuery {
        var si, sj := NatToString(i + 1), NatToString(j + 1);
        if si == sj {
          NatToStringInjective(i + 1, j + 1);
        }
        assert (prefix + si)[|prefix|..] == si;
        assert (prefix + sj)[|prefix|..] == sj;
      } else {
        assert Columns(items)[i] != Columns(items)[j];
      }
    }
  }

  /** Renumbering entries whose aliases are already positional changes nothing. */
  lemma WithAliasesOfPositional(items: seq<AxisItem>, prefix: string, customQuery: bool)
    requires AliasesPositional(items, prefix, customQuery)
    ensures WithAliases(items, prefix, customQuery) == items
  {
    var r := WithAliases(items, prefix, customQuery);
    forall i | 0 <= i < |items| ensures r[i] == items[i] {
      assert r[i] == items[i].(alias := items[i].alias);
    }
  }

  /** Renumbering twice is renumbering once. */
  lemma WithAliasesIdempotent(items: seq<AxisItem>, prefix: string, customQuery: bool)
    ensures WithAliases(WithAliases(items, prefix, customQuery), prefix, customQuery)
         == WithAliases(items, prefix, customQuery)
  {
    WithAliasesKeeps(items, prefix, customQuery);
    WithAliasesOfPositional(WithAliases(items, prefix, customQuery), prefix, customQuery);
  }

  // ---------------------------------------------------------------------------
  // Colours

  /** `colors.filter(el => !used.includes(el))`. */
  function AvailableColors(palette: seq<string>, used: seq<Option<string>>): seq<string>
    decreases |palette|
  {
    if palette == [] then []
    else if Some(palette[0]) in used then AvailableColors(palette[1..], used)
    else [palette[0]] + AvailableColors(palette[1..], used)
  }

  /** The available colours are exactly the palette colours not in use. */
  lemma {:induction false} AvailableColorsSpec(palette: seq<string>, used: seq<Option<string>>)
    ensures forall c :: c in AvailableColors(palette, used) <==> c in palette && Some(c) !in used
    decreases |palette|
  {
    if palette != [] {
      AvailableColorsSpec(palette[1..], used);
      assert palette == [palette[0]] + palette[1..];
    }
  }

  /** The first available colour is the earliest palette entry not in use. */
  lemma {:induction false} FirstAvailable(palette: seq<string>, used: seq<Option<string>>)
    requires |AvailableColors(palette, used)| > 0
    ensures exists k :: 0 <= k < |palette| && palette[k] == AvailableColors(palette, used)[0]
              && Some(palette[k]) !in used
              && forall j :: 0 <= j < k ==> Some(palette[j]) in used
    decreases |palette|
  {
    if Some(palette[0]) in used {
      var tail := palette[1..];
      FirstAvailable(tail, used);
      var k :| 0 <= k < |tail| && tail[k] == AvailableColors(tail, used)[0]
                && Some(tail[k]) !in used
                && forall j :: 0 <= j < k ==> Some(tail[j]) in used;
      assert palette[k + 1] == tail[k];
      forall j | 0 <= j < k + 1 ensures Some(palette[j]) in used {
        if j > 0 { assert palette[j] == tail[j - 1]; }
      }
    } else {
      assert palette[0] == AvailableColors(palette, used)[0];
    }
  }

  ghost predicate AllColorsUsed(palette: seq<string>, used: seq<Option<string>>) {
    forall k :: 0 <= k < |palette| ==> Some(palette[k]) in used
  }

  /** `c` is the earliest colour of `palette` that `used` does not contain. */
  ghost predicate IsFirstFreeColor(palette: seq<string>, c: string, used: seq<Option<string>>) {
    exists k :: 0 <= k < |palette| && palette[k] == c && Some(c) !in used
      && forall j :: 0 <= j < k ==> Some(palette[j]) in used
  }

  /**
    The body of `getNewColorValue` over a palette: the first available colour,
    or the first palette colour when none is available.
  */
  function PickColor(palette: seq<string>, used: seq<Option<string>>): string
    requires |palette| > 0
  {
    var available := AvailableColors(palette, used);
    if |available| == 0 then palette[0] else available[0]
  }

  /**
    The colour picked is a palette colour: the earliest one not in use, and the
    first one once all of them are in use.
  */
  lemma PickColorSpec(palette: seq<string>, used: seq<Option<string>>)
    requires |palette| > 0
    ensures PickColor(palette, used) in palette
    ensures AllColorsUsed(palette, used) ==> PickColor(palette, used) == palette[0]
    ensures !AllColorsUsed(palette, used) ==> IsFirstFreeColor(palette, PickColor(palette, used), used)
  {
    var available := AvailableColors(palette, used);
    AvailableColorsSpec(palette, used);
    if |available| == 0 {
      assert forall k :: 0 <= k < |palette| ==> palette[k] !in available;
    } else {
      FirstAvailable(palette, used);
      assert available[0] in available;
    }
  }

  /** `getNewColorValue` for the Y entries' colours `used`. */
  function NewColorValue(used: seq<Option<string>>): string {
    PickColor(Palette, used)
  }

  /**
    Y colour choice: a palette colour, the earliest one no Y entry has yet,
    and `#5960b2` once all twelve are taken.
  */
  lemma NewColorValueSpec(used: seq<Option<string>>)
    ensures NewColorValue(used) in Palette
    ensures AllColorsUsed(Palette, used) ==> NewColorValue(used) == "#5960b2"
    ensures !AllColorsUsed(Palette, used) ==> IsFirstFreeColor(Palette, NewColorValue(used), used)
  {
    PickColorSpec(Palette, used);
  }

  lemma PaletteIsDistinct()
    ensures |Palette| == 12 && NoDuplicates(Palette)
  {
  }

  function Somes(cs: seq<string>): seq<Option<string>> {
    seq(|cs|, i requires 0 <= i < |cs| => Some(cs[i]))
  }

  /** While a prefix of a palette without repeats is in use, the next colour is handed out. */
  lemma NextColorInOrder(palette: seq<string>, before: seq<string>)
    requires NoDuplicates(palette)
    requires |before| < |palette|
    requires forall i :: 0 <= i < |before| ==> before[i] == palette[i]
    ensures PickColor(palette, Somes(before)) == palette[|before|]
  {
    var m := |before|;
    var used := Somes(before);
    var c := PickColor(palette, used);
    PickColorSpec(palette, used);
    assert forall j :: 0 <= j < m ==> used[j] == Some(palette[j]);
    assert Some(palette[m]) !in used;
    assert !AllColorsUsed(palette, used);
    var k :| 0 <= k < |palette| && palette[k] == c && Some(c) !in used
             && forall j :: 0 <= j < k ==> Some(palette[j]) in used;
    assert k == m;
  }

  /** Once every colour of a palette is in use, its first one is handed out again. */
  lemma NextColorExhausted(palette: seq<string>, before: seq<string>)
    requires 0 < |palette| <= |before|
    requires forall i :: 0 <= i < |palette| ==> before[i] == palette[i]
    ensures PickColor(palette, Somes(before)) == palette[0]
  {
    var used := Somes(before);
    forall k | 0 <= k < |palette| ensures Some(palette[k]) in used {
      assert used[k] == Some(palette[k]);
    }
    PickColorSpec(palette, used);
  }

  /** The colours `n` additions receive, one after the other, starting from no entries. */
  function ColorRun(palette: seq<string>, n: nat): (run: seq<string>)
    requires |palette| > 0
    ensures |run| == n
    decreases n
  {
    if n == 0 then []
    else
      var before := ColorRun(palette, n - 1);
      before + [PickColor(palette, Somes(before))]
  }

  /** The colour the `i`-th addition receives over a palette without repeats. */
  function ExpectedColor(palette: seq<string>, i: nat): string
    requires |palette| > 0
  {
    if i < |palette| then palette[i] else palette[0]
  }

  /** The colour handed out after a run that followed the palette. */
  lemma NextColorOfRun(palette: seq<string>, before: seq<string>)
    requires |palette| > 0 && NoDuplicates(palette)
    requires forall i :: 0 <= i < |before| ==> before[i] == ExpectedColor(palette, i)
    ensures PickColor(palette, Somes(before)) == ExpectedColor(palette, |before|)
  {
    if |before| < |palette| {
      NextColorInOrder(palette, before);
    } else {
      NextColorExhausted(palette, before);
    }
  }

  /** Over a palette without repeats, a run hands out the palette in order, then its first colour. */
  lemma {:induction false} ColorRunInOrder(palette: seq<string>, n: nat)
    requires |palette| > 0 && NoDuplicates(palette)
    ensures forall i :: 0 <= i < n ==> ColorRun(palette, n)[i] == ExpectedColor(palette, i)
    decreases n
  {
    if n > 0 {
      var before := ColorRun(palette, n - 1);
      ColorRunInOrder(palette, n - 1);
      NextColorOfRun(palette, before);
      assert ColorRun(palette, n) == before + [PickColor(palette, Somes(before))];
    }
  }

  /**
    Palette order: starting from no Y entries, the first twelve additions
    receive the palette colours in order and every later one `#5960b2`.
  */
  lemma ColorRunFollowsPalette(n: nat)
    ensures forall i :: 0 <= i < n ==>
              ColorRun(Palette, n)[i] == if i < 12 then Palette[i] else "#5960b2"
  {
    PaletteIsDistinct();
    ColorRunInOrder(Palette, n);
  }

  // ---------------------------------------------------------------------------
  // New entries

  /** The entry `addXAxisItem` pushes while the X axis holds `count` entries. */
  function NewXAxisItem(name: string, customQuery: bool, timestampColumn: string, count: nat): AxisItem {
    AxisItem(
      if customQuery then name else Label.GenerateLabelFromName(name),
      AliasAt(XAliasPrefix, count, customQuery, name),
      name,
      None,
      if name == timestampColumn then Some(Histogram) else None)
  }

  /** The entry `addYAxisItem` pushes onto the Y entries `y`. */
  function NewYAxisItem(name: string, customQuery: bool, y: seq<AxisItem>): AxisItem {
    AxisItem(
      if customQuery then name else Label.GenerateLabelFromName(name),
      AliasAt(YAliasPrefix, |y|, customQuery, name),
      name,
      Some(NewColorValue(UsedColors(y))),
      Some(Count))
  }

  /** The entry `addFilteredItem` pushes. */
  function NewFilterItem(name: string): FilterItem {
    FilterItem("list", [], name, None, None)
  }

  /**
    The cache entry the success callback pushes: the keys of the first hit with
    the falsy (empty) ones removed and the others in response order, or an
    undefined value when there is no hit.
  */
  function FieldValuesEntry(name: string, firstHitKeys: Option<seq<string>>): (e: FilterValue)
    ensures e.column == name
    ensures firstHitKeys.None? <==> e.value.None?
    ensures firstHitKeys.Some? ==>
              (forall s :: s in e.value.value <==> s in firstHitKeys.value && s != "")
              && (forall s :: s != "" ==> multiset(e.value.value)[s] == multiset(firstHitKeys.value)[s])
              && Label.IsSubsequence(e.value.value, firstHitKeys.value)
  {
    match firstHitKeys
    case None => FilterValue(name, None)
    case Some(keys) =>
      Label.NonEmptySpec(keys);
      FilterValue(name, Some(Label.NonEmpty(keys)))
  }
}
