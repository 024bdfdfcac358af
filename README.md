# Dashboard panel draft

A model of the panel-draft composable of the dashboard editor
(`web/src/composables/useDashboardPanel.ts`). While a user builds a chart, one
draft record holds the following:

- the chart type;
- the stream;
- the query mode;
- the columns chosen for the X and Y axes;
- the filters;
- a cache of suggested filter values.

The editor's controls call a small set of mutators on that record:

- add or remove an axis column;
- add or remove a filter;
- empty the axes and filters;
- reset the draft to its defaults.

Two derived flags say whether an axis takes another column. A third flag,
`promqlMode`, says whether the draft is a custom PromQL query over a metrics
stream.

The project has five modules:

- `Label` (`label.dfy`): `generateLabelFromName` as a pure function. It covers
  separator replacement, splitting on spaces, capitalising each piece, dropping
  empty pieces and joining. Lemmas prove the label's shape and that the
  conversion is idempotent.
- `PanelData` (`panel_data.dfy`):
  - the entries as datatypes, and the palette and defaults;
  - the cardinality tables behind `isAddXAxisNotAllowed` and `isAddYAxisNotAllowed`;
  - `promqlMode`;
  - positional aliases (`updateArrayAlias`) and the colour choice of `getNewColorValue`;
  - the `findIndex`/`splice` lookup;
  - the cache entry built by the success callback of the field-values request.
- `PanelEdits` (`panel_edits.dfy`): each mutation written as a pure edit of the
  entry lists, plus lemmas about those edits:
  - uniqueness;
  - the new entry's fields;
  - renumbering;
  - the per-chart-type limits;
  - the order in which Y colours are handed out;
  - first-match removal;
  - add/remove round trips;
  - refreshing the cache.
- `DashboardPanel` (`panel.dfy`): the draft as a class `Panel` whose fields the
  mutators update in place. Each mutator is proved against its pure edit, and
  each keeps the invariant `Valid`. `Valid` says that:
  - no axis and no filter list holds a column twice;
  - no two entries of an axis share an alias.
- `Scenarios` (`scenarios.dfy`): editing sessions on a fresh draft, with the
  outcome the composable gives. Column names are parameters.

The composable reads the store in two places. The model takes both as
parameters:

- the configured timestamp column becomes `timestampColumn` of `AddXAxisItem`;
- the selected organisation becomes `orgIdentifier` of `AddFilteredItem`.

The field-values request is not sent. `AddFilteredItem` returns the request's
arguments. Its success callback is `OnFieldValues`, which receives what the
response holds at the first hit.

Two behaviours of the code are worth stating plainly:

- Colour after exhaustion: once all twelve palette colours are in use,
  `getNewColorValue` takes the palette's first entry instead of cycling through
  the palette again (`useDashboardPanel.ts:176-179`). So as long as no Y column
  is removed, every Y column after the twelfth gets `#5960b2`. Removing a Y
  entry frees its colour, and `PanelData.PickColorSpec` says that colour is the
  next one handed out.
- Metric X limit: on a metric chart the X check is `length >= 0`
  (`useDashboardPanel.ts:105`), which always holds. An X column is therefore
  always refused, and the model gives a metric chart an X capacity of 0.

## Model

| member | source | states |
|---|---|---|
| Label.IsWhitespace | web/src/composables/useDashboardPanel.ts:94 | the characters `\s` matches: ECMAScript white space and line terminators |
| Label.IsSeparator | web/src/composables/useDashboardPanel.ts:94 | the class `[\_\-\s\.]`: underscore, hyphen, full stop or white space |
| Label.ToUpper | web/src/composables/useDashboardPanel.ts:94 | each ASCII lower-case letter becomes its own upper-case letter (`a` to `A` ... `z` to `Z`); every other character is kept; the result is never lower-case, and a separator stays a separator |
| Label.ReplaceSeparators | web/src/composables/useDashboardPanel.ts:94 | `replace(/[\_\-\s\.]/g, ' ')`: every separator character becomes one plain space, every other character is kept in place; used by `LabelFromPieces` and `LabelIsWellFormed` |
| Label.Split | web/src/composables/useDashboardPanel.ts:94 | `split(' ')` always yields at least one piece |
| Label.SplitPieces | web/src/composables/useDashboardPanel.ts:94 | no piece of `split(' ')` contains a space, and every character of a piece comes from the text |
| Label.JoinSplit | web/src/composables/useDashboardPanel.ts:94 | joining the pieces of `split(' ')` with single spaces gives back the text |
| Label.SplitJoin | web/src/composables/useDashboardPanel.ts:94 | splitting the join of space-free pieces gives back those pieces |
| Label.SplitWord | web/src/composables/useDashboardPanel.ts:94 | a space-free prefix extends the first piece of the rest of the text |
| Label.Join | web/src/composables/useDashboardPanel.ts:94 | `join(' ')`: the pieces with one space between each pair; `JoinSplit` and `SplitJoin` show it inverts `Split` |
| Label.Capitalize | web/src/composables/useDashboardPanel.ts:94 | `charAt(0).toUpperCase() + slice(1)`: the first character upper-cased, the rest kept; `CapitalizeFixed` shows it leaves a capitalised string as it is |
| Label.CapitalizeAll | web/src/composables/useDashboardPanel.ts:94 | the `map` step: every piece capitalised, in order; `WordsAreFixed` and `LabelWordsAreWords` state its effect |
| Label.NonEmpty | web/src/composables/useDashboardPanel.ts:94 | `filter(it => it)` on strings never makes the list longer |
| Label.NonEmptySingle | web/src/composables/useDashboardPanel.ts:94 | a single string survives `filter(it => it)` exactly when it is not empty |
| Label.NonEmptyAppend | web/src/composables/useDashboardPanel.ts:94 | filtering a concatenation is the concatenation of the filtered parts, so the order of the kept strings is the input's |
| Label.NonEmptySpec | web/src/composables/useDashboardPanel.ts:94 | the filtered list holds exactly the non-empty strings of its input, each as often as in the input, as a subsequence that keeps their order |
| Label.LabelWordsAreWords | web/src/composables/useDashboardPanel.ts:94 | every word of a label is non-empty, free of separators and does not start with a lower-case letter |
| Label.NonEmptyKeeps | web/src/composables/useDashboardPanel.ts:94 | filtering keeps only the non-empty pieces, which are well-formed words |
| Label.JoinWellFormed | web/src/composables/useDashboardPanel.ts:94 | joining well-formed words with single spaces gives a well-formed label, and a non-empty one when there is a word |
| Label.LabelWords | web/src/composables/useDashboardPanel.ts:94 | the words of the label before the join; `LabelWordsAreWords` shows each is non-empty, separator-free and capitalised |
| Label.GenerateLabelFromName | web/src/composables/useDashboardPanel.ts:93-95 | the conversion as a chain: separators replaced by spaces, split on single spaces, each piece capitalised, empty pieces dropped, joined with single spaces; its properties are the lemmas of this module |
| Label.LabelIsWellFormed | web/src/composables/useDashboardPanel.ts:93-95 | label format: the label is empty or made of capitalised, separator-free words joined by single spaces (no leading, trailing or doubled space) |
| Label.CapitalizeFixed | web/src/composables/useDashboardPanel.ts:94 | capitalising a string that already starts with a non-lower-case character changes nothing |
| Label.WordsAreFixed | web/src/composables/useDashboardPanel.ts:94 | capitalising and then filtering words that are already capitalised gives them back |
| Label.LabelIsIdempotent | web/src/composables/useDashboardPanel.ts:93-95 | converting a label again gives the same label |
| Label.LabelFromPieces | web/src/composables/useDashboardPanel.ts:94 | the label is computed from the space-free pieces of the text once its separators are replaced |
| Label.EventTimeStampExample | web/src/composables/useDashboardPanel.ts:93-95 | `event_time.stamp` becomes `Event Time Stamp` |
| Label.MultiSeparatorExample | web/src/composables/useDashboardPanel.ts:93-95 | leading spaces and runs of `_` and `-` leave no empty words: `  multi__sep--name` becomes `Multi Sep Name` |
| PanelData.PromqlMode | web/src/composables/useDashboardPanel.ts:97 | defined as the conjunction of three conditions: a `metrics` stream type, custom-query mode, and the `promql` query type; the reset and a scenario state its value |
| PanelData.XAxisCapacity | web/src/composables/useDashboardPanel.ts:99-111 | the X limit per chart type the switch encodes: 1 for pie and donut, 0 for metric, none for table, 2 otherwise; `IsAddXAxisNotAllowed` is proved equivalent to it |
| PanelData.YAxisCapacity | web/src/composables/useDashboardPanel.ts:113-126 | the Y limit per chart type: 1 for pie, donut, metric, stacked and h-stacked, none otherwise; `IsAddYAxisNotAllowed` is proved equivalent to it |
| PanelData.IsAddXAxisNotAllowed | web/src/composables/useDashboardPanel.ts:99-111 | an X addition is blocked exactly when the chart type has an X limit and the axis already holds that many entries: 1 for pie and donut, 0 for metric, none for table, 2 for every other type |
| PanelData.IsAddYAxisNotAllowed | web/src/composables/useDashboardPanel.ts:113-126 | a Y addition is blocked exactly when the chart type has a Y limit and the axis already holds that many entries: 1 for pie, donut, metric, stacked and h-stacked, none for every other type |
| PanelData.FirstIndex | web/src/composables/useDashboardPanel.ts:190 | `findIndex` gives -1 exactly when no column matches; otherwise it gives the first matching position |
| PanelData.RemoveAt | web/src/composables/useDashboardPanel.ts:192 | `splice(k, 1)` removes one element and shifts the later ones down by one, keeping their order |
| PanelData.RemoveAtKeepsDistinct | web/src/composables/useDashboardPanel.ts:192 | removing one element from a list without repeats leaves a list without repeats that lacks the removed element |
| PanelData.NatToString | web/src/composables/useDashboardPanel.ts:184 | the decimal rendering of a position is never empty |
| PanelData.NatToStringInjective | web/src/composables/useDashboardPanel.ts:184-185 | different positions give different alias suffixes |
| PanelData.AliasAt | web/src/composables/useDashboardPanel.ts:141 | the alias of position `i`: `prefix + (i + 1)`, or the column in custom-query mode, as at lines 141, 163 and 184-185; `NatToStringInjective` makes positional aliases distinct |
| PanelData.WithAliases | web/src/composables/useDashboardPanel.ts:183-186 | the result of one `forEach` of `updateArrayAlias`: every entry with its alias replaced by the one its position gives; specified by the `WithAliases*` lemmas |
| PanelData.WithAliasesKeeps | web/src/composables/useDashboardPanel.ts:183-186 | renumbering keeps every column and colour, and gives each entry the alias of its position (`x_axis_<i+1>` / `y_axis_<i+1>`, or the column in custom-query mode) |
| PanelData.WithAliasesDistinct | web/src/composables/useDashboardPanel.ts:183-186 | the aliases after renumbering are distinct outside custom-query mode, and in custom-query mode whenever the columns are distinct |
| PanelData.WithAliasesOfPositional | web/src/composables/useDashboardPanel.ts:183-186 | renumbering entries whose aliases are already positional changes nothing |
| PanelData.WithAliasesIdempotent | web/src/composables/useDashboardPanel.ts:183-186 | renumbering twice is the same as renumbering once |
| PanelData.AvailableColors | web/src/composables/useDashboardPanel.ts:174-175 | the palette colours no Y entry uses, in palette order; specified by `AvailableColorsSpec` and `FirstAvailable` |
| PanelData.PickColor | web/src/composables/useDashboardPanel.ts:175-179 | the first available colour, or the palette's first entry when none is available; specified by `PickColorSpec` |
| PanelData.NewColorValue | web/src/composables/useDashboardPanel.ts:173-180 | `getNewColorValue` over the twelve-colour palette and the Y entries' colours; specified by `NewColorValueSpec` |
| PanelData.AvailableColorsSpec | web/src/composables/useDashboardPanel.ts:174-175 | a colour is available exactly when it is in the palette and no Y entry uses it |
| PanelData.FirstAvailable | web/src/composables/useDashboardPanel.ts:175-179 | the first available colour is a palette entry |
| PanelData.PickColorSpec | web/src/composables/useDashboardPanel.ts:173-180 | the chosen colour is in the palette: the earliest unused one, or the palette's first entry when every colour is in use |
| PanelData.NewColorValueSpec | web/src/composables/useDashboardPanel.ts:173-180 | `getNewColorValue` gives the earliest of the twelve colours not in use, or `#5960b2` once all are used |
| PanelData.Palette | web/src/composables/useDashboardPanel.ts:20-33 | the twelve colours in source order; `PaletteIsDistinct` shows they are distinct |
| PanelData.PaletteIsDistinct | web/src/composables/useDashboardPanel.ts:20-33 | the palette has twelve distinct colours |
| PanelData.NextColorInOrder | web/src/composables/useDashboardPanel.ts:173-180 | while the colours in use are a prefix of a palette without repeats, the next colour handed out is the next palette entry |
| PanelData.NextColorExhausted | web/src/composables/useDashboardPanel.ts:176-179 | once the whole palette is in use, the first palette colour is handed out |
| PanelData.ColorRun | web/src/composables/useDashboardPanel.ts:173-180 | the colours of `n` additions in a row: one per addition |
| PanelData.NextColorOfRun | web/src/composables/useDashboardPanel.ts:173-180 | after a run that followed the palette, the next colour is the one the palette order predicts |
| PanelData.ColorRunInOrder | web/src/composables/useDashboardPanel.ts:173-180 | over a palette without repeats, the `i`-th addition gets palette entry `i`, then the first entry once the palette is used up |
| PanelData.ColorRunFollowsPalette | web/src/composables/useDashboardPanel.ts:20-180 | Y colour order: additions 1 to 12 get the palette in order, every later addition `#5960b2` |
| PanelData.NewXAxisItem | web/src/composables/useDashboardPanel.ts:139-145 | the pushed X entry: the generated label (or the column in custom-query mode), the positional alias, the column, no colour, and the histogram aggregation exactly for the timestamp column; its fields are stated by `PanelEdits.AddedXEntries` |
| PanelData.NewYAxisItem | web/src/composables/useDashboardPanel.ts:161-167 | the pushed Y entry: label, positional alias, column, the `getNewColorValue` colour computed before the push, and the count aggregation; stated by `PanelEdits.AddedYEntries` |
| PanelData.NewFilterItem | web/src/composables/useDashboardPanel.ts:223-229 | the pushed filter: type `list`, no values, no operator, no value; stated by `PanelEdits.AddFilterSpec` |
| PanelData.FieldValuesEntry | web/src/composables/useDashboardPanel.ts:252-256 | the cached entry is for the requested column; with no first hit its value is undefined; otherwise it holds exactly the non-empty keys, each as often as in the response and in response order |
| PanelEdits.PushX | web/src/composables/useDashboardPanel.ts:138-146 | the X entries after the `find`/`push` step: unchanged when the column is present, otherwise the new entry appended |
| PanelEdits.AddedX | web/src/composables/useDashboardPanel.ts:138-148 | the X entries after an addition that is let through: the push followed by the renumbering; specified by the `AddedX*` lemmas |
| PanelEdits.AddedXColumns | web/src/composables/useDashboardPanel.ts:138-148 | uniqueness: an X addition appends the column when absent and otherwise keeps the columns; the length grows by one exactly when the column was absent |
| PanelEdits.AddedXEntries | web/src/composables/useDashboardPanel.ts:138-148 | a new X entry goes last with its label, positional alias, column, no colour, and the histogram aggregation exactly when it is the timestamp column; earlier entries only get their positional alias; all aliases end positional |
| PanelEdits.AddedXDistinct | web/src/composables/useDashboardPanel.ts:138-148 | an X addition keeps the columns distinct and leaves the aliases distinct |
| PanelEdits.PushY | web/src/composables/useDashboardPanel.ts:160-168 | the Y entries after the `find`/`push` step |
| PanelEdits.AddedY | web/src/composables/useDashboardPanel.ts:160-169 | the Y entries after an addition that is let through; specified by the `AddedY*` lemmas |
| PanelEdits.AddedYColumns | web/src/composables/useDashboardPanel.ts:160-169 | uniqueness: a Y addition appends the column when absent and otherwise keeps the columns; the colour is chosen from the colours in use before the push; nothing else changes colour |
| PanelEdits.AddedYEntries | web/src/composables/useDashboardPanel.ts:160-169 | a new Y entry goes last with its label, positional alias, column, the `getNewColorValue` colour and the count aggregation; earlier entries only get their positional alias |
| PanelEdits.AddedYDistinct | web/src/composables/useDashboardPanel.ts:160-169 | a Y addition keeps the columns distinct and leaves the aliases distinct |
| PanelEdits.AddedXWithinCapacity | web/src/composables/useDashboardPanel.ts:99-149 | an X addition the chart type lets through never takes the axis past the chart type's limit |
| PanelEdits.AddedYWithinCapacity | web/src/composables/useDashboardPanel.ts:113-170 | a Y addition the chart type lets through never takes the axis past the chart type's limit |
| PanelEdits.PushFilter | web/src/composables/useDashboardPanel.ts:216-230 | the filters after the `find`/`push` step of `addFilteredItem`; specified by `AddFilterSpec` |
| PanelEdits.AddFilterSpec | web/src/composables/useDashboardPanel.ts:216-230 | after the push the column has a filter; an existing filter leaves the list as it was; otherwise a `list` filter with no values, no operator and no value is appended; distinct filter columns stay distinct |
| PanelEdits.AddAllY | web/src/composables/useDashboardPanel.ts:151-170 | the Y entries after `addYAxisItem` is called once per name, in order, on a chart without a Y limit, from no entries |
| PanelEdits.AddAllYStep | web/src/composables/useDashboardPanel.ts:160-169 | one more distinct column extends the Y columns by that column and the colours by the next colour of the run |
| PanelEdits.AddAllYColumnsAndColors | web/src/composables/useDashboardPanel.ts:160-180 | adding distinct columns one by one gives entries for exactly those columns, in order, coloured by successive `getNewColorValue` results |
| PanelEdits.DistinctYAddsFollowPalette | web/src/composables/useDashboardPanel.ts:160-180 | Y colour order: with distinct columns added one by one, entry `i` is coloured with palette entry `i` for the first twelve, and `#5960b2` after that |
| PanelEdits.RemoveFirst | web/src/composables/useDashboardPanel.ts:189-194 | `findIndex` on the columns, then `splice(index, 1)` when a match is found; specified by `RemoveFirstSpec` |
| PanelEdits.RemoveFirstSpec | web/src/composables/useDashboardPanel.ts:189-194 | first-match removal: with no matching column nothing changes; otherwise exactly the first matching entry is taken out |
| PanelEdits.RemoveAxisSpec | web/src/composables/useDashboardPanel.ts:189-201 | removing an axis column removes that entry's column and alias, and no other; with distinct columns the column is gone afterwards; distinct columns and aliases stay distinct |
| PanelEdits.RemoveFilterSpec | web/src/composables/useDashboardPanel.ts:203-208 | removing a filter removes exactly the first matching column from the filter columns, keeping the order of the rest |
| PanelEdits.RemoveFilterDistinct | web/src/composables/useDashboardPanel.ts:203-208 | with distinct filter columns, the removed column is gone afterwards and the rest stay distinct |
| PanelEdits.RemoveUndoesAddFilter | web/src/composables/useDashboardPanel.ts:203-230 | removing the filter just added for a new column gives back the previous filters |
| PanelEdits.RemoveUndoesAddX | web/src/composables/useDashboardPanel.ts:138-194 | removing an X column just added gives back the previous columns |
| PanelEdits.ClearCached | web/src/composables/useDashboardPanel.ts:236-240 | the cache after `addFilteredItem` drops the first entry for the column; specified by `RefreshCacheSpec` |
| PanelEdits.RefreshCacheSpec | web/src/composables/useDashboardPanel.ts:236-257 | dropping a column's cached values and then caching fresh ones keeps distinct cache columns distinct (the other clauses hold for any cache, duplicates included); the last entry is the response for the column; every entry for another column is kept, and no entry for another column appears that was not there before |
| DashboardPanel.Renumber | web/src/composables/useDashboardPanel.ts:183-186 | the alias loop over one axis gives every entry its positional alias (loop invariants) |
| DashboardPanel.OtherAxisAfterAdd | web/src/composables/useDashboardPanel.ts:183-186 | the axis renumbered without a push keeps its columns, and its aliases are distinct when its columns are |
| DashboardPanel.Panel.IsDefault | web/src/composables/useDashboardPanel.ts:35-80 | the draft `getDefaultDashboardPanelData` builds, restricted to the modelled fields: bar chart, empty stream, `logs`, `sql`, empty query, no custom query, no entries and no cached values; established by the constructor and by reset |
| DashboardPanel.Panel.constructor | web/src/composables/useDashboardPanel.ts:35-82 | the module-level draft starts as the default: a bar chart over a logs stream, SQL mode, no entries; it is valid and not in PromQL mode |
| DashboardPanel.Panel.ResetDashboardPanelData | web/src/composables/useDashboardPanel.ts:88-91 | reset: every modelled field is back at its default, the draft is valid and PromQL mode is off |
| DashboardPanel.Panel.UpdateArrayAlias | web/src/composables/useDashboardPanel.ts:183-186 | both axes renumbered by position under the current query mode |
| DashboardPanel.Panel.AddXAxisItem | web/src/composables/useDashboardPanel.ts:128-149 | a blocked addition changes nothing; otherwise X becomes the pushed and renumbered list and Y is only renumbered; validity is kept |
| DashboardPanel.Panel.AddYAxisItem | web/src/composables/useDashboardPanel.ts:151-170 | a blocked addition changes nothing; otherwise Y becomes the pushed, coloured and renumbered list and X is only renumbered; validity is kept |
| DashboardPanel.Panel.RemoveXAxisItem | web/src/composables/useDashboardPanel.ts:189-194 | the first X entry on the column is taken out; nothing else changes; a valid draft stays valid and loses the column |
| DashboardPanel.Panel.RemoveYAxisItem | web/src/composables/useDashboardPanel.ts:196-201 | the first Y entry on the column is taken out; a valid draft stays valid and loses the column |
| DashboardPanel.Panel.RemoveFilterItem | web/src/composables/useDashboardPanel.ts:203-208 | the first filter on the column is taken out; a valid draft stays valid and loses the column |
| DashboardPanel.Panel.PushFilterItem | web/src/composables/useDashboardPanel.ts:216-230 | the filters become the pushed list; the column then has a filter; distinct filter columns stay distinct |
| DashboardPanel.Panel.DropCachedValues | web/src/composables/useDashboardPanel.ts:236-240 | the cache loses its first entry for the column, and nothing else changes |
| DashboardPanel.Panel.AddFilteredItem | web/src/composables/useDashboardPanel.ts:210-250 | filter add: the column's filter is pushed unless present; its first cached entry is dropped; the request asks for that one field, 10 values, on the draft's stream in the given organisation; validity is kept |
| DashboardPanel.Panel.OnFieldValues | web/src/composables/useDashboardPanel.ts:251-266 | with no first hit an undefined value is cached; with keys the non-empty keys are cached; a first hit without values throws inside the callback and the handler leaves the cache unchanged |
| DashboardPanel.Panel.RemoveXYFilters | web/src/composables/useDashboardPanel.ts:269-273 | clearing: both axes and the filters are empty, the value cache is kept, and the draft is valid |
| Scenarios.ThreeXColumns | web/src/composables/useDashboardPanel.ts:138-148 | three distinct X additions give those columns in order, with positional aliases |
| Scenarios.ThreeAliases | web/src/composables/useDashboardPanel.ts:184 | positional aliases for three entries are `x_axis_1`, `x_axis_2`, `x_axis_3` |
| Scenarios.TableAliases | web/src/composables/useDashboardPanel.ts:99-149 | alias renumbering: three columns on a table chart are aliased `x_axis_1` to `x_axis_3` |
| Scenarios.PieSecondXRejected | web/src/composables/useDashboardPanel.ts:101-135 | a pie chart refuses its second X column |
| Scenarios.MetricXRejected | web/src/composables/useDashboardPanel.ts:104-135 | a metric chart refuses even its first X column |
| Scenarios.DuplicateXIgnored | web/src/composables/useDashboardPanel.ts:138 | adding an X column twice leaves one entry |
| Scenarios.TimestampHistogram | web/src/composables/useDashboardPanel.ts:144 | the timestamp column gets the histogram aggregation; any other column gets none |
| Scenarios.TwoXShape | web/src/composables/useDashboardPanel.ts:138-148 | the second of two distinct X columns is second and aliased `x_axis_2` |
| Scenarios.RemoveFirstOfTwoX | web/src/composables/useDashboardPanel.ts:189-194 | removing the first of two X columns leaves the second, with its old alias |
| Scenarios.StaleAliasAfterRemoval | web/src/composables/useDashboardPanel.ts:189-194 | removal does not renumber: the remaining X entry keeps `x_axis_2` |
| Scenarios.TwoYColors | web/src/composables/useDashboardPanel.ts:160-180 | two distinct Y columns get `#5960b2` and `#c23531` |
| Scenarios.YColorsInOrder | web/src/composables/useDashboardPanel.ts:151-180 | on a bar chart the first two Y columns get the first two palette colours |
| Scenarios.FilterRoundTrip | web/src/composables/useDashboardPanel.ts:203-230 | adding and then removing a filter on a new column leaves no filter |
| Scenarios.FieldValuesCached | web/src/composables/useDashboardPanel.ts:242-257 | the response's keys are cached without the empty ones, and the request asks for that one field with size 10 |
| Scenarios.FieldValuesWithoutValues | web/src/composables/useDashboardPanel.ts:251-266 | a first hit without values leaves the cache as the addition left it |
| Scenarios.PromqlModeOnlyForCustomMetrics | web/src/composables/useDashboardPanel.ts:97 | a metrics stream with the `promql` query type is in PromQL mode only once custom-query mode is on |
| Scenarios.RemoveXYFiltersKeepsCache | web/src/composables/useDashboardPanel.ts:269-273 | emptying the axes and filters keeps the cached filter values |

## Left out

- Vue reactivity is not modelled. `computed` flags are functions evaluated at the time of the call; `reactive` is a plain class.
- The field-values request is left out.
  - The network, its timing and the `.then`/`.catch` plumbing are not modelled. `AddFilteredItem` returns the request's arguments, and `OnFieldValues` is the callback applied to the first hit.
  - Two requests in flight for one column can both push a cache entry. That interleaving is not modelled.
- The `start_time` and `end_time` of the request are not modelled: they need dates and a clock.
- The error notification of the catch handler (`$q.notify`) is not modelled; only the fact that it leaves the state unchanged is.
- The store is not modelled: the timestamp column and the organisation identifier are parameters.
- The draft's `id`, `config`, `layout` and most of `meta` are not modelled. These fields are the title, description, legends, splitter, parsed query, drag-and-drop state, errors, editor value and stream field lists. No modelled operation reads them, and only reset writes them.
- The guards that replace a missing `x`, `y`, `filter` or `filterValue` list by an empty one are not modelled: the lists always exist in the model.
- Object identity is not modelled. Entries are values, so aliasing of entry objects, and `Object.assign` replacing the arrays on reset, are not modelled.
- `find` truthiness is not modelled beyond column membership.
  - In the code, `find` returns an object, which is always truthy; the model reads that as membership in the columns.
  - Keys in a response that are not strings are not modelled: the cache filter drops only the empty string.
- `Label.ToUpper`: does not model Unicode case mapping. Only ASCII `a`-`z` are upper-cased; every other character is kept.
- Changes to `chartType`, `customQuery`, `streamType` or `queryType` made directly by the UI are not modelled as operations. They are fields the client assigns, as the scenarios do.
- `DashboardPanel.Panel.AddXAxisItem`: does not state the per-chart-type limit in its own contract. The limit is the separate lemma `PanelEdits.AddedXWithinCapacity` about the list it produces.
- `DashboardPanel.Panel.AddYAxisItem`: does not state the per-chart-type limit in its own contract. The limit is the separate lemma `PanelEdits.AddedYWithinCapacity`.
