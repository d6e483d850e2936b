# DefiLlama protocol page: TVL figures, chart planner and table columns

This project models three small data transforms of the DefiLlama dashboard
front end and proves properties of them in Dafny.

- **Protocol TVL** (`protocol_tvl.dfy`, module `ProtocolTvl`). This is the
  protocol page.
  - **Headline TVL** (`totalVolume`): a fold over the per-section breakdown.
    - It skips chain-qualified sections and `offers`.
    - It subtracts `doublecounted`.
    - It counts an extra-TVL section only when its toggle allows it.
    - It falls back to the latest history snapshots when the breakdown is
      empty.
  - **Per-chain split**: the `tvlByChain.reduce`, with three outputs:
    - chain totals;
    - the toggleable extra rows;
    - their toggle options.
  - **Helpers**: `explainAnnualized`, `isLowerCase`, the chart-denomination
    list, and the treasury and token-liquidity sums.
- **Protocol chart** (`protocol_chart.dfy`, module `ProtocolChart`). This is
  the chart planner.
  - **`yAxisByIndex`**: a fixed, ordered table of 15 axis groups decides
    which keys go into `yAxisByIndex` and which indices they get.
  - **Series**: every stack becomes a series with a bar/line type, an axis
    index, a colour and a gradient descriptor.
  - **Data**: every chart record pushes one point per stack onto the first
    series of that name, so with distinct stacks every series gets one point
    per record (a repeated stack's points all go onto its first series). A value
    that is missing (or 0) becomes 0 for TVL and "no data" for any
    other stack.
  - **Hallmarks**: marker pairs go onto the first series.
  - **Y-axis list**: one axis per key, with the 40-pixel offset rule.
  - **Chart options**: the merge of `chartOptions` into the default settings.
    It is a class, because the effect updates the settings in place.
- **Protocols table** (`protocol_columns.dfy`, module `ProtocolColumns`).
  - **Help text**: the text the TVL cell shows when the TVL is struck out. It
    comes from an if-chain in which the last assignment wins.
  - **Derived column lists**: the recently-listed and airdrops lists, built
    from the base list by `slice` and spread.
- **JavaScript built-ins** (`js.dfy`, module `Js`). These are the built-ins
  the transforms rely on:
  - `undefined` as `Option`;
  - truthiness of looked-up values;
  - `toLowerCase`;
  - the segments of `split('-')`;
  - `Array.prototype.slice`.

**How the source is represented:**
- **Objects**: a JavaScript object whose key order matters is a sequence of
  key–value pairs, in insertion order.
- **Toggle map**: a `map<string, bool>`.
- **Amounts**: integers.
- **Parameters**: external tables (`BAR_CHARTS`, `DEFI_SETTINGS_KEYS`,
  `protocolsAndChainsOptions`, `chainCoingeckoIds`, stack colours) and the
  router flags are passed in.
- **Loops**: code that runs by `forEach`, `push` or reassignment is an
  imperative method. Its loop is proved against a specification function, and
  lemmas state what that function means.

## Model

| member | source | states |
|---|---|---|
| ProtocolTvl.TotalVolume | src/containers/Defi/Protocol/index.tsx:316-353 | the two `forEach` walks leave `tvl` equal to the headline-total specification (breakdown fold, or history fallback when the breakdown is empty) |
| ProtocolTvl.SkippedSectionsAddNothing | src/containers/Defi/Protocol/index.tsx:319-320 | sections whose name contains `-` and the `offers` section can be removed from the breakdown without changing the total |
| ProtocolTvl.ToggleRule | src/containers/Defi/Protocol/index.tsx:326-331 | a counted section other than `doublecounted` adds its amount unless its lower-cased name is a toggle key that is off, in which case it adds 0 |
| ProtocolTvl.DoubleCountedNet | src/containers/Defi/Protocol/index.tsx:322-331 | the net contribution of `doublecounted` is −x when its toggle exists and is off, and 0 otherwise |
| ProtocolTvl.DoubleCountedKey | src/containers/Defi/Protocol/index.tsx:326-327 | `doublecounted` is its own lower case, so it is admitted exactly when its toggle is absent or on |
| ProtocolTvl.DoubleCountedAlwaysSubtracted | src/containers/Defi/Protocol/index.tsx:319-331 | the breakdown total equals the sum of admitted counted sections minus the sum of the `doublecounted` amounts |
| ProtocolTvl.BreakdownTotalSnoc | src/containers/Defi/Protocol/index.tsx:318-332 | appending a section adds exactly that section's contribution to the fold |
| ProtocolTvl.FallbackOnlyWhenEmpty | src/containers/Defi/Protocol/index.tsx:334 | the history fallback is taken exactly when the breakdown has no keys (an empty breakdown always folds to 0) |
| ProtocolTvl.HistoryDoubleCountedAlwaysSubtracted | src/containers/Defi/Protocol/index.tsx:335-350 | the fallback total equals the latest liquidity of the admitted hyphen-free sections (toggle rule, `doublecounted` included) minus that of every `doublecounted` section, whatever its toggle |
| ProtocolTvl.HyphenatedHistoryAddsNothing | src/containers/Defi/Protocol/index.tsx:336 | appending a history section whose name contains `-` leaves the fallback total unchanged |
| ProtocolTvl.FallbackSectionRules | src/containers/Defi/Protocol/index.tsx:335-350 | in the fallback `offers` is counted under the toggle rule, although the breakdown fold skips it, and a section with no snapshot adds 0 |
| ProtocolTvl.IsLowerCase | src/containers/Defi/Protocol/index.tsx:252 | a string equals its lower case iff none of its characters is an upper-case letter |
| ProtocolTvl.FindOption | src/containers/Defi/Protocol/index.tsx:367 | `find` returns an option with the requested key, and `undefined` iff no option has it |
| ProtocolTvl.AddAmount | src/containers/Defi/Protocol/index.tsx:371-379 | adding to `acc.tvls[key]` (missing read as 0) raises that key's total by the amount, leaves every other key, adds the key if missing, raises the sum of values by the amount and keeps keys distinct |
| ProtocolTvl.SplitTvlByChain | src/containers/Defi/Protocol/index.tsx:355-390 | the reduce yields the fold specification: extra rows in input order with their found options, distinct chain keys, a chain key exactly for the chains some entry is routed to, each chain's total the sum of entries routed to it, and the total of all chains equal to the plain entries plus the hyphenated entries whose toggle is on |
| ProtocolTvl.ChainExtrasInOrder | src/containers/Defi/Protocol/index.tsx:365-367 | `extraTvls` is exactly the extra-type entries in input order, and `tvlOptions[i]` is the option found for `extraTvls[i]` |
| ProtocolTvl.ChainTotalsClosedForm | src/containers/Defi/Protocol/index.tsx:369-381 | every chain key occurs once, and its total is the sum of plain entries of that name plus hyphenated entries `chain-type…` whose second segment's toggle is on |
| ProtocolTvl.ChainKeys | src/containers/Defi/Protocol/index.tsx:369-381 | `tvls` has a key for chain c iff some entry is routed to c: bookkeeping entries, extra types and hyphenated entries whose toggle is off create no key |
| ProtocolTvl.ChainConservation | src/containers/Defi/Protocol/index.tsx:359-390 | the chain totals sum to the plain entries plus the hyphenated entries whose toggle is on (extra types excluded) |
| ProtocolTvl.AllTogglesOffKeepsPlainTotals | src/containers/Defi/Protocol/index.tsx:376-380 | with every toggle off the chain totals sum to the plain entries alone |
| ProtocolTvl.BookkeepingEntriesIgnored | src/containers/Defi/Protocol/index.tsx:362 | appending a `masterchef` or `offers` entry changes none of the three outputs |
| ProtocolTvl.ExplainAnnualized | src/containers/Defi/Protocol/index.tsx:246-250 | the explanation always ends with the annualisation sentence; it is exactly that sentence iff the helper text is `undefined`; a `null` helper text renders as `null.` and a newline before it; a string is followed by a full stop and a newline |
| ProtocolTvl.ExplainAnnualizedRoundTrip | src/containers/Defi/Protocol/index.tsx:246-250 | an `undefined` or string helper text is recovered from the explanation; a `null` one comes back as the string `null` |
| ProtocolTvl.NullRendersAsText | src/containers/Defi/Protocol/index.tsx:224-250 | a `null` helper text (allowed by the `helperTexts` type) renders exactly like the string `null`, not like a missing text |
| ProtocolTvl.ExplainAnnualizedIntended | src/containers/Defi/Protocol/index.tsx:246-250 | the corrected reading agrees with the code for a string helper text and gives the sentence alone for `undefined` and `null` |
| ProtocolTvl.ExplainAnnualizedIntendedRoundTrip | src/containers/Defi/Protocol/index.tsx:246-250 | under the corrected reading a string helper text is recovered and an absent (`undefined` or `null`) one comes back as absent |
| ProtocolTvl.ChartDenominations | src/containers/Defi/Protocol/index.tsx:436-446 | empty for a CEX or no chains; otherwise USD then chain 0's entry if it has a gecko id, else Ethereum's entry (`undefined` if absent) |
| ProtocolTvl.TreasuryTotal | src/containers/Defi/Protocol/index.tsx:889 | the treasury row is the sum of all treasury values minus the `ownTokens` amount |
| ProtocolTvl.LiquidityTotal | src/containers/Defi/Protocol/index.tsx:768 | with non-negative amounts the token-liquidity row is non-negative and at least every row's amount |
| ProtocolTvl.LiquidityTotalAppend | src/containers/Defi/Protocol/index.tsx:768 | the token-liquidity sum of third components splits over any split of the rows |
| ProtocolChart.GroupOrderRanks | src/components/ECharts/ProtocolChart/index.tsx:52-120 | the group table has 15 groups, each listed once at the position given by its rank |
| ProtocolChart.BuildAxisIndex | src/components/ECharts/ProtocolChart/index.tsx:52-120 | the successive key assignments produce the planned index specification |
| ProtocolChart.PlannedGroups | src/components/ECharts/ProtocolChart/index.tsx:52-120 | the index lists exactly the present groups, in table order, entry j holding j (or `undefined` for a single stack) |
| ProtocolChart.AxisIndexShape | src/components/ECharts/ProtocolChart/index.tsx:52-120 | a group key is present iff one of its member stacks is requested; the indices are 0..k−1 in insertion order; keys follow table order; one stack yields at most one key |
| ProtocolChart.AxisIndexHasKey | src/components/ECharts/ProtocolChart/index.tsx:52-120 | a group's key is in the index iff the group is present |
| ProtocolChart.SingleStackSingleGroup | src/components/ECharts/ProtocolChart/index.tsx:61-119 | with one stack at most one group is present (so its single index is `undefined`) |
| ProtocolChart.GroupsDisjoint | src/components/ECharts/ProtocolChart/index.tsx:52-120 | no stack belongs to two groups |
| ProtocolChart.MembersLookUpTheirGroup | src/components/ECharts/ProtocolChart/index.tsx:128-140 | the key a member stack looks up is its group's key |
| ProtocolChart.SeriesAxisIsGroupIndex | src/components/ECharts/ProtocolChart/index.tsx:128-140 | a member of the j-th present group gets `yAxisIndex` j (or `undefined` for a single stack) |
| ProtocolChart.UngroupedStackHasNoAxis | src/components/ECharts/ProtocolChart/index.tsx:138-139 | a stack outside every group (and not itself a group key) gets `yAxisIndex` `undefined` |
| ProtocolChart.NewSeriesShape | src/components/ECharts/ProtocolChart/index.tsx:122-178 | a new series is named after its stack, is a bar iff the stack is a bar chart and the view is not cumulative, carries the looked-up axis index, and has no marks or points |
| ProtocolChart.NewSeriesColours | src/components/ECharts/ProtocolChart/index.tsx:155-174 | its item colour is the stack colour; it has an area style iff it is a line; the area has no gradient under a custom legend name, else a gradient whose top is the stack colour, the chart colour for series 0, or transparent |
| ProtocolChart.BuildSeries | src/components/ECharts/ProtocolChart/index.tsx:122-178 | `stacks.map` builds one series per stack, in stack order |
| ProtocolChart.PointFor | src/components/ECharts/ProtocolChart/index.tsx:184 | the point carries the record's date; its value is no-data iff the stack is not TVL and its value is missing or 0; otherwise it is the stored value, or 0 when missing |
| ProtocolChart.FindSeries | src/components/ECharts/ProtocolChart/index.tsx:183 | `find` returns the first series with the name, or none iff no series has it |
| ProtocolChart.FillData | src/components/ECharts/ProtocolChart/index.tsx:180-186 | the nested `forEach` loops produce the fill specification |
| ProtocolChart.FillRecordData | src/components/ECharts/ProtocolChart/index.tsx:181-185 | the inner loop for one record pushes each stack's point onto the first series of that name |
| ProtocolChart.FillAllKeepsHeads | src/components/ECharts/ProtocolChart/index.tsx:180-186 | filling changes only the series' points, not their count, names, types, axes or styles |
| ProtocolChart.FillClosedForm | src/components/ECharts/ProtocolChart/index.tsx:180-186 | with distinct stacks each series gains one point per record, in record order: the value if truthy, else 0 for TVL and no-data for any other stack |
| ProtocolChart.FilledFromEmpty | src/components/ECharts/ProtocolChart/index.tsx:180-186 | series built empty hold exactly their stack's points after filling |
| ProtocolChart.HallmarkMarkers | src/components/ECharts/ProtocolChart/index.tsx:192-210 | n hallmarks give n start/end pairs at their dates; end marker i sits at 40(n−i), each 40 below the previous, the last at 40 |
| ProtocolChart.InjectHallmarks | src/components/ECharts/ProtocolChart/index.tsx:188-213 | with series and hallmarks only `series[0]`'s mark line changes; without hallmarks nothing changes; no points change |
| ProtocolChart.PlanChart | src/components/ECharts/ProtocolChart/index.tsx:36-216 | the memo returns the planned index; one series per stack, named after it, with its group's axis index, a bar iff the stack is a bar chart unless the router is ready and `groupBy` is `cumulative`; the filled points (stacks distinct); the hallmarks on series 0 only |
| ProtocolChart.PlannedHeads | src/components/ECharts/ProtocolChart/index.tsx:122-213 | filling and marking keep every head the map built, except the mark line of series 0, which holds the hallmarks when there are any |
| ProtocolChart.AxisFor | src/components/ECharts/ProtocolChart/index.tsx:253-428 | the TVL group pushes the default axis itself (offset 0); every other group pushes a value axis with the computed offset |
| ProtocolChart.BuildYAxes | src/components/ECharts/ProtocolChart/index.tsx:240-433 | the `forEach` with `push` builds the y-axis specification |
| ProtocolChart.PlannedYAxes | src/components/ECharts/ProtocolChart/index.tsx:240-250 | for the planned index: one axis per key in group order, or the default axis alone; all offsets 0 with fewer than three keys, otherwise 0 for the first two and +40 for each later one |
| ProtocolChart.ChartSettings.MergeChartOptions | src/components/ECharts/ProtocolChart/index.tsx:230-236 | the `for…in` loop leaves the settings equal to the merge specification |
| ProtocolChart.MergedFields | src/components/ECharts/ProtocolChart/index.tsx:230-236 | after the merge every option's fields win, the defaults' other fields and settings stay, and a missing setting becomes a copy of the option |
| ProtocolChart.MergeIdempotent | src/components/ECharts/ProtocolChart/index.tsx:230-236 | merging the same options twice gives the same settings as once |
| ProtocolColumns.TvlHelpText | src/components/Table/Defi/Protocols/columns.tsx:365-393 | no text without `strikeTvl`; the double-count, liquid-staking or combined message by which toggles are off; RWA overrides them; a parent protocol's non-null text becomes the sub-protocols message; text is shown iff struck out and RWA or a toggle is off |
| ProtocolColumns.RecentlyListedColumns | src/components/Table/Defi/Protocols/columns.tsx:170-174 | the first three base columns, then Listed At, then base columns 3..n−2 (the last one dropped) |
| ProtocolColumns.AirdropsColumns | src/components/Table/Defi/Protocols/columns.tsx:176-189 | the first three base columns, then Total Money Raised, then Listed At, then base columns 3..n−2 (the last one dropped) |
| ProtocolColumns.AirdropsInsertTotalRaised | src/components/Table/Defi/Protocols/columns.tsx:176-189 | the airdrops list is the recently-listed list with Total Money Raised inserted right before Listed At |
| ProtocolColumns.RecentlyListedProtocolColumns | src/components/Table/Defi/Protocols/columns.tsx:17-174 | for the protocols table the recently-listed keys are name, category, tvl, listedAt, then the volume, fees, revenue and change columns, dropping mcaptvl |
| ProtocolColumns.AirdropsProtocolColumns | src/components/Table/Defi/Protocols/columns.tsx:17-189 | for the protocols table the airdrops keys additionally have totalRaised before listedAt |
| Js.FirstSegment | src/containers/Defi/Protocol/index.tsx:374 | `split('-')[0]` is the longest hyphen-free prefix |
| Js.SecondSegment | src/containers/Defi/Protocol/index.tsx:375 | `split('-')[1]` is the hyphen-free text after the first hyphen, ending at the second hyphen or the end of the string |
| Js.RelativeIndex | src/components/Table/Defi/Protocols/columns.tsx:171-173 | a `slice` bound in range is kept; one beyond the end is clamped to the length; a negative one counts from the end, clamped at 0 |
| Js.Slice | src/components/Table/Defi/Protocols/columns.tsx:171-173 | `slice(start, end)` is `s[start..end]` for in-range bounds; an end past the length stops at the length; a negative end counts from the end; an empty range or a start past the end gives nothing |

## Findings

| source | as written | input that shows it | evidently intended | confidence | as-written member | corrected member |
|---|---|---|---|---|---|---|
| src/containers/Defi/Protocol/index.tsx:246-250 | only `text === undefined` omits the helper text, although `helperTexts.fees` and `helperTexts.revenue` may be `null` by their type and are passed unguarded | `helperTexts.fees = null` gives an explanation starting `null.` | a `null` helper text is omitted like an `undefined` one | medium, not executed | ProtocolTvl.NullRendersAsText | ProtocolTvl.ExplainAnnualizedIntended |

## Left out

- **Markup and styling.** JSX, styled components, the `RowWithSubRows`
  state, tabs and announcements are UI, so they are not modelled.
- **Chart instance lifecycle.** The chart instance lifecycle
  (`src/components/ECharts/ProtocolChart/index.tsx:218-222` and `435-469`)
  consists of calls into ECharts and browser events. Not modelled:
  - `createInstance`, `init`, `setOption` and `dispose`;
  - the resize listener.
- **Hooks become inputs.** Nothing from the hooks is modelled. What they
  supply is taken as input:
  - `useRouter` gives the `isReady`/`groupBy` parameters;
  - `useDefiManager` (with its LocalStorage) gives the toggle map;
  - `useDefaults` gives the default settings;
  - the data hooks give the fetched data.
- **Helpers whose bodies are not part of this model:**
  - **Formatters.** `toK`, `formattedNum` and `formatPrice` become formatter
    tags.
  - **Gradients.** `echarts.graphic.LinearGradient` becomes a record with a
    top and a base colour.
  - **Dates.** `getUtcDateObject` is the identity on dates.
  - **Chart colour.** `stringToColour` is the chart-colour parameter.
- **Tables and route flags as parameters.** The tables are parameters:
  - the contents of `BAR_CHARTS`;
  - `DEFI_SETTINGS_KEYS`;
  - `protocolsAndChainsOptions`;
  - `chainCoingeckoIds`.

  The other route flags (`usdInflows`, `denomination`) do not enter the
  modelled code.
- **Numbers.** Amounts are integers, not IEEE doubles. Rounding in sums is
  not modelled.
- **Text.** `toLowerCase` is modelled on ASCII letters only.
- **`dataZoom`.** `delete dataZoom[1].right`
  (`src/components/ECharts/ProtocolChart/index.tsx:238`) changes a
  default-settings object that this model does not represent.
- **Default y-axis.** The default `yAxis` is an opaque value
  (`DefaultAxis`). Its offset is read as 0, because its contents come from an
  unseen helper.
- **Object key order.** JavaScript lists integer-like object keys first. The
  model keeps insertion order for every key. Chain names and section names
  are not integer-like.
- **Axis keys.** `yAxisByIndex` entries are typed by axis group. The source's
  `forEach` can only ever see the 15 group keys, so a key outside them (with
  no axis pushed) is not modelled.
- **Stacks named like a group key.** A stack named exactly like a joined
  group key (for instance `Volume+Fees+Revenue`) looks up that key through
  `yAxisByIndex[stack]`. The model does the same; UngroupedStackHasNoAxis
  excludes it.
- ProtocolTvl.TotalVolume: a `doublecounted` history whose snapshot list is
  empty throws in the source
  (`src/containers/Defi/Protocol/index.tsx:339`). It is a precondition here,
  needed only when the breakdown is empty.
- ProtocolTvl.SplitTvlByChain: an empty entry name throws in the source
  (`name[0].toLowerCase()` on `undefined`). Non-empty names are a
  precondition.
- ProtocolChart.BuildYAxes: an `undefined` index (a single stack) compares
  as not below 2, as in JavaScript. With a single stack `noOffset` holds, so
  the offset is 0 either way.
- ProtocolColumns.RecentlyListedColumns: columns are identified by their
  accessor key only. Headers, cells, sizes and alignment are not modelled.
- ProtocolColumns.TvlHelpText: the rendered tooltip and the struck-out
  styling are not modelled. The table uses only the chosen text.
