# Force decomposition of the token-economy dashboard

This project models the one piece of logic in the dashboard's force-decomposition
chart (`ForcesTimeline`). It turns the history feed's timeline of day records into
chart rows. Each day's reading of each of the five registered forces is split into a
non-negative `pos_<id>` band, which stacks upward, and a non-positive `neg_<id>` band,
which stacks downward. Each row also carries the day's raw values (`_raw`) and its net
force (`_net`). The project also models the hover tooltip's rule for when it renders,
what it lists, and which sign each value is shown with.

The row builder (`BuildRowWith`), the chart series (`ChartDataWith`) and the tooltip
(`TooltipWith`) take the force registry as a parameter. `BuildRow`, `ChartData` and
`Tooltip` apply them to the fixed registry `FORCES_META`, as the component does. This
lets `MetadataIgnored` state that names, colours and estimated flags never reach the
numbers.

Force values are `real`. Missing JavaScript values (`undefined`/`null`) are `Option`.

- `wrappers.dfy`: module `Wrappers`, with `Option` and `GetOr` (JavaScript's `??`).
- `forces_meta.dfy`: module `ForcesMeta`, with the registry `FORCES_META` and the
  `pos_`/`neg_` key naming.
- `force_series.dfy`: module `ForceSeries`, with the day records, the row built per
  day, the chart series, and the properties of the transform.
- `forces_tooltip.dfy`: module `ForcesTooltip`, with the tooltip's render decision,
  its lines and its sign rule.

A chart row is one JavaScript object in the source. The model splits it into `date`,
`raw` (the `_raw` object), `series` (the ten `pos_`/`neg_` fields) and `net`.
`ForcesMeta.SeriesKeysDistinct` justifies the split. It proves that no series key can
coincide with another force's key, with the other sign's key, or with `date`, `_raw`
or `_net`. So no assignment in the loop overwrites another field.

`_net` is `Object.values(row._raw).reduce(...)`. The model sums the `_raw` entries
over the registry ids in registry order. The two sums agree because the ids are
pairwise distinct (`ForcesMeta.RegistryIdsDistinct`), so `_raw` has exactly one entry
per id. Over the reals the order of summation does not matter. For a registry that
listed an id twice, the model's sum would count that reading twice while `_raw` holds
it once, so `ForcesTooltip.TooltipOfChartRow`, which states the net for any registry,
requires distinct ids.

Notes on what the code does:
- At most one band per force is nonzero, and both are 0 for a value of exactly 0.
- A force entry without `value` reads as 0.
- Values are not range-checked, so the model places no bound on them.
- The net field is named `_net`, and the row also carries `_raw`.

## Model

| member | source | states |
|---|---|---|
| ForcesMeta.RegistryIdsDistinct | frontend/src/components/ForcesTimeline.jsx:10-16 | The registry has five forces with pairwise distinct ids, so each force owns one `_raw` entry and one pair of series. |
| ForcesMeta.SeriesKeysDistinct | frontend/src/components/ForcesTimeline.jsx:19-20 | `pos_<id>` and `neg_<id>` are injective in the id and never equal each other, `date`, `_raw` or `_net`. |
| ForcesMeta.InPosKeys | frontend/src/components/ForcesTimeline.jsx:19 | A positive key is in the key list exactly when its id is in the id list, and it is never a negative key. |
| ForcesMeta.InNegKeys | frontend/src/components/ForcesTimeline.jsx:20 | A negative key is in the key list exactly when its id is in the id list, and it is never a positive key. |
| ForceSeries.SplitValue | frontend/src/components/ForcesTimeline.jsx:36-37 | The positive part is ≥ 0, the negative part is ≤ 0, the two add up to the value, and at least one of them is 0. |
| ForceSeries.SplitUnique | frontend/src/components/ForcesTimeline.jsx:36-37 | Any pair with those four properties is the computed split. The positive part is nonzero iff the value is positive, and the negative part iff it is negative. |
| ForceSeries.FillSpec | frontend/src/components/ForcesTimeline.jsx:32-38 | The registry loop adds exactly the visited ids to `_raw` and their `pos_`/`neg_` keys to the row. Each gets the force's reading (0 when absent) and its split. Every other field is left as it was. |
| ForceSeries.RowKeys | frontend/src/components/ForcesTimeline.jsx:28-38 | A row keeps its day's date. `_raw` holds exactly the registry's ids and the series exactly their `pos_`/`neg_` keys, so no force is dropped and nothing else is added. |
| ForceSeries.RowBands | frontend/src/components/ForcesTimeline.jsx:33-37 | For every listed force, the raw value is the day's reading (0 when absent). `pos_` ≥ 0, `neg_` ≤ 0, `pos_ + neg_` equals the raw value, and at most one of them is nonzero. |
| ForceSeries.SumKeysIsRawTotal | frontend/src/components/ForcesTimeline.jsx:41 | Summing `_raw` over the ids gives the reference total of the day's readings. |
| ForceSeries.SplitTotals | frontend/src/components/ForcesTimeline.jsx:36-41 | The sum of the positive bands plus the sum of the negative bands equals the raw total. |
| ForceSeries.NetIsTotal | frontend/src/components/ForcesTimeline.jsx:41 | `_net` equals the sum of the five raw readings. It also equals the sum of all `pos_` fields plus the sum of all `neg_` fields. |
| ForceSeries.RawTotalZero | frontend/src/components/ForcesTimeline.jsx:33 | When every listed force reads 0, the raw total is 0. |
| ForceSeries.RowZero | frontend/src/components/ForcesTimeline.jsx:29-41 | A row built from readings that are 0 at every listed id has every raw value, every band and the net equal to 0. |
| ForceSeries.NoForcesAllZero | frontend/src/components/ForcesTimeline.jsx:29-33 | A day with no `forces` map, an empty map, or only unknown ids gives a row with all raw values, all ten bands and the net equal to 0. |
| ForceSeries.FillReadsOnlyIds | frontend/src/components/ForcesTimeline.jsx:32-33 | The registry loop reads the forces map only at the registry ids. |
| ForceSeries.OnlyRegistryIdsRead | frontend/src/components/ForcesTimeline.jsx:32-33 | Two days with equal dates and equal readings of the five forces give identical rows. |
| ForceSeries.UnknownForceIgnored | frontend/src/components/ForcesTimeline.jsx:33 | Adding a reading for an id outside the registry leaves the row unchanged. |
| ForceSeries.FillReadsOnlyMetaIds | frontend/src/components/ForcesTimeline.jsx:32-38 | The loop uses a registry entry only through its id. |
| ForceSeries.MetadataIgnored | frontend/src/components/ForcesTimeline.jsx:10-16 | Registries with the same ids in the same order give identical chart data, whatever their names, colours and estimated flags. |
| ForceSeries.MapRows | frontend/src/components/ForcesTimeline.jsx:28-43 | There is one row per day, and row i is the row built from day i. |
| ForceSeries.ChartDataWith | frontend/src/components/ForcesTimeline.jsx:26-28 | There are as many rows as timeline days, and row i is built from day i. A missing payload or timeline counts as an empty timeline. |
| ForceSeries.ChartDataShape | frontend/src/components/ForcesTimeline.jsx:26-30 | A missing payload, a missing timeline and an empty timeline each give no rows. Otherwise the length is kept, and row i is built from day i and carries its date. |
| ForceSeries.MapRowsConcat | frontend/src/components/ForcesTimeline.jsx:28 | Rows depend only on their own day: the rows of `a + b` are the rows of `a` followed by the rows of `b`. |
| ForceSeries.ExampleReadings | frontend/src/components/ForcesTimeline.jsx:33 | For the example day, the registered forces read 0.4, -0.2, 0, 0 and 0. |
| ForceSeries.SeriesAt | frontend/src/components/ForcesTimeline.jsx:36-37 | In a built row, a listed force's `pos_`/`neg_` fields are the split of its reading. |
| ForceSeries.WorkedExampleBands | frontend/src/components/ForcesTimeline.jsx:33-37 | Readings of +0.4 market pressure and -0.2 emission pressure give `pos_market_pressure` 0.4, `neg_market_pressure` 0, `pos_emission_pressure` 0 and `neg_emission_pressure` -0.2. All six bands of the three absent forces are 0. |
| ForceSeries.WorkedExampleNet | frontend/src/components/ForcesTimeline.jsx:41 | The same readings give a net of 0.2. |
| ForcesTooltip.ShowSigned | frontend/src/components/ForcesTimeline.jsx:154-165 | A value gets the "+" prefix and the positive colour exactly when it is ≥ 0. Otherwise it gets no prefix and the negative colour. |
| ForcesTooltip.TooltipLines | frontend/src/components/ForcesTimeline.jsx:152-153 | There is one line per registry entry, in registry order, with the entry's metadata and its raw value (0 when missing). |
| ForcesTooltip.TooltipWith | frontend/src/components/ForcesTimeline.jsx:141-177 | The tooltip renders nothing exactly when it is inactive, the payload is missing or empty, or the first entry has no row or no `_raw`. Otherwise it shows the date, one line per registry entry in order (with the entry's name, colour and estimated flag, and `_raw[id]`, 0 when missing), and the net (0 when missing). Each value gets the sign rule: the "+" prefix and the positive colour exactly when it is ≥ 0. |
| ForcesTooltip.SignMatchesBands | frontend/src/components/ForcesTimeline.jsx:154-165 | "+" is shown exactly when the negative band is empty. A value of exactly 0 shows "+" in the positive colour although both of its bands are 0. |
| ForcesTooltip.LineOfRow | frontend/src/components/ForcesTimeline.jsx:153 | In a built row, `_raw` of a listed force reads the day's value, and its negative band is the split's negative part. |
| ForcesTooltip.TooltipOfChartRow | frontend/src/components/ForcesTimeline.jsx:143-177 | For a registry with distinct ids, hovering a chart row renders that day's date and each force's reading (0 when absent), with "+" exactly when its negative band is 0. The net shown is the day's raw total. |

## Left out

- Chart rendering (axes, areas, legend, grid, reference line), CSS classes and opacity numbers (`ForcesTimeline.jsx:50-136`, `159`). These are presentation built on a charting library outside this model.
- Rendering nothing for an empty series (`ForcesTimeline.jsx:48`). It only suppresses the chart; `ForceSeries.ChartDataShape` states when the series is empty.
- The `useHistoryData` hook and the loading and error branches (`ForcesTimeline.jsx:23`, `46-47`). The data-fetch hook is not part of this model, so the payload is a parameter of `ChartData`.
- `toFixed(3)`, `toFixed(1)` and `slice(5)` (`ForcesTimeline.jsx:66`, `73`, `165`, `177`). This is number and date text formatting, so only the sign prefix and colour are modelled.
- IEEE floating point: rounding, summation order, and NaN passing through `??` at `ForcesTimeline.jsx:33`. Values are reals.
- `useMemo` caching (`ForcesTimeline.jsx:25`, `44`). It is a rendering optimisation with no effect on the computed rows.
- A `null` force entry is modelled as an absent key. Both read as 0 in the source.
- Input shapes outside the record types are not modelled, for example a non-string date or a non-array timeline. The model's types rule them out.
- The tooltip's `label` argument. It is never used.
- `InfoDot.jsx`, `Footer.jsx` and `infoTexts.js`. They hold DOM event wiring and static text, with no logic to model.
