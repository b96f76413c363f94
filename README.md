# Pikeville crash map: the crash-record pipeline

This project is a Dafny model of the logic inside `js/app.js`, the script behind the Pikeville crash map. The script loads a CSV of crash records and drops parking-lot and out-of-city rows. It then normalizes the KABCO severity code and the manner-of-collision code of every row in place. Each row that survives is drawn as a circle marker in the layer group of its severity tier. A time slider and two dropdowns (manner of collision, travel mode) re-filter the load-time rows and redraw them. A legend lets the user attach and detach map layers.

The model covers:

- the static tables;
- the load filter, the normalization loop, `timeFilter` and the dropdown filters;
- `renderCrashes`, with its early returns and the exception a bad mode name raises;
- the state shared by `fetchData` and the three listeners;
- the legend's toggle logic.

Modules:

- `Wrappers`: `Option`.
- `Sequences`: `Array.prototype.filter` as `Filter`, with the order-preserving subsequence relation and its lemmas.
- `JsText`: the JavaScript conversions the script relies on: `parseInt(s, 10)`, the `isNaN(parseFloat(s))` test, and the loose equality `s == 1`.
- `Tables`: `layerProps`, `mannerOfCollisionMapping`, `modeMapping` and `timeGroups`, verbatim.
- `Pipeline`: rows as `map<string, string>`, the load filter, normalization (an in-place loop over an array), the time filter, and the manner and mode filters.
- `Render`: `renderCrashes` as a class `CrashLayers` whose `groups` map is cleared and then refilled row by row. Its specification is the function `Rendered`.
- `Legend`: the legend items, the set of attached layers, and each item's opacity.
- `App`: `fetchData` as the constructor of `CrashMap`, the three listeners as its methods, and lemmas about what a listener leaves on the map.

How JavaScript behaviour is modelled:

- **Exceptions.** `modeMapping[modeFilter].some(…)` throws when the mode filter is not a key of `modeMapping`. `timeGroups[index].range` throws when the slider index is out of range. These are modelled as `None` results, and a listener that throws returns `completed == false`.
- **Partial renders.** Inside `renderCrashes` a throwing callback ends the render, so the groups keep the markers added so far. This is the `Throw` step, and `FirstThrow` marks where the render stops.
- **The listeners' render call.** The listeners call `renderCrashes(filtered, crashLayers)` with two arguments. The filter parameters are therefore `undefined` and the in-render checks are switched off (`None, None`). The first render passes `null, null`, which is also `None`.

## Model

| member | source | states |
|---|---|---|
| Sequences.Filter | js/app.js:157-160 | the result is an order-preserving subsequence of the input; it holds exactly the elements that pass the test, and its length is their count |
| Sequences.FilterUnique | js/app.js:224-226 | any order-preserving subsequence made of passing elements, as long as their count, is the filter result |
| Sequences.FilterMonotonic | js/app.js:372-379 | a weaker test keeps a superset of the rows, in the same order |
| Sequences.FilterAppend | js/app.js:157-160 | filtering a concatenation is the concatenation of the filtered parts |
| Sequences.FilterFilter | js/app.js:356-366 | filtering twice equals one filter by the conjunction of both tests |
| Sequences.SubseqTransitive | js/app.js:356-366 | a subsequence of a subsequence of the data is a subsequence of the data |
| JsText.ParseIntRoundTrip | js/app.js:158 | `parseInt` of a decimal numeral followed by a non-digit reads back the numeral's value |
| JsText.ParseIntNeedsADigit | js/app.js:158 | a string with no decimal digit parses to NaN |
| JsText.FloatParsesWhenIntParses | js/app.js:168-171 | whatever `parseInt` reads as a number, `parseFloat` reads as a number too; a missing coordinate (`"undefined"`) is NaN |
| JsText.LooseEqualsOneOfNumeral | js/app.js:225 | a decimal numeral without leading zeros is `== 1` exactly when it is `"1"` |
| Tables.FindProp | js/app.js:172 | `find` returns the first entry with the identifier, or nothing exactly when no entry has it |
| Tables.FindSeverity | js/app.js:23-60 | the lookup in `layerProps` succeeds exactly for K, A, B, C and O, and yields that code's own tier |
| Tables.SizesFollowSeverity | js/app.js:23-60 | marker radii strictly decrease from K to O |
| Tables.AllCrashesSpansTheDay | js/app.js:94-104 | slider position 0 is [0, 2359] and contains every other position's range |
| Tables.BucketsAscendingAndDisjoint | js/app.js:94-104 | positions 1 to 8 are non-empty and ascending, so no two of them overlap |
| Tables.ClockTimeInExactlyOneBucket | js/app.js:94-104 | every HHMM time with hour 0–23 and minute 0–59 lies in exactly one of positions 1 to 8, namely hour/3 + 1 |
| Pipeline.LoadFilter | js/app.js:224-226 | `filteredData` is the order-preserving subsequence of rows that are not in a parking lot and have `CityCrash == 1` |
| Pipeline.NormalizeRow | js/app.js:303-314 | the row is normalized; a valid KABCO or manner code is kept; anything else becomes `"O"` or `"UNKNOWN"`; no other field changes |
| Pipeline.NormalizeIdempotent | js/app.js:303-314 | a normalized row is a fixed point, so normalizing twice equals normalizing once |
| Pipeline.NormalizeAll | js/app.js:303-314 | every row is normalized, position by position |
| Pipeline.NormalizeRows | js/app.js:303-314 | the in-place loop leaves the array equal to the normalization of its old contents |
| Pipeline.TimeFilter | js/app.js:156-161 | the result is an order-preserving subsequence holding exactly the rows whose parsed `CollisionTime` lies in the range; unparseable times are never kept |
| Pipeline.TimeFilterMonotonic | js/app.js:156-161 | widening the range keeps a superset, in order |
| Pipeline.HandlerTest | js/app.js:372-379 | the callback throws exactly when the manner test passes and the mode is not a key; otherwise it is the AND of the two tests |
| Pipeline.HandlerFilter | js/app.js:372-379 | the filter throws exactly when some row's callback throws; otherwise it is `Filter` by the AND of the tests |
| Pipeline.KnownModeNeverThrows | js/app.js:375-377 | a mode that is a key of `modeMapping`, or is switched off, never throws |
| Pipeline.Visible | js/app.js:356-366 | the rows a listener shows are one filter of the full load-time data by all three tests: exactly the rows in the time range that match both dropdown filters, in order and with their multiplicity; a known mode never throws |
| Pipeline.ClearingMannerWidens | js/app.js:373-374 | clearing the manner filter only adds rows, and if the cleared filter does not throw then the set one does not either |
| Pipeline.ClearingModeWidens | js/app.js:375-377 | clearing the mode filter only adds rows and never throws |
| Render.RenderStep | js/app.js:167-203 | a row is placed exactly when its coordinates parse, its KABCO code is a tier and it matches the filters; the callback throws exactly when the manner test passes on such a row and the mode is unknown |
| Render.StepsOf | js/app.js:167 | one callback decision per row, in order; every placement goes to an existing group |
| Render.FirstThrow | js/app.js:167-204 | the render stops at the first throwing callback, or runs through all rows |
| Render.Layers | js/app.js:164-166 | after any run of steps every tier has its own group and there are no other groups |
| Render.LayersPlaced | js/app.js:164-203 | each group holds exactly the markers placed under its key, in order, starting from an empty group |
| Render.LayersEmpty | js/app.js:164-166 | clearing every group gives the groups of an empty run |
| Render.LayersNext | js/app.js:203 | one more row appends its marker, if any, to the group of its code |
| Render.KnownModeRendersAll | js/app.js:175-180 | with a known or switched-off mode, no callback throws |
| Render.RenderedLayer | js/app.js:163-205 | with a known mode, group k receives the markers of exactly the rows with code k, parseable coordinates and matching filters, in input order, styled as tier k |
| Render.RenderedGroups | js/app.js:163-205 | after a render with a known mode, group k holds exactly those markers and nothing from earlier renders |
| Render.OnlyParseableRowsDrawn | js/app.js:168-173 | whatever the filters, and even when the render throws, every marker in group k stands for an input row with code k and parseable coordinates |
| Render.PlacedBy | js/app.js:203 | every marker in a group was added by some row under that group's key |
| Render.CrashLayers.constructor | js/app.js:317-318 | one empty group per tier |
| Render.CrashLayers.RenderCrashes | js/app.js:163-205 | the groups afterwards equal `Rendered` of the data and the filters; it reports a throw exactly when some callback throws |
| Render.CrashLayers.ClearAndAdd | js/app.js:164-204 | clears every group, then runs the callback on each row until one throws, adding each marker to the group of its key |
| Legend.EntriesDistinct | js/app.js:334-541 | no layer has two legend items |
| Legend.OpacityFor | js/app.js:570-574 | an item's opacity is `"1"` exactly when its layer is attached and `"0.4"` exactly when it is not; an item with a null layer has none |
| Legend.Toggle | js/app.js:576-582 | the clicked layer's attachment flips and no other layer changes |
| Legend.ToggleTwice | js/app.js:575-583 | two clicks on the same item restore the map |
| Legend.ToggleCommutes | js/app.js:575-583 | clicks on different items commute |
| Legend.InitialOpacities | js/app.js:565-574 | at set-up the crash, High Injury Network and highway plan items are opaque, the intersection items are faded and the MEPDO item has no opacity |
| Legend.LegendControl.constructor | js/app.js:563-574 | every item with a layer gets the opacity of that layer's current attachment |
| Legend.LegendControl.Click | js/app.js:575-583 | clicking an item with a layer flips that layer and updates only that item's opacity, keeping every opacity consistent; clicking an item without a layer changes nothing |
| App.HandlerLayer | js/app.js:353-393 | after a listener re-renders, group k holds the markers of exactly the load-time rows that pass all three filters, have code k and have parseable coordinates, in load order |
| App.UntimedRowOnlyInitially | js/app.js:350-368 | a drawable row with an unparseable `CollisionTime` is kept by the first render's filter and has a marker in its tier's group, but is never shown by a listener, not even for "All Crashes" |
| App.TierCountsPartition | js/app.js:317-319 | over normalized rows, such as the `data` that `FetchData` builds, the five legend counts add up to the number of rows |
| App.LoadRows | js/app.js:224-314 | the rows `fetchData` keeps are the normalized load-filter result |
| App.CrashMap.FetchData | js/app.js:210-350 | the data is the normalized load-filter result; the filters start off with the range [0, 2359]; the groups are the unfiltered render; the legend starts from the layers attached at set-up |
| App.CrashMap.Refresh | js/app.js:372-380 | the time filter, then the dropdown filters, then a render with the filter parameters undefined; if the dropdown filter throws, nothing is redrawn |
| App.CrashMap.OnSliderInput | js/app.js:353-369 | an out-of-range index changes nothing; otherwise the range becomes that position's and the groups become the render of the visible rows, unless the mode filter throws |
| App.CrashMap.OnMannerChange | js/app.js:370-381 | the manner filter becomes the selected value, the other filters stay, and the groups become the render of the visible rows unless the mode filter throws |
| App.CrashMap.OnModeChange | js/app.js:382-393 | the mode filter becomes the selected value, the other filters stay, and the groups become the render of the visible rows unless the dropdown filter throws, which happens when the value is a non-empty string that is not a mode and some time-filtered row passes the manner test |

After a listener that completes, the groups depend only on the load-time data and the current time range, manner filter and mode filter, never on an earlier render. Re-selecting an earlier setting therefore redraws the earlier groups. A listener that throws leaves the groups as they were.

## Left out

- Leaflet and the DOM are not part of this model. That covers map creation, panes, tiles, bounds, GeoJSON styling, hover restyling, popups, the spinner, the slider label, dropdown population and the `innerHTML` assembly of the legend. Only the layer identities, the attached set and each item's opacity are modelled.
- The `d3.csv`/`d3.json` fetches and `Promise.all` are I/O: `FetchData` receives the parsed CSV rows as a parameter. The GeoJSON layers appear only by identity (`LayerId`).
- The intersection layers, the MEPDO values, `calcRadiusMEPDO` and the MEPDO graphic use floating-point arithmetic and are not modelled. The MEPDO legend entry is only the item whose layer is null.
- Coordinates are not converted to numbers. A marker keeps its row, and `CoordsParse` records only whether both `parseFloat` calls give a number.
- LooseEqualsOne: `CityCrash == 1` is modelled for decimal numerals (with an optional `+`, leading zeros and an all-zero fraction) and for `0x`/`0o`/`0b` literals. Numerals with an exponent (`"1e0"`, `".1e1"`) and decimal strings that round to exactly 1 as a double are not recognised.
- ParseInt returns unbounded integers. JavaScript rounds values beyond 2^53 in magnitude, but rounding keeps them outside every clock-time range, so the time filter gives the same result.
- Legend labels and counts: the label HTML is left out. Only the counts in the tier labels are modelled (`TierCount`), as a function of `CrashMap.data`. They are not stored as part of the legend's state.
- Rows are values, not shared objects. The normalization loop rewrites an `array<Record>` in place, but the identity of row objects shared between arrays is not modelled.
- `OnSliderInput` takes the slider value as an integer. The browser gives it as a string, which the model does not represent.
- The intersection layers start detached. They are created after the layers that are attached at set-up and are never added to the map, so their legend items start at opacity `"0.4"`. The model follows the code here.
