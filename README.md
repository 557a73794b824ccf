# dc.js geo choropleth and word cloud charts in Dafny

This project models the self-contained logic of two dc.js charts and proves properties of it.

In the **geo choropleth chart** (`src/geo-choropleth-chart.js`) the model covers:

- the ordered registry of GeoJSON layers (`overlayGeoJson`, `removeGeoJson`, `geoJson`, `isDataLayer`);
- the key-to-value table built for each render (`generateLayeredData`);
- the three-way selected / deselected / neither classification of a region and its class string;
- the mouse-wheel dispatcher, with its three wrappers and the `allMouseWheel` cooldown flag;
- drill-down and roll-up (`_drillDown`, `_rollUp`);
- the fit-to-bounds and centre-anchored rescale arithmetic (`getTransformFromBounds`, `addScale`);
- the text of the layer group's `transform` attribute: the string `setTransform` writes and the object `parseTransform` reads back.

In the **word cloud chart** (`src/word-cloud-chart.js`) the model covers:

- the linear font-size scale between 11 px and 30 px (`getSize`) and the extremes it is built from;
- the same classification with its word class string;
- the nullable drill-down and roll-up callbacks;
- the wheel handler, which calls only registered callbacks, behind a 3000 ms cooldown.

## Layout

| file | module | contents |
|---|---|---|
| `options.dfy` | `Options` | `Option` |
| `selection.dfy` | `Selection` | `isSelected` / `isDeselected` over the filter set, both class strings |
| `wheel_events.dfy` | `WheelEvents` | wheel direction, callback handles, the disabled-actions table |
| `transform_text.dfy` | `TransformText` | the `parseTransform` scanner (its regular expression written out), its defaults, the `setTransform` string, the round trip |
| `viewport.dfy` | `Viewport` | `getTransformFromBounds`, `addScale` over exact reals |
| `geo_layers.dfy` | `GeoLayers` | layers, lookup and removal by name, `generateLayeredData` |
| `geo_chart.dfy` | `GeoChoropleth` | the chart class, the wheel step as a function, runs of wheel events and timer expiries |
| `word_cloud.dfy` | `WordCloud` | `getSize`, the word cloud class, its wheel step and runs |

### How the outside world appears

- **Timers.** A `d3.timer` that re-enables an action is an outgoing `StartTimer(name, delay)` effect. The timer firing is an explicit input: `EnableAction(name)` on the class, or `Expire(name)` in a run.
- **Other effects.** `_adaptTo`, the application's callbacks and `preventDefault` are also effects. A wheel handler returns its effects as a list, in the order the source performs them.
- **Callbacks.** A callback is a `Callback` handle; only its identity is modelled.
- **Base-mixin and d3 inputs.** These are parameters:
  - the base mixin's `hasFilter` is the set of filtered keys;
  - the chart's `data()` rows and its key and value accessors are given to `GenerateLayeredData`;
  - the group values are given to the word cloud's `Render`;
  - `dc.utils.nameToId` of a key is the `regionId` parameter;
  - the bounding box of `d3.geo.path().bounds` is a `Bounds` parameter;
  - the chart's width and height are parameters.
- **Numbers.** Arithmetic is over `real`. `parseTransform` keeps the matched argument strings, as JavaScript does; the defaults it fills in are the numerals `"0"` and `"1"` (see "## Left out"). `NumeralValue` gives the number a string stands for, which is what JavaScript's coercion yields on the tokens the scanner can produce and on those defaults.

### Behaviour of the code worth knowing

- **One cooldown flag.** There is a single `allMouseWheel` cooldown flag, shared by both directions (src/geo-choropleth-chart.js:322-330).
- **Roll-up target.** `_rollUp` targets layer `length - 2` when there are at least two layers, and otherwise layer 0; no current level is stored. It calls the roll-up callback exactly when there are at least two layers.
- **Drill target.** Drill-down targets the datum under the cursor, whatever the selection.
- **Wheel direction.** Direction is read from two fields, `deltaY` and `wheelDeltaY`. One event can be both a zoom-in and a zoom-out, and the drill-down branch is checked first.
- **Boxes without width or height.** A box with zero width but positive height (or the reverse) fits normally. `FitToBounds` requires the larger of the two ratios (extent over canvas size) to be positive. That excludes the box with no extent, which divides by zero, and the box whose extents are both negative, which would give a negative scale.
- **Timers cannot be cancelled.**

## Model

| member | source | states |
|---|---|---|
| `TransformText.MatchAt` | src/geo-choropleth-chart.js:453-454 | A match of `/(\w+\((\-?\d+\.?\d*,?)+\))/g` at the front of a string has a positive length within the string and at least one argument |
| `TransformText.Scan` | src/geo-choropleth-chart.js:453 | Yields the matches of the global scan left to right |
| `TransformText.Tokens` | src/geo-choropleth-chart.js:454 | The pieces `/[\w\.\-]+/g` yields on an argument list are non-empty and contain no comma |
| `TransformText.NumeralValue` | src/geo-choropleth-chart.js:412-418 | On the tokens the scanner yields (runs of digits, `-` and `.`) and on the defaults `"0"` and `"1"`, a string coerces to a number exactly when it is in the grammar `-?\d+\.?\d*`; other strings JavaScript's `Number` accepts (`" 7"`, `".5"`, `"1e3"`, `""`) never reach it |
| `TransformText.NumeralChars` | src/geo-choropleth-chart.js:453 | Every numeral is non-empty, starts with `-` or a digit, and consists of characters the argument group accepts, none of them a comma |
| `TransformText.WithDefaults` | src/geo-choropleth-chart.js:458-469 | Translate and scale are always present with at least two components; a missing translate is `0,0` and a one-component translate gets `ty = 0`; a missing scale is `1,1` and a one-component scale is duplicated; longer lists and all other names are untouched |
| `TransformText.Collect` | src/geo-choropleth-chart.js:453-456 | Entries already present stay present, and the last match's name maps to that match's argument list |
| `TransformText.ParsedTransform` | src/geo-choropleth-chart.js:447-472 | The parsed object always has translate and scale with at least two components each, and no entry is an empty list |
| `TransformText.CollectMatches` | src/geo-choropleth-chart.js:447-456 | The loop over the matches, each overwriting its name's entry, builds exactly `Fields`, and every entry has at least one argument |
| `TransformText.ParseTransform` | src/geo-choropleth-chart.js:447-472 | The loop of `CollectMatches` followed by the defaults computes exactly `ParsedTransform` |
| `TransformText.ParseEmpty` | src/geo-choropleth-chart.js:447-466 | `null` and `""` parse to translate `0,0` and scale `1,1` and nothing else |
| `TransformText.CollectUntouched` | src/geo-choropleth-chart.js:453-456 | A name that no later match carries keeps its earlier entry, or stays absent |
| `TransformText.CollectLast` | src/geo-choropleth-chart.js:453-456 | A name's entry is the argument list of its last match |
| `TransformText.CollectKeys` | src/geo-choropleth-chart.js:453-456 | The object has an entry for exactly the names some match carries |
| `TransformText.ParseKeepsLastOccurrence` | src/geo-choropleth-chart.js:453-456 | For any name other than translate and scale, including an unknown one, the parse keeps the arguments of its last occurrence |
| `TransformText.ParseKeys` | src/geo-choropleth-chart.js:451-469 | The parse has an entry exactly for translate, scale and every matched name |
| `TransformText.CallMatches` | src/geo-choropleth-chart.js:431 | A call `name(args)` with a `\w` name and a valid argument list matches at its start, over its whole length |
| `TransformText.ScanCall` | src/geo-choropleth-chart.js:453 | Scanning a call followed by more text yields the call's match and then the scan of the rest |
| `TransformText.ScanTwoCalls` | src/geo-choropleth-chart.js:453 | Two calls, each followed by a blank, scan to exactly their two matches |
| `TransformText.TransformAttr` | src/geo-choropleth-chart.js:431 | The attribute text `setTransform` writes; it has no contract of its own, and `AttrMatches` and `ParseSetTransformRoundTrip` state how it scans and parses |
| `TransformText.AttrMatches` | src/geo-choropleth-chart.js:431 | The attribute `setTransform` writes scans to exactly a translate match with two arguments, then a scale match with one |
| `TransformText.ParseSetTransformRoundTrip` | src/geo-choropleth-chart.js:447-472 | Parsing `"translate(tx,ty) scale(s) "` with numerals gives back translate `[tx, ty]`, scale `[s, s]` and no other entry |
| `Viewport.Max` | src/geo-choropleth-chart.js:438 | The result is at least both arguments and is one of them |
| `Viewport.FitToBounds` | src/geo-choropleth-chart.js:437-442 | The scale is positive; the scaled box is at most 95% of the canvas on each axis, and exactly 95% on the axis with the larger ratio; the box's midpoint lands on the canvas centre |
| `Viewport.FitInsideCanvas` | src/geo-choropleth-chart.js:437-442 | The fitted box lies strictly inside `(0, w) x (0, h)` |
| `Viewport.ScaleAboutCentre` | src/geo-choropleth-chart.js:412-420 | The new scale is the old scale times the factor |
| `Viewport.ScaleAboutCentreStretches` | src/geo-choropleth-chart.js:415-420 | After the rescale every map point lands `factor` times as far from the canvas centre, in the same direction |
| `Viewport.ScaleAboutCentreComposes` | src/geo-choropleth-chart.js:408-421 | Two rescales are one rescale by the product of the factors |
| `Viewport.ScaleAboutCentreKeepsCentre` | src/geo-choropleth-chart.js:415-420 | A map point on the canvas centre stays on the centre after the rescale |
| `Viewport.CurrentTransform` | src/geo-choropleth-chart.js:410-414 | `addScale`'s starting transform exists exactly when the parsed scale and both translate components are numerals |
| `Viewport.AddScale` | src/geo-choropleth-chart.js:408-421 | Defined exactly when the starting transform is; the new scale is the old one times the factor; every map point lands `factor` times as far from the canvas centre as before, so a point on the centre stays there |
| `Viewport.ScaleAboutCentreStretchesAll` | src/geo-choropleth-chart.js:415-420 | The stretch about the canvas centre holds for every map point at once |
| `Viewport.CurrentTransformOfEmpty` | src/geo-choropleth-chart.js:410-414 | With no attribute, or an empty one, `addScale` starts from scale 1 and translation `(0, 0)` |
| `Viewport.CurrentTransformRoundTrip` | src/geo-choropleth-chart.js:410-431 | Reading back the attribute `setTransform` wrote gives the scale and translation it was given |
| `Viewport.AddScaleFromIdentity` | src/geo-choropleth-chart.js:408-421 | `addScale(f)` on a fresh layer group sets scale `f` and keeps the canvas centre fixed |
| `Selection.IsSelected` | src/geo-choropleth-chart.js:133-135 | An item is selected exactly when its key is filtered, so the `hasFilter()` test is implied (also src/word-cloud-chart.js:115-117) |
| `Selection.IsDeselected` | src/geo-choropleth-chart.js:137-139 | An item is deselected exactly when some filter is active and it is not selected (also src/word-cloud-chart.js:122-124) |
| `Selection.ClassificationIsThreeWay` | src/geo-choropleth-chart.js:133-139 | With no active filter an item is neither selected nor deselected; otherwise it is exactly one of the two, and selected iff its key is filtered |
| `Selection.RegionClass` | src/geo-choropleth-chart.js:118-125 | The region class is `layer key`, with ` selected` appended when the key is filtered and ` deselected` when another key is |
| `Selection.WordClass` | src/word-cloud-chart.js:72-77 | `dc-word` with no active filter; otherwise `dc-word selected` iff the key is filtered, else `dc-word deselected` |
| `Selection.WordClassOneOfThree` | src/word-cloud-chart.js:72-77 | The word class is one of three strings and never carries both suffixes |
| `WheelEvents.IsZoomIn` | src/geo-choropleth-chart.js:321 | For an event carrying only `deltaY` it is `deltaY < 0`; for one carrying only `wheelDeltaY` it is `wheelDeltaY > 0` |
| `WheelEvents.IsZoomOut` | src/geo-choropleth-chart.js:328 | An event is both a zoom-in and a zoom-out only when it carries both fields |
| `WheelEvents.DelayAndEnable` | src/geo-choropleth-chart.js:356-363 | Delaying an action disables it, enabling it clears it, and neither touches another action |
| `WheelEvents.NoFieldsNoDirection` | src/geo-choropleth-chart.js:321-328 | An event with neither `deltaY` nor `wheelDeltaY` is neither a zoom-in nor a zoom-out |
| `GeoLayers.FindName` | src/geo-choropleth-chart.js:221-222 | Finds the first layer of a name, or reports that no layer has it |
| `GeoLayers.Without` | src/geo-choropleth-chart.js:265-275 | The kept layers are never more than the registered ones |
| `GeoLayers.WithoutMembers` | src/geo-choropleth-chart.js:265-275 | Every kept layer was registered and has another name, and every registered layer with another name is kept |
| `GeoLayers.WithoutAppend` | src/geo-choropleth-chart.js:268-273 | Removing from two registries placed end to end is removing from each |
| `GeoLayers.WithoutPosition` | src/geo-choropleth-chart.js:265-275 | A kept layer lands at the position given by the number of layers kept before it |
| `GeoLayers.WithoutSnoc` | src/geo-choropleth-chart.js:268-273 | One loop step: a layer is kept iff its name differs |
| `GeoLayers.WithoutAbsent` | src/geo-choropleth-chart.js:265-275 | Removing an absent name changes nothing |
| `GeoLayers.WithoutKeepsOrder` | src/geo-choropleth-chart.js:265-275 | Of two kept layers, the earlier one lands at the earlier position |
| `GeoLayers.WithoutIdempotent` | src/geo-choropleth-chart.js:265-275 | Removing a name twice is removing it once |
| `GeoLayers.OverlayKeepsUniqueNames` | src/geo-choropleth-chart.js:220-230 | Insert-or-replace by name keeps layer names unique |
| `GeoLayers.WithoutKeepsUniqueNames` | src/geo-choropleth-chart.js:265-275 | Removal keeps layer names unique |
| `GeoLayers.GenerateLayeredData` | src/geo-choropleth-chart.js:96-103 | The table has exactly the rows' keys, and each key maps to the value of the last row with that key |
| `GeoChoropleth.Wheel` | src/geo-choropleth-chart.js:314-338 | The handler either leaves the flags as they are, or, only when `allMouseWheel` was enabled, sets that one flag; the lemmas below state its effects branch by branch |
| `GeoChoropleth.RollUpEffects` | src/geo-choropleth-chart.js:376-384 | With at least two layers, re-fit to layer `length - 2` in 700 ms, then call the roll-up callback; otherwise re-fit to layer 0 and call nothing |
| `GeoChoropleth.GeoChoroplethChart.constructor` | src/geo-choropleth-chart.js:352-354 | No layers, `allMouseWheel` enabled, no callbacks |
| `GeoChoropleth.GeoChoroplethChart.OverlayGeoJson` | src/geo-choropleth-chart.js:220-230 | If a layer has the name, the first such layer gets the new data and accessor in place and nothing else changes; otherwise one layer is appended |
| `GeoChoropleth.GeoChoroplethChart.RemoveGeoJson` | src/geo-choropleth-chart.js:265-277 | The registry becomes exactly `Without(old registry, name)` |
| `GeoChoropleth.GeoChoroplethChart.GeoJson` | src/geo-choropleth-chart.js:145-147 | The layer at an index inside the registry, `undefined` (None) outside |
| `GeoChoropleth.GeoChoroplethChart.GetKey` | src/geo-choropleth-chart.js:141-143 | The key the layer's own accessor gives the feature; it has no contract of its own beyond needing a data layer |
| `GeoChoropleth.GeoChoroplethChart.IsDataLayer` | src/geo-choropleth-chart.js:105-107 | True iff the layer has a key accessor |
| `GeoChoropleth.GeoChoroplethChart.SetCallbackOnDrillDown` | src/geo-choropleth-chart.js:282-286 | The drill-down callback becomes the argument |
| `GeoChoropleth.GeoChoroplethChart.SetCallbackOnRollUp` | src/geo-choropleth-chart.js:291-294 | The roll-up callback becomes the argument |
| `GeoChoropleth.GeoChoroplethChart.DelayAction` | src/geo-choropleth-chart.js:356-359 | Disables the action and starts the timer that re-enables it |
| `GeoChoropleth.GeoChoroplethChart.EnableAction` | src/geo-choropleth-chart.js:361-363 | Clears the action's flag |
| `GeoChoropleth.GeoChoroplethChart.DrillDown` | src/geo-choropleth-chart.js:368-371 | Re-fit to the datum in 750 ms, then call the drill-down callback with its id |
| `GeoChoropleth.GeoChoroplethChart.RollUp` | src/geo-choropleth-chart.js:376-384 | Performs `RollUpEffects` on the current registry |
| `GeoChoropleth.GeoChoroplethChart.OnMouseWheel` | src/geo-choropleth-chart.js:314-338 | The new flag table and the effects are those of the wheel step `Wheel` |
| `GeoChoropleth.GeoChoroplethChart.OnMouseWheelRollUp` | src/geo-choropleth-chart.js:299-301 | The wheel step with drilling off and rolling up on, and no datum |
| `GeoChoropleth.GeoChoroplethChart.OnMouseWheelDrillDown` | src/geo-choropleth-chart.js:303-305 | The wheel step with drilling on and rolling up off |
| `GeoChoropleth.GeoChoroplethChart.OnMouseWheelDrillDownRollUp` | src/geo-choropleth-chart.js:307-309 | The wheel step with both on |
| `GeoChoropleth.WheelWhileDisabled` | src/geo-choropleth-chart.js:321-336 | While `allMouseWheel` is disabled, every wheel event is callable and only cancels scrolling; the flags are unchanged |
| `GeoChoropleth.WheelDrillsDown` | src/geo-choropleth-chart.js:321-325 | With the flag clear, a zoom-in on a drilling handler sets the flag and yields timer(700), re-fit(datum, 750), drill-down callback(id), preventDefault |
| `GeoChoropleth.WheelRollsUp` | src/geo-choropleth-chart.js:328-332 | With the flag clear, a zoom-out not taken by the drill branch sets the flag and yields timer(700), the roll-up effects, preventDefault |
| `GeoChoropleth.WheelAlwaysPreventsDefault` | src/geo-choropleth-chart.js:336 | Every wheel event ends with exactly one `preventDefault` |
| `GeoChoropleth.BackgroundNeverDrillsDown` | src/geo-choropleth-chart.js:299-301 | The svg background handler never calls the drill-down callback or fits to a single region |
| `GeoChoropleth.WheelQuietKeepsFlag` | src/geo-choropleth-chart.js:321-336 | An event that takes neither branch leaves the flags as they were and only cancels scrolling |
| `GeoChoropleth.WheelRefits` | src/geo-choropleth-chart.js:321-333 | One wheel event re-fits the viewport at most once, and only when it sets the flag |
| `GeoChoropleth.RunWhileDisabled` | src/geo-choropleth-chart.js:321-363 | While no timer expiry arrives, a disabled flag stays disabled, and any number of wheel events only cancel scrolling |
| `GeoChoropleth.RunNavigatesAtMostOnce` | src/geo-choropleth-chart.js:321-363 | A burst of wheel events with no timer expiry in between re-fits the viewport at most once |
| `GeoChoropleth.ExpiryReenables` | src/geo-choropleth-chart.js:361-363 | After the timer fires, a zoom-in on a region drills down again, whatever the flag was |
| `WordCloud.GetSize` | src/word-cloud-chart.js:99-102 | The linear scale from `[min, max]` onto `[11, 30]`; it has no contract of its own, and the four lemmas below state its properties |
| `WordCloud.GetSizeEndpoints` | src/word-cloud-chart.js:99-102 | The smallest value gets 11 px and the largest 30 px |
| `WordCloud.GetSizeStrictlyIncreasing` | src/word-cloud-chart.js:99-102 | A larger value gets a strictly larger size |
| `WordCloud.GetSizeInRange` | src/word-cloud-chart.js:99-102 | Every value between the extremes gets a size between 11 px and 30 px |
| `WordCloud.GetSizeInverse` | src/word-cloud-chart.js:99-102 | The size determines the value: `ValueOfSize` undoes `GetSize` |
| `WordCloud.Least` | src/word-cloud-chart.js:62 | The smallest group value: one of the values and at most every value |
| `WordCloud.Greatest` | src/word-cloud-chart.js:63 | The largest group value: one of the values and at least every value |
| `WordCloud.Wheel` | src/word-cloud-chart.js:147-175 | The handler either leaves the flags as they are, or, only when `allMouseWheel` was enabled, sets that one flag; the lemmas below state its effects |
| `WordCloud.WheelWhileDisabled` | src/word-cloud-chart.js:158-173 | While the flag is set no callback is called and the flags are unchanged |
| `WordCloud.WheelDrillsDown` | src/word-cloud-chart.js:158-163 | With the flag clear, a zoom-in with a drill-down callback sets the flag and yields timer(3000), the callback with the datum, preventDefault |
| `WordCloud.WheelRollsUp` | src/word-cloud-chart.js:165-170 | With the flag clear, a zoom-out with a roll-up callback, when the drill branch does not take it, sets the flag and yields timer(3000), the callback, preventDefault |
| `WordCloud.WheelUnregisteredIsQuiet` | src/word-cloud-chart.js:158-170 | With no callback registered for the event's direction nothing is called and the flags are unchanged |
| `WordCloud.WheelCallsOnlyRegistered` | src/word-cloud-chart.js:158-173 | Every call goes to the registered callback of its kind (drill-down with the datum), and the last effect is `preventDefault` |
| `WordCloud.WheelCallsAtMostOnce` | src/word-cloud-chart.js:158-170 | One event calls at most one callback, and only when it sets the flag |
| `WordCloud.RunWhileDisabled` | src/word-cloud-chart.js:147-192 | While no timer expiry arrives, a set flag stays set and no callback is called, however many events arrive |
| `WordCloud.RunCallsAtMostOnce` | src/word-cloud-chart.js:147-192 | A burst of wheel events with no timer expiry in between calls back at most once |
| `WordCloud.WordCloudChart.constructor` | src/word-cloud-chart.js:181-183 | `allMouseWheel` enabled, extremes unknown, both callback getters return null |
| `WordCloud.WordCloudChart.Render` | src/word-cloud-chart.js:62-63 | `min` and `max` become the smallest and the largest group value |
| `WordCloud.WordCloudChart.Size` | src/word-cloud-chart.js:99-102 | Once the extremes differ, every value between them gets a size between 11 px and 30 px |
| `WordCloud.WordCloudChart.CallbackDrillDown` | src/word-cloud-chart.js:201-207 | The getter: the stored callback, or null; it has no contract of its own, and the constructor and `SetCallbackDrillDown` state what it returns |
| `WordCloud.WordCloudChart.CallbackRollUp` | src/word-cloud-chart.js:221-227 | The getter: the stored callback, or null; the constructor and `SetCallbackRollUp` state what it returns |
| `WordCloud.WordCloudChart.SetCallbackDrillDown` | src/word-cloud-chart.js:201-213 | The getter returns the callback just set, and null after null is set |
| `WordCloud.WordCloudChart.SetCallbackRollUp` | src/word-cloud-chart.js:221-233 | The getter returns the callback just set, and null after null is set |
| `WordCloud.WordCloudChart.DelayAction` | src/word-cloud-chart.js:185-188 | Disables the action and starts the timer that re-enables it |
| `WordCloud.WordCloudChart.EnableAction` | src/word-cloud-chart.js:190-192 | Clears the action's flag |
| `WordCloud.WordCloudChart.OnMouseWheel` | src/word-cloud-chart.js:147-175 | The new flag table and the effects are those of the wheel step `Wheel` with the registered callbacks |

## Left out

- Rendering through d3 and the DOM is left out: `_doRender`, `_doRedraw`, `renderPaths`, `renderTitle`, the DOM writes of `plotData`, `layerSelector`, the legend and the word cloud's `div` building. These are side effects in a library that is not part of this model.
- `_adaptTo` appears only as an `AdaptTo(target, duration)` effect. Its parts are modelled separately by `FitToBounds` and the `setTransform` string. The bounds come from `d3.geo.path`, which, like `projection`, is not part of this model.
- `setTransform`'s transition and stroke width are left out, as are `addTranslate` and `panMap`. They are attribute concatenation and animation.
- Timers and animation timing are left out. A timer is a `StartTimer` effect, and its expiry is an explicit input.
- Everything holding a mouse-wheel event is left out:
  - the `d3.event` object, except its `deltaY` and `wheelDeltaY` fields;
  - the event return value `false`.
- Floating point, NaN and Infinity are left out. The arithmetic is over `real`. The divisions by zero are excluded by preconditions:
  - a box whose larger ratio of extent to canvas size is not positive, for `FitToBounds` (a box with no extent divides by zero; one with both extents negative would give a negative scale);
  - equal extremes, for `GetSize` and `WordCloudChart.Size`.
- Numbers that JavaScript prints in exponent form (`1e-7`, `1e21`) are left out. The transform regular expression does not match them, and `parseTransform` then silently drops that entry. `CurrentTransformRoundTrip` and `ParseSetTransformRoundTrip` therefore require their numbers to be numerals of the grammar `-?\d+\.?\d*`. Number-to-string formatting is also left out.
- JavaScript objects as dictionaries are only partly modelled:
  - `generateLayeredData` keys are coerced to strings in JavaScript, so two distinct keys that print alike would share an entry there; here a `map` keeps them apart;
  - names inherited from `Object.prototype` (such as `constructor`) are not modelled in `parseTransform`'s object.
- Aliasing of layer objects is left out. `overlayGeoJson` updates the existing layer object in place, and other holders of that object see the change. Here the registry element is replaced.
- Both `onClick` handlers are left out; their work is done by the base mixin (filtering, redraws, event triggers). So are the `geoJsons()` and `projection` accessors.
- `src/color-mixin.js` is not part of this model. It delegates to d3 scales and builds a DOM legend.
- `spec/word-cloud-spec.js` is not part of this model. It only reads configured values back.
- `onMouseWheel`'s defaults for an `undefined` `drillDown` or `rollUp` (src/geo-choropleth-chart.js:315-318) are left out: every wrapper passes both, so `Wheel` takes booleans.
- The word cloud's locals `drillDown` and `rollUp` (src/word-cloud-chart.js:149-155) are left out: they are always true and are never read.
- GeoChoropleth.GeoChoroplethChart.DrillDown requires a registered drill-down callback. Without one JavaScript throws a TypeError when it calls it, which is not modelled as an outcome.
- GeoChoropleth.GeoChoroplethChart.RollUp requires a registered roll-up callback once there are two layers, for the same reason.
- GeoChoropleth.GeoChoroplethChart.OnMouseWheel requires a datum and the callback of the branch it takes, for the same reason (reading `d.id` of `undefined` also throws).
- GeoChoropleth.GeoChoroplethChart.IsDataLayer requires an index inside the registry; outside it `geoJson(index)` is `undefined` and reading `keyAccessor` throws.
- GeoChoropleth.GeoChoroplethChart.GetKey requires an index inside the registry and a layer with a key accessor, for the same reason.
- GeoChoropleth.Run and WordCloud.Run hold the layers and callbacks fixed during a run of events. Registering layers or callbacks between events is modelled by the class methods, not by the runs.
- GeoChoropleth.Run assumes a configuration in which every event can be handled: at least one layer and both callbacks.
- WordCloud.WordCloudChart.Render requires a non-empty group. On an empty group `top(1)[0]` is `undefined` and reading its `value` throws a TypeError (src/word-cloud-chart.js:62-63); the model does not represent that outcome.
- WordCloud.Least and WordCloud.Greatest require a non-empty list of values, for the same reason as `Render`.
- GeoChoropleth.CanRollUp requires at least one layer, so an empty registry is excluded from roll-up. The source then throws when `_rollUp` reads `geoJson(0).data` (src/geo-choropleth-chart.js:382), after `_delayAction` has already set the flag and started the timer (src/geo-choropleth-chart.js:330). The model does not represent that partial effect.
- GeoChoropleth.RollUpEffects requires `CanRollUp`, so it excludes the empty registry in the same way.
- GeoChoropleth.Wheel requires `CanRollUp` (through `CanHandle`) when the roll-up branch runs, so it excludes the empty registry in the same way.
- GeoChoropleth.GeoChoroplethChart.RollUp inherits that exclusion of an empty registry from `RollUpEffects`.
- GeoChoropleth.GeoChoroplethChart.OnMouseWheel inherits that exclusion of an empty registry from `Wheel`.
- GeoChoropleth.GeoChoroplethChart.OnMouseWheelRollUp inherits that exclusion of an empty registry from `Wheel`.
- GeoChoropleth.GeoChoroplethChart.OnMouseWheelDrillDown inherits that exclusion of an empty registry from `Wheel`.
- GeoChoropleth.GeoChoroplethChart.OnMouseWheelDrillDownRollUp inherits that exclusion of an empty registry from `Wheel`.
- TransformText.WithDefaults stores the defaults as the numeral strings `"0"` and `"1"`, where JavaScript stores the numbers `0` and `1` (src/geo-choropleth-chart.js:459, 462, 465). The two agree wherever the model reads them, because `NumeralValue` maps those strings to 0 and 1, but the model's entries are not typed like JavaScript's.
