# react-plot in Dafny

A model of the chart engine of react-plot, a small React library for SVG line
charts, with proofs about it:

- **Plot surface** (`PlotComponent`). It holds the shared scale and range state
  that the axes write. It keeps the point registry that lines register into:
  two ECMAScript `Map`s, one for points and one for colors. It searches for the
  point nearest the pointer and runs the mouse-move and mouse-leave handlers.
- **Axis** (`AxisComponent`). It publishes one orientation's scale and range.
  It lays out ticks by applying the tick traveler from offset 0 while the offset
  stays below `max - min`. An update guard compares a fixed set of props.
- **Line** (`LineComponent`). It projects a series to path commands and
  computes its clip rectangle. It takes its default id from a global counter.
  Across mount, update and unmount it keeps its registration in the plot
  surface.
- **Stock chart** (`StockPlotComponent`). It turns series of daily values into
  lines. It folds their extent into padded axis domains. On hover it looks the
  hovered day up again to show that day's value and the change since the
  previous entry.

How the model represents things:

- **ECMAScript Maps** (`JsMap`) are insertion-ordered sequences of key/value
  pairs.
  - `set` on a present key replaces the value in place.
  - `set` on an absent key appends the pair.
  - `delete` removes the key's entry.
- **Coordinates** are reals, and `Math.round(v)` is `floor(v + 1/2)`.
- **Distance.** The nearest-point search compares squared distances. The
  square root is monotone, so it picks the same point.
- **Component state** that the source updates in place is held in classes:
  `Plot`, `Line`, `StockPlot` and the `GlobalId` counter `IdCounter`. Loops in
  the source stay loops: the registry scan, both tick loops, the stock extent
  fold and the hover lookup. Each is proved against a specification function.
- **Immediate state updates.** `setState` is modelled as an immediate update.
  A callback the source invokes afterwards becomes a result of the handler.
  `HandleMouseMove` returns the `onPointHover` arguments and `HandleMouseLeave`
  returns whether `onMouseLeave` fired.
- **The DOM node's bounding rectangle** is an `Option<Rect>` argument. `None`
  means there is no node.

Two behaviours of the code worth noting:

- **Releases delete by key, not by registration.** A release that is stale,
  because a newer registration reused its id, removes the newer entry too
  (`LineComponent.StaleReleaseRemovesNewer`).
- **Ticks stop strictly below the span.** For an axis with `min = 10`,
  `max = 50` and the default span, the tick loop visits exactly 0, 10, 20 and
  30. That is four ticks, because the loop stops once the offset reaches 40
  (`AxisComponent.StoryBottomAxisPositions`). With the default label
  renderer the labels are these offsets from `min`, not the domain values
  (`AxisComponent.StoryBottomAxisLabels`).

## Model

| member | source | states |
|---|---|---|
| Geometry.Round | src/components/Plot/Plot.js:160-167 | `Math.round` gives the integer within half a unit (`r - 1/2 <= v < r + 1/2`) and leaves integers unchanged |
| JsMap.Get | src/components/Plot/Plot.js:127 | a lookup finds nothing exactly when the key is absent, and a found value is stored under the key |
| JsMap.Set | src/components/Plot/Plot.js:140-141 | `set` on an absent key appends the pair as the last entry; on a present key it keeps the entry count; the pair is stored either way |
| JsMap.Delete | src/components/Plot/Plot.js:143-144 | `delete` on a present key removes one entry, and leaves a map without the key unchanged |
| JsMap.SetGet | src/components/Plot/Plot.js:140-141 | after `set(k, v)`, `get(k)` is `v` and every other key reads as before |
| JsMap.SetKeys | src/components/Plot/Plot.js:140-141 | `set` keeps the key order when the key is present, appends it when absent, and keeps keys distinct |
| JsMap.SetKeepsPosition | src/components/Plot/Plot.js:140-141 | re-registering a present key replaces its entry at the same position and changes no other entry |
| JsMap.DeleteGet | src/components/Plot/Plot.js:143-144 | `delete(k)` leaves every other key's value, and afterwards `k` is absent |
| JsMap.DeleteKeys | src/components/Plot/Plot.js:143-144 | `delete(k)` removes exactly `k` from the key order and keeps keys distinct |
| JsMap.DeleteThenSetMovesToEnd | src/components/Plot/Plot.js:140-144 | after a release and a new registration, the key is last in iteration order and holds the new value |
| PlotComponent.Plot.constructor | src/components/Plot/Plot.js:49-58 | the initial state is scales 1 and 1, no active point, ranges `[0, 0]` and empty registries |
| PlotComponent.Plot.WithDefaults | src/components/Plot/Plot.js:40-58 | the default surface is 400 high and 600 wide with paddings 50 (left) and 35 (bottom), in the initial state |
| PlotComponent.Plot.SetXScale | src/components/Plot/Plot.js:73 | the setter replaces `scaleX` only |
| PlotComponent.Plot.SetYScale | src/components/Plot/Plot.js:74 | the setter replaces `scaleY` only |
| PlotComponent.Plot.SetXRange | src/components/Plot/Plot.js:75 | the setter replaces `rangeX` only |
| PlotComponent.Plot.SetYRange | src/components/Plot/Plot.js:76 | the setter replaces `rangeY` only |
| PlotComponent.Plot.RegisterPoints | src/components/Plot/Plot.js:139-146 | both maps get the id (set semantics), other ids are unchanged, both key sets stay equal, and the release names the id |
| PlotComponent.Plot.Flush | src/components/Plot/Plot.js:142-145 | the release deletes the id from both maps by key, leaves other ids alone and keeps both key sets equal |
| PlotComponent.Distance2Facts | src/components/Plot/Plot.js:228-230 | the squared distance is never negative, is symmetric and is zero from a point to itself |
| PlotComponent.Nearest | src/components/Plot/Plot.js:210-226 | the search result is null exactly when no point was visited, and it is otherwise one of the visited points |
| PlotComponent.NearestIsFirstMinimum | src/components/Plot/Plot.js:216-224 | the result is a point at minimum distance, and every earlier point is strictly farther, so ties go to the first point met |
| PlotComponent.NearestFindsRegisteredTarget | src/components/Plot/Plot.js:216-224 | when the target is itself registered, the result is at distance zero |
| PlotComponent.FlattenEmpty | src/components/Plot/Plot.js:216-217 | no point is visited exactly when every registered series is empty |
| PlotComponent.FlattenComplete | src/components/Plot/Plot.js:216-217 | every registered point (entry `i`, index `j`) is visited, at position `FlatIndex(m, i, j)` |
| PlotComponent.FlattenLocate | src/components/Plot/Plot.js:216-217 | every visited point is a registered point, at its `FlatIndex` |
| PlotComponent.FlatIndexOrder | src/components/Plot/Plot.js:216-217 | points are visited in map order, then array order within a series |
| PlotComponent.ClosestRegistered | src/components/Plot/Plot.js:210-226 | the result is a registered point no farther than any registered point, and strictly closer than every point before it in map order, then array order |
| PlotComponent.NearestBeatsRegistered | src/components/Plot/Plot.js:210-226 | the search result exists and is as near the target as any point stored under any key |
| PlotComponent.Plot.ActivePointIsClosest | src/components/Plot/Plot.js:169-171 | after a hover, the active point is as near the target as every point registered under any id |
| PlotComponent.FlattenMember | src/components/Plot/Plot.js:216-221 | every visited point, tagged with its id, belongs to the series stored under that id |
| PlotComponent.VisitPoint | src/components/Plot/Plot.js:218-222 | visiting one more point advances the search exactly as the reference fold does: a point replaces the current result only when strictly nearer, so the first minimum wins, and the kept distance is the result's |
| PlotComponent.GetClosestPoint | src/components/Plot/Plot.js:210-226 | the nested `forEach` scan returns the search result over all points in map order and then array order |
| PlotComponent.VisitSeries | src/components/Plot/Plot.js:217-223 | the inner scan extends the running result by one series, keeping `minDistance` equal to the result's distance |
| PlotComponent.ToClient | src/components/Plot/Plot.js:176-179 | on each axis with a nonzero scale, the client offset converts back to the domain coordinate exactly, before rounding |
| PlotComponent.Plot.ChildContext | src/components/Plot/Plot.js:61-77 | the context passes the surface's height and width, its current scales and ranges, and its paddings |
| PlotComponent.ToDomain | src/components/Plot/Plot.js:159-167 | the pointer position converted to the domain has integer coordinates |
| PlotComponent.ClientRoundTrip | src/components/Plot/Plot.js:160-179 | converting the reported client position of an integer point back to the domain gives the same point |
| PlotComponent.ClientRoundTripWithinHalf | src/components/Plot/Plot.js:160-179 | for any point, the round trip moves each coordinate by at most half a unit: strictly less downwards, up to exactly half upwards, since `Math.round` rounds halves up |
| PlotComponent.Plot.HandleMouseMove | src/components/Plot/Plot.js:148-187 | with no node or no `onPointHover` nothing changes; otherwise the active point is the search result at the converted position, and the callback gets the matched id, the point and its client position exactly when that result is non-null |
| PlotComponent.Plot.HandleMouseLeave | src/components/Plot/Plot.js:189-207 | a leave strictly inside the rectangle changes nothing; otherwise the active point is cleared and `onMouseLeave` fires when it is given |
| PlotComponent.Plot.RenderPointer | src/components/Plot/Plot.js:95-137 | a marker is drawn exactly when there is an active point; its dashed line is vertical and starts on the bottom padding line, and the dot is filled with the color registered under the active point's id |
| PlotComponent.Plot.HoverPositionIsMarker | src/components/Plot/Plot.js:103-179 | the client position reported on hover is where the marker's dot is drawn, offset by the rectangle's corner, and the marker line is vertical |
| PlotComponent.NearestHoverScenario | src/components/Plot/Plot.js:214-224 | series A = (0,5), (10,10) and B = (0,20) with the target (1,6) give A's first point |
| AxisComponent.CheckPropsUpdate | src/components/Plot/Axis.js:22-27 | the guard is true exactly when sizes, max, min, position, padding or range differ |
| AxisComponent.UpdateIgnoresPresentationProps | src/components/Plot/Axis.js:22-48 | changing only scale, renderLabel, tickSpan or tickTravaler does not trigger an update |
| AxisComponent.PositionsFrom | src/components/Plot/Axis.js:78-92 | the loop from `pos` visits nothing exactly when `pos` has reached the extent; otherwise it starts at `pos`, and every offset lies in `[pos, extent)` |
| AxisComponent.TickPositions | src/components/Plot/Axis.js:78-133 | the tick offsets start at 0, not at `min`, lie in `[0, max - min)`, and there are none exactly when `max <= min` |
| AxisComponent.PositionsShape | src/components/Plot/Axis.js:78-133 | each step applies the traveler, and the traveler takes the last offset to `max - min` or beyond |
| AxisComponent.DefaultPositions | src/components/Plot/Axis.js:30-92 | with the default traveler and a positive span `s`, the offsets are `0, s, 2s, ...`, all below the extent, and the next one reaches it |
| AxisComponent.StoryBottomAxisPositions | src/components/Plot/Plot.stories.js:42 | the story's bottom axis (min 10, max 50, defaults) visits exactly 0, 10, 20, 30 |
| AxisComponent.StoryBottomAxisLabels | src/components/Plot/Plot.stories.js:42 | with the default label renderer the story's bottom axis is labelled 0, 10, 20, 30: offsets from `min`, not domain values |
| AxisComponent.BottomTickAt | src/components/Plot/Axis.js:81-92 | a bottom tick is labelled `renderLabel(pos)`, sits 25 below the plotting area, and its x maps back to `pos` through the x scale |
| AxisComponent.LeftTickAt | src/components/Plot/Axis.js:116-133 | a left tick is labelled `renderLabel(pos)` 10 left of the plotting area, its y maps back to `pos` through the y scale, and its grid line runs from `padding.left` to `width` |
| AxisComponent.RenderBottomAxis | src/components/Plot/Axis.js:67-99 | one tick per visited offset, in order, at `x = pos * scale.x + padding.left`, `y = height - padding.bottom + 25`, labelled `renderLabel(pos)` |
| AxisComponent.RenderLeftAxis | src/components/Plot/Axis.js:101-140 | one tick per visited offset, in order, at `y = height - padding.bottom - pos * scale.y`, with its label at `padding.left - 10` and a grid line from `padding.left` to `width` |
| AxisComponent.RenderAxis | src/components/Plot/Axis.js:54-65 | `bottom` and `left` draw their ticks, and any other position draws nothing |
| AxisComponent.SetScale | src/components/Plot/Axis.js:142-157 | `bottom` sets `scaleX = (width - padding.left) / (max - min)` and `rangeX = [min, max]`, `left` is the mirror case, and neither touches the other orientation, nor does any other position |
| AxisComponent.Mount | src/components/Plot/Axis.js:38-40 | mounting publishes the scale and range of the axis's orientation, leaves the other orientation alone, and changes nothing for any other position |
| AxisComponent.Update | src/components/Plot/Axis.js:42-48 | new props republish the scale and range exactly when the guard fires, leaving the other orientation alone; without an update, or for any other position, nothing changes |
| LineComponent.ResolveProps | src/components/Plot/Line.js:57-61 | missing props default to color `red`, padding `(0, 0)` and scale `(1, 1)` |
| LineComponent.PropsInPlot | src/components/Plot/withPlotParams.js:59-68 | for an element that passes none of sizes, scale, padding or range itself, those four come from the surface, and the color defaults to red |
| LineComponent.GetDirection | src/components/Plot/Line.js:122-125 | the path has one command per point, in point order |
| LineComponent.PointToPath | src/components/Plot/Line.js:140-146 | a command is `M` exactly at index 0, and on each axis with a nonzero scale the pixel coordinate converts back to the domain coordinate |
| LineComponent.PathShape | src/components/Plot/Line.js:140-146 | the path is empty exactly for an empty series, and a command is `M` exactly at index 0 |
| LineComponent.UnprojectInverts | src/components/Plot/Line.js:143-144 | with nonzero scales, the pixel projection can be undone exactly |
| LineComponent.VertexIsMarkerEnd | src/components/Plot/Line.js:143-144 | a line inside a plot surface draws each vertex where the surface draws the hover dot for that point |
| LineComponent.Clip | src/components/Plot/Line.js:102-108 | the clip rectangle spans from the left padding to the right edge and from the top to the bottom padding line |
| LineComponent.DomainInsideClip | src/components/Plot/Line.js:103-144 | with the scales the axes publish, every point of the axis domains is drawn inside the clip rectangle |
| LineComponent.CheckPropsUpdate | src/components/Plot/Line.js:39-52 | the guard is true exactly when points, scale, sizes, color, id, padding or range differ |
| LineComponent.HexDigit | src/components/Plot/Line.js:66 | a digit is written as a lower-case hexadecimal character that reads back as the same value |
| LineComponent.ToHex | src/components/Plot/Line.js:66 | a default id is a non-empty string of lower-case hexadecimal digits |
| LineComponent.HexRoundTrip | src/components/Plot/Line.js:66 | reading a default id back gives the counter value it was made from |
| LineComponent.ToHexInjective | src/components/Plot/Line.js:54-66 | different counter values give different default ids |
| LineComponent.IdCounter.constructor | src/components/Plot/Line.js:54 | the shared counter starts at 0, so default ids are drawn from 0 upwards |
| LineComponent.IdCounter.Fresh | src/components/Plot/Line.js:66 | a default id is the counter's current value in hexadecimal, and the counter advances by one |
| LineComponent.StaleReleaseRemovesNewer | src/components/Plot/Plot.js:139-145 | a release called after a newer registration of the same id removes the newer points and color |
| LineComponent.Line.constructor | src/components/Plot/Line.js:65-66 | a new line has no release and takes the next default id |
| LineComponent.Line.RegisterPoints | src/components/Plot/Line.js:127-133 | the points and color are registered under the current id, other ids read as before, and the release is kept |
| LineComponent.Line.ComponentDidMount | src/components/Plot/Line.js:68-73 | a truthy `id` prop replaces the default id, then the points are registered once under it |
| LineComponent.Line.ComponentDidUpdate | src/components/Plot/Line.js:75-85 | a changed truthy `id` prop replaces the id; changed points release the live registration first and then register points and color again under the id; unchanged points leave the registry and the release alone, even when the id changed; ids other than the current and the released one read as before |
| LineComponent.Line.ComponentWillUnmount | src/components/Plot/Line.js:91-95 | the live registration, if any, is released |
| LineComponent.Line.Receive | src/components/Plot/Line.js:75-89 | new props replace the old ones; `componentDidUpdate` runs exactly when the guard fires, with its id change; equal points leave the registry and release unchanged; changed points release the old registration and register the new points and color under the id; other ids read as before |
| LineComponent.MountScenario | src/components/Plot/Line.js:68-73 | a line mounted with an explicit id holds its points and color under that id, and its release names it |
| StockPlotComponent.ToPoints | src/components/StockPlot/StockPlot.js:75-85 | a series gives one point per entry, in order |
| StockPlotComponent.Step | src/components/StockPlot/StockPlot.js:80-83 | after one point the bounds take it in, and each bound either stays or becomes that point's coordinate |
| StockPlotComponent.Extent | src/components/StockPlot/StockPlot.js:69-86 | with no points the bounds are the starting infinities, and with any point all four are finite |
| StockPlotComponent.ExtentCorrect | src/components/StockPlot/StockPlot.js:69-86 | with no points all bounds stay infinite; otherwise each bound is finite, bounds every point and is reached by some point |
| StockPlotComponent.PrepareLines | src/components/StockPlot/StockPlot.js:68-87 | `lines[i]` holds `data[i]`'s points in order, and the bounds are the fold over all points |
| StockPlotComponent.XDomain | src/components/StockPlot/StockPlot.js:89-102 | the x domain widens a finite bound by 20 days on each side and leaves an infinite one infinite |
| StockPlotComponent.YDomain | src/components/StockPlot/StockPlot.js:106-109 | the y domain widens a finite lower bound by 5 and a finite upper bound by 10, and leaves an infinite one infinite |
| StockPlotComponent.DomainsContainPoints | src/components/StockPlot/StockPlot.js:89-109 | with points, the domains `[minX - 20, maxX + 20]` and `[minY - 5, maxY + 10]` are proper and contain every point strictly inside; with none they stay empty |
| StockPlotComponent.PaletteColor | src/components/StockPlot/StockPlot.js:44-113 | series `i` has a palette color exactly when `i < 7` |
| StockPlotComponent.SeriesColor | src/components/StockPlot/StockPlot.js:113 | series `i` is drawn in `COLORS[i]`, and in the line's default red once the palette runs out |
| StockPlotComponent.FirstMatch | src/components/StockPlot/StockPlot.js:132-139 | `some` stops at the first entry of the hovered day, or finds none when no entry has it |
| StockPlotComponent.Find | src/components/StockPlot/StockPlot.js:129-143 | a found entry is an entry of the hovered day, at the reported series and index |
| StockPlotComponent.FindCorrect | src/components/StockPlot/StockPlot.js:129-147 | the lookup finds an entry exactly when some entry has the hovered day; it finds the first such entry in series order and then in array order; a previous entry exists exactly at indices above 0 |
| StockPlotComponent.HoveredPointIsFound | src/components/StockPlot/StockPlot.js:131-143 | hovering a drawn point always finds an entry of that day, in the hovered series or in an earlier one |
| StockPlotComponent.SearchLine | src/components/StockPlot/StockPlot.js:132-139 | the loop behind `some` returns the first matching index |
| StockPlotComponent.Lookup | src/components/StockPlot/StockPlot.js:129-143 | the loop with `break` returns the lookup's result |
| StockPlotComponent.DeltaOf | src/components/StockPlot/StockPlot.js:149-163 | a delta exists exactly when there is a previous entry; it is the value minus the previous value; the positive style applies exactly when that difference is above 0 |
| StockPlotComponent.InfoViewOf | src/components/StockPlot/StockPlot.js:121-178 | without info nothing is shown; a popup sits 50 above and 56 left of the pointer and shows an entry of the hovered day |
| StockPlotComponent.InfoViewCases | src/components/StockPlot/StockPlot.js:121-178 | no info shows nothing; no matching day gives null; a popup sits 50 above and 56 left of the pointer, shows the hovered day, and includes a change exactly when the entry is not first in its series |
| StockPlotComponent.StockPlot.constructor | src/components/StockPlot/StockPlot.js:65 | a new chart has no info |
| StockPlotComponent.StockPlot.WithDefaults | src/components/StockPlot/StockPlot.js:58-65 | the default chart is 800 wide and 400 high, with no info |
| StockPlotComponent.StockPlot.HandlePointHover | src/components/StockPlot/StockPlot.js:181-193 | hover stores the id, the point and the pointer position |
| StockPlotComponent.StockPlot.HandleMouseLeave | src/components/StockPlot/StockPlot.js:195-197 | leaving clears the info |
| StockPlotComponent.StockPlot.RenderInfo | src/components/StockPlot/StockPlot.js:121-179 | the rendered popup is the one the state and data determine |
| StockPlotComponent.StockPlot.Render | src/components/StockPlot/StockPlot.js:67-115 | one line element per series, carrying its points and `COLORS[i]`, plus the padded domains of the fold |

## Left out

- JSX and SVG markup, CSS classes, PropTypes and context plumbing are left out. What the markup positions is kept as numbers: tick coordinates, the clip rectangle, the marker and the popup position.
- Number-to-string formatting is left out. This covers path data (a path is a sequence of commands), tick labels (a label is the value `renderLabel(pos)` returns) and popup text.
- The DOM is left out: the `ref`, `getBoundingClientRect` and events. The rectangle and the pointer position are arguments.
- `setState` is modelled as synchronous. React's batching and deferred callbacks are not modelled.
- Floating point, `NaN` and `Infinity` arithmetic are not modelled. Division by zero when `max == min` or a scale is 0 is excluded by preconditions; an axis with `max < min` is modelled and gets a negative scale. The stock fold's starting infinities are modelled as `Extended` values.
- PlotComponent.Distance2Facts: does not state that two different points are at a positive distance. The nearest-point proofs compare distances only, and `NearestFindsRegisteredTarget` concludes distance zero rather than equal points.
- For the hover handlers, the model returns the callback arguments; it does not call the callback.
- The error `withPlotParams` throws outside a plot surface is not modelled. Lines are given the surface's context directly (`LineComponent.PropsInPlot`).
- LineComponent.PropsInPlot: assumes the element passes none of sizes, scale, padding or range. `withPlotParams` spreads the element's own props after the context values, so a prop the element passed would win; no element in the repository passes one.
- date-fns is not modelled: `addMonth`, `startOfMonth`, `isSameDay`, `format` and the locale. So the stock chart's `getNextMonth` traveler and `timeToMonth` label are not modelled. Dates are day numbers. The axis loop takes any traveler as a function argument, and it terminates for a traveler that advances every offset below the extent by a fixed positive step (`AxisComponent.Advances`).
- AxisComponent.PositionsShape: termination is proved only for travelers that satisfy `Advances`. For any other traveler the source loop may not stop.
- `StockPlot.Render` says what the render hands to the surface: line elements and the axis domains. It does not build the axis elements, because their traveler and label closures are among the date-fns helpers above.
- Ramda `equals` is modelled as structural equality of values.
- `Popup`, `App.js`, the storybook files and the flow types are left out. The stories appear only as scenario lemmas.
- LineComponent.ResolveProps: applies the defaults to any missing prop. For an element inside a plot surface that passes none of these props itself, the context supplies scale and padding, so only the color default takes effect there.
