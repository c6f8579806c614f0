# RICHY graph engine: a verified model of the virtualising chart core

This project models the charting core of RICHY_DevTool and proves properties of the model.

The chart holds an append-only series of samples. Each sample has an integer Y value and an optional X label. It draws a sample as three things:

- a point proxy;
- an X-label proxy;
- a vertex of one shared polyline.

The virtualising engine draws only the samples inside the visible window. A pan offset, a point spacing and the viewport width determine that window. When the chart is panned, grown, zoomed or rescaled, the engine reconciles its caches with the new window. It does this with pop-front, pop-back, push-front and push-back edits. It attaches only every `ceil(90 / spacing)`-th sample to the host canvases ("decimation").

The model covers:

- the window arithmetic and decimation of the current engine (`Window`), with its own debug assertion proved;
- the caches and containers the engine drives:
  - `ElementCache`: an ordered list plus an element-to-state map;
  - `CanvasProxy`: the attachment flags;
  - `Canvas`: the WPF canvas holder and graph container;
  - `PolyLine`: the WPF polyline;
- the coordinate mappers (`Geometry`);
- the "caches show the window" invariant, stated on values, with one lemma per edit (`Sync`);
- the engine's classes:
  - the base `GraphHolder` as shown (`BaseGraph`);
  - the virtualising subclass (`Virtualizing`);
- the earlier generation of both classes:
  - `LegacyGraph`, with its strided build;
  - `LegacyVirtualizing`, with its attach/detach loop;
- the growable array list `ReadOnlyList<T>`, its enumerator and the `ReadOnlyCollection2<T>` view (`Utils`).

**Numbers and proxies.**
- The pan offset, the spacing and the width are `int` (see "## Left out" for the width and spacing, which are `float` in the source). The Y pixels and `yMax` are `real`.
- A proxy is the index of the sample it shows (`PointChild(i)`, `LabelXChild(i)`). Host attachment is a set.
- The polyline is a sequence of vertices, each stored flipped as `(x, H - y)`.

**Two versions of the base class.** The shown `GraphHolder/GraphHolder.cs` keeps its caches in plain collections, and `BaseGraph` models it as written. The virtualising subclass compiles against a different version that uses `ElementCacheCollection`. Its `GeneratePoint`/`GenerateLabelX` are therefore modelled from their call sites:

- they always push the proxy, and the polyline vertex, at the requested end of the cache;
- they attach to the host only when `addToParent` holds.

## Model

Paths are relative to the repository root. "Valid" is each class's invariant. For the current engine it means `Sync.Shows`:

- the point cache, the label cache and the polyline hold exactly the in-window samples that exist, in ascending order, each at its pixel for the current scale;
- exactly the decimated ones among them are attached.

| member | source | states |
|---|---|---|
| Window.StartPointIndex | RICHYEngine/Views/Holders/GraphHolder/VirtualizingGraphHolder.cs:431-442 | the window start is never negative |
| Window.EndPointIndex | RICHYEngine/Views/Holders/GraphHolder/VirtualizingGraphHolder.cs:444-457 | the window end is at least -1 |
| Window.StartPointIndexMeaning | RICHYEngine/Views/Holders/GraphHolder/VirtualizingGraphHolder.cs:431-442 | start is 0 while the graph origin is on screen; otherwise it is the last sample left of the screen edge (one sample of margin) |
| Window.EndPointIndexMeaning | RICHYEngine/Views/Holders/GraphHolder/VirtualizingGraphHolder.cs:444-457 | end is -1 when the origin is right of the viewport; otherwise it is the first sample past the right edge (one sample of margin) |
| Window.WindowShapeOfIndices | RICHYEngine/Views/Holders/GraphHolder/VirtualizingGraphHolder.cs:431-457 | for a non-negative width, start ≤ end + 1 |
| Window.WindowCoversScreen | RICHYEngine/Views/Holders/GraphHolder/VirtualizingGraphHolder.cs:431-457 | every sample whose screen X lies in [0, width] is inside [start, end], and every sample strictly inside the window is on screen |
| Window.Stride | RICHYEngine/Views/Holders/GraphHolder/VirtualizingGraphHolder.cs:466-477 | the decimation stride is at least 1 |
| Window.StrideIsCeiling | RICHYEngine/Views/Holders/GraphHolder/VirtualizingGraphHolder.cs:466-477 | the truncate-then-increment stride is exactly ceil(90 / d) |
| Window.IsShown | RICHYEngine/Views/Holders/GraphHolder/VirtualizingGraphHolder.cs:466-477 | no contract of its own: an index is attached iff it is a multiple of the stride ceil(90 / d); its meaning is stated by AllShownWhenSpacingAtLeastMinimum, DefaultSpacingShowsEvenIndices and ShownSamplesKeepMinimumDistance |
| Window.AllShownWhenSpacingAtLeastMinimum | RICHYEngine/Views/Holders/GraphHolder/VirtualizingGraphHolder.cs:466-477 | for d ≥ 90 every index is attached |
| Window.DefaultSpacingShowsEvenIndices | RICHYEngine/Views/Holders/GraphHolder/VirtualizingGraphHolder.cs:466-477 | at the default spacing 50, an index is attached iff it is even |
| Window.ShownSamplesKeepMinimumDistance | RICHYEngine/Views/Holders/GraphHolder/VirtualizingGraphHolder.cs:466-477 | two attached samples are at least 90 pixels apart |
| Window.StrideAntitone | RICHYEngine/Views/Holders/GraphHolder/VirtualizingGraphHolder.cs:466-477 | wider spacing never increases the stride |
| Window.LegacyStartPointIndex | RICHYEngine/Views/Holders/VirtualizingGraphHolder.cs:71-82 | the earlier window start is never negative |
| Window.LegacyEndPointIndex | RICHYEngine/Views/Holders/VirtualizingGraphHolder.cs:84-97 | the earlier window end is at least -1 |
| Window.LegacyWindowIsNewWindowWithoutMargins | RICHYEngine/Views/Holders/VirtualizingGraphHolder.cs:71-97 | the earlier window is the current window without its one-sample margin on each side (when that side is clipped) |
| Window.LegacyWindowIsScreen | RICHYEngine/Views/Holders/VirtualizingGraphHolder.cs:71-97 | a sample is in the earlier window iff its screen X lies in [0, width] |
| Geometry.XPosForPoint | RICHYEngine/Views/Holders/GraphHolder/GraphHolder.cs:309-313 | no contract of its own: the pixel x = i · d inside the point canvas, without the pan; XPosForPointStrictlyIncreasing and ScreenXIsPixelPlusPan state its properties |
| Geometry.YPosForValue | RICHYEngine/Views/Holders/GraphHolder/GraphHolder.cs:320-324 | no contract of its own: the value as a fraction of yMax, scaled to the graph height; YPosScalesInverselyWithYMax, HalvingYMaxDoublesYPos and YValueAtMouseInvertsYPos state its properties |
| Geometry.YValueAtMouse | RICHYEngine/Views/Holders/GraphHolder/GraphHolder.cs:66-70 | no contract of its own: YValueAtMouseInvertsYPos proves it undoes YPosForValue for a point canvas placed at top + 30 |
| Geometry.XPosForPointStrictlyIncreasing | RICHYEngine/Views/Holders/GraphHolder/GraphHolder.cs:309-313 | X pixels increase with the index, and neighbours are exactly d apart |
| Geometry.YPosScalesInverselyWithYMax | RICHYEngine/Views/Holders/GraphHolder/GraphHolder.cs:320-324 | dividing yMax by c multiplies every Y pixel by c |
| Geometry.HalvingYMaxDoublesYPos | RICHYEngine/Views/Holders/GraphHolder/GraphHolder.cs:320-324 | halving yMax doubles every Y pixel |
| Geometry.YValueAtMouseInvertsYPos | RICHYEngine/Views/Holders/GraphHolder/GraphHolder.cs:66-70 | the mouse mapper returns the sample value at the screen height where that sample is drawn |
| Geometry.PointCanvasPosition | RICHYEngine/Views/Holders/GraphHolder/GraphHolder.cs:326-334 | no contract of its own: the point canvas sits at (left + 80, top + 30); ScreenXIsPixelPlusPan and LabelCanvasFollowsPointCanvas state its use |
| Geometry.LabelXCanvasPosition | RICHYEngine/Views/Holders/GraphHolder/GraphHolder.cs:336-344 | no contract of its own: the X-label canvas sits at (left + 80, 20); LabelCanvasFollowsPointCanvas relates it to the point canvas |
| Geometry.LabelCanvasFollowsPointCanvas | RICHYEngine/Views/Holders/GraphHolder/GraphHolder.cs:326-344 | the label canvas has the point canvas's x for every pan and stays 10 pixels above the unpanned point canvas, so labels line up with their points |
| Geometry.ScreenXIsPixelPlusPan | RICHYEngine/Views/Holders/GraphHolder/GraphHolder.cs:309-334 | a point's screen X is its pixel plus the canvas origin `left + 80`, with no pan inside the pixel |
| Geometry.ReversePos | RICHY_DevTool/View/Widgets/RichyGraph.xaml.cs:307-311 | no contract of its own: a vertex is stored as (x, H - y); ReversePosInvolutive and ReversePosInjective state its properties |
| Geometry.ReversePosInvolutive | RICHY_DevTool/View/Widgets/RichyGraph.xaml.cs:307-311 | flipping twice at the same height is the identity |
| Geometry.ReversePosInjective | RICHY_DevTool/View/Widgets/RichyGraph.xaml.cs:307-311 | distinct positions stay distinct after the flip |
| Geometry.LabelTextNamesSlotOnlyWithoutX | RICHYEngine/Views/Holders/GraphHolder/GraphHolder.cs:229 | a label shows the sample's X text when it has one, so its text does not depend on the slot; without one it shows the index, so labels of different slots differ |
| Geometry.LegacyPointPos | RICHYEngine/Views/Holders/GraphHolder.cs:331-332 | no contract of its own: the earlier pixel (i · d + 80, value / yMax · h + 30); LegacyPointPosIsShiftedPixel and LegacyGraph.LabelXUnderItsPoint state its properties |
| Geometry.LegacyYValueAtMouse | RICHYEngine/Views/Holders/GraphHolder.cs:121-125 | no contract of its own: LegacyYValueAtMouseInvertsYPos states which pixel it inverts |
| Geometry.LegacyYValueAtMouseInvertsYPos | RICHYEngine/Views/Holders/GraphHolder.cs:121-125 | the earlier mouse mapper inverts the Y mapping when the offset is subtracted (see Left out) |
| Geometry.LegacyPointPosIsShiftedPixel | RICHYEngine/Views/Holders/GraphHolder.cs:327-343 | the earlier point position is the current pixel shifted by (80, 30) |
| PolyLine.FirstIndexOf | RICHY_DevTool/View/Widgets/RichyGraph.xaml.cs:580-588 | -1 iff the vertex is absent; otherwise the first slot holding it |
| PolyLine.RemoveFirst | RICHY_DevTool/View/Widgets/RichyGraph.xaml.cs:605 | no contract of its own: `List<Point>.Remove`, dropping the first equal vertex if any; RemoveFirstShrinksByOne, RemoveFirstUndoesAppend and RemoveFirstUndoesPrepend state its properties |
| PolyLine.RemoveFirstShrinksByOne | RICHY_DevTool/View/Widgets/RichyGraph.xaml.cs:602-606 | removing a present vertex drops exactly one occurrence; an absent one changes nothing |
| PolyLine.RemoveFirstUndoesAppend | RICHY_DevTool/View/Widgets/RichyGraph.xaml.cs:564-606 | removing a fresh vertex just appended restores the line |
| PolyLine.RemoveFirstUndoesPrepend | RICHY_DevTool/View/Widgets/RichyGraph.xaml.cs:564-606 | removing a vertex just prepended restores the line |
| PolyLine.FirstIndexOfUniqueX | RICHY_DevTool/View/Widgets/RichyGraph.xaml.cs:580-588 | on a line whose vertices have distinct X, the lookup by value finds the intended slot |
| PolyLine.PolyLine.constructor | RICHY_DevTool/View/Widgets/RichyGraph.xaml.cs:552-557 | a new polyline has no vertices |
| PolyLine.PolyLine.AddNewPoint | RICHY_DevTool/View/Widgets/RichyGraph.xaml.cs:564-578 | appends (returns Count - 1) or prepends (returns 0) the flipped point |
| PolyLine.PolyLine.ChangePointPositionByValue | RICHY_DevTool/View/Widgets/RichyGraph.xaml.cs:580-588 | overwrites the first vertex equal to the old position; fails, changing nothing, when there is none |
| PolyLine.PolyLine.ChangePointPositionAt | RICHY_DevTool/View/Widgets/RichyGraph.xaml.cs:590-595 | overwrites only slot i; fails outside the line |
| PolyLine.PolyLine.RemovePointAt | RICHY_DevTool/View/Widgets/RichyGraph.xaml.cs:597-600 | removes only slot i; fails outside the line |
| PolyLine.PolyLine.RemovePointByValue | RICHY_DevTool/View/Widgets/RichyGraph.xaml.cs:602-606 | removes the first equal vertex; returns true iff there was one, and the count drops by one exactly then |
| Canvas.CanvasHolder.constructor | RICHY_DevTool/View/Widgets/RichyGraph.xaml.cs:437-445 | a new holder has no children and tracks none |
| Canvas.CanvasHolder.AddChild | RICHY_DevTool/View/Widgets/RichyGraph.xaml.cs:449-466 | returns false and changes nothing for a child already on the canvas; otherwise adds it to the canvas and the tracked set |
| Canvas.CanvasHolder.RemoveChild | RICHY_DevTool/View/Widgets/RichyGraph.xaml.cs:474-491 | returns false and changes nothing for an absent child; otherwise removes it from both |
| Canvas.CanvasHolder.Clear | RICHY_DevTool/View/Widgets/RichyGraph.xaml.cs:468-472 | as written: empties the canvas but returns, and keeps, the tracked set |
| Canvas.CanvasHolder.ClearReturningRemoved | RICHYEngine/Views/Holders/GraphHolder/Elements/ICanvasHolder.cs:9-14 | corrected: returns exactly the removed children and empties both sets |
| Canvas.CanvasHolder.SetCanvasPosition | RICHY_DevTool/View/Widgets/RichyGraph.xaml.cs:493-498 | moves the canvas; its children are unchanged |
| Canvas.ClearTwiceReportsStaleChild | RICHY_DevTool/View/Widgets/RichyGraph.xaml.cs:468-472 | add a child, clear, clear: the second clear still reports the child, which is no longer on the canvas |
| Canvas.ClearReturningRemovedTwice | RICHYEngine/Views/Holders/GraphHolder/Elements/ICanvasHolder.cs:9-14 | with the corrected clear, the second clear reports nothing |
| Canvas.GraphContainer.constructor | RICHY_DevTool/View/Widgets/RichyGraph.xaml.cs:501-543 | six distinct, empty, valid holders and the given graph size |
| Canvas.GraphContainer.Clear | RICHYEngine/Views/Holders/GraphHolder/Elements/IGraphContainer.cs:14-21 | empties five holders, skipping the popup holder, and moves none |
| CanvasProxy.AddCanvasChildAndAssignNewState | RICHYEngine/Views/Holders/GraphHolder/Elements/ICanvasHolder.cs:23-27 | the child is on the canvas and its flag is true, whatever AddChild returned; the cache list is unchanged |
| CanvasProxy.RemoveCanvasChildAndAssignNewState | RICHYEngine/Views/Holders/GraphHolder/Elements/ICanvasHolder.cs:29-33 | the child is off the canvas and its flag is false, whatever RemoveChild returned |
| CanvasProxy.ClearAllChildAndAssignNewState | RICHYEngine/Views/Holders/GraphHolder/Elements/ICanvasHolder.cs:35-42 | the flags of exactly the removed children become false and the others keep theirs; fails iff a removed child is not in the cache |
| ElementCache.ElementCacheCollection.constructor | RICHYEngine/Views/Holders/GraphHolder/Elements/GraphElementCache.cs:15-16 | an empty list and map, which are valid |
| ElementCache.ElementCacheCollection.AddElementToCache | RICHYEngine/Views/Holders/GraphHolder/Elements/GraphElementCache.cs:18-31 | appends or prepends the element, and its status afterwards reads detached (`GetElementStat(e) == Some(false)`); "map keys = listed elements" is kept for a new element |
| ElementCache.ElementCacheCollection.GetElementStat | RICHYEngine/Views/Holders/GraphHolder/Elements/GraphElementCache.cs:38-41 | while the dictionary is keyed by the list, a listed element always has a status and any other element has none (where the dictionary throws) |
| ElementCache.ElementCacheCollection.SetAttached | RICHYEngine/Views/Holders/GraphHolder/Elements/GraphElementCache.cs:6-9 | writing `IsAttachedToParent` through an element's state makes its status read back the new flag, changes no other element's flag and leaves the list alone |
| ElementCache.ElementCacheCollection.RemoveElementAt | RICHYEngine/Views/Holders/GraphHolder/Elements/GraphElementCache.cs:48-52 | removes slot i and its map entry, keeping the others in order; fails outside the list |
| ElementCache.ElementCacheCollection.ClearCache | RICHYEngine/Views/Holders/GraphHolder/Elements/GraphElementCache.cs:54-58 | empties both the list and the map |
| ElementCache.RemoveKeepsValid | RICHYEngine/Views/Holders/GraphHolder/Elements/GraphElementCache.cs:48-52 | removing a slot from a distinct list keeps it distinct and drops exactly that element from its set |
| ElementCache.GraphElementCache.constructor | RICHYEngine/Views/Holders/GraphHolder/Elements/GraphElementCache.cs:63-73 | three distinct empty collections, no polyline, no popup |
| ElementCache.GraphElementCache.Clear | RICHYEngine/Views/Holders/GraphHolder/Elements/GraphElementCache.cs:81-90 | nulls the polyline, empties the three collections and resets the popup cache |
| Sync.DebugAssertCount | RICHYEngine/Views/Holders/GraphHolder/VirtualizingGraphHolder.cs:485-496 | no contract of its own: the three cases of the engine's `assert()`; ExpectedCountIsDebugAssertCount proves it equals the count of window samples that exist |
| Sync.ExpectedCountIsDebugAssertCount | RICHYEngine/Views/Holders/GraphHolder/VirtualizingGraphHolder.cs:479-496 | the cache length the invariant keeps equals the three cases of the engine's own assert() |
| Sync.ExpectedCountMeaning | RICHYEngine/Views/Holders/GraphHolder/VirtualizingGraphHolder.cs:479-496 | the cached run holds exactly the samples in [start, end] that exist |
| Sync.ShowsEmptyAnywhere | RICHYEngine/Views/Holders/GraphHolder/VirtualizingGraphHolder.cs:330-429 | an empty cache shows an empty window wherever it starts |
| Sync.ShowsReindex | RICHYEngine/Views/Holders/GraphHolder/VirtualizingGraphHolder.cs:330-429 | moving an empty window keeps it shown |
| Sync.ShowsAppendValue | RICHYEngine/Views/Holders/GraphHolder/VirtualizingGraphHolder.cs:194-209 | appending a sample to the series keeps the window shown |
| Sync.VertexLookupHitsOwnSlot | RICHYEngine/Views/Holders/GraphHolder/VirtualizingGraphHolder.cs:308-312 | in a shown window, looking up a sample's vertex by value finds that sample's own slot |
| Sync.ShowsPushBack | RICHYEngine/Views/Holders/GraphHolder/VirtualizingGraphHolder.cs:386-405 | pushing the next sample at the back extends the shown window by one |
| Sync.WithLine | RICHYEngine/Views/Holders/GraphHolder/VirtualizingGraphHolder.cs:213-219 | no contract of its own: a missing polyline becomes an empty one; ShowsWithLine and ShowsPushBackWithLineTo state its property |
| Sync.ShowsWithLine | RICHYEngine/Views/Holders/GraphHolder/VirtualizingGraphHolder.cs:213-219 | creating the missing polyline keeps the window shown |
| Sync.ShowsPushBackWithLineTo | RICHYEngine/Views/Holders/GraphHolder/VirtualizingGraphHolder.cs:210-225 | creating the missing polyline and then pushing the next sample at the back extends the shown window by one |
| Sync.ShowsPushFront | RICHYEngine/Views/Holders/GraphHolder/VirtualizingGraphHolder.cs:365-384 | prepending the previous sample extends the shown window by one at the front |
| Sync.ShowsPopFront | RICHYEngine/Views/Holders/GraphHolder/VirtualizingGraphHolder.cs:344-364 | popping slot 0 removes the first vertex and shows the window one shorter at the front |
| Sync.ShowsPopBack | RICHYEngine/Views/Holders/GraphHolder/VirtualizingGraphHolder.cs:406-426 | popping the last slot removes the last vertex and shows the window one shorter at the back |
| Sync.ShowsTrimBack | RICHYEngine/Views/Holders/GraphHolder/VirtualizingGraphHolder.cs:406-426 | the pop-back step without the vertex lookup |
| Sync.ShowsRescaled | RICHYEngine/Views/Holders/GraphHolder/VirtualizingGraphHolder.cs:293-314 | with every vertex moved to the new yMax, the window is shown at the new scale |
| Sync.MixedRunStep | RICHYEngine/Views/Holders/GraphHolder/VirtualizingGraphHolder.cs:299-313 | during the rescale loop, the next old vertex is found at its own slot and one more vertex is at the new scale |
| Virtualizing.RunEnds | RICHYEngine/Views/Holders/GraphHolder/VirtualizingGraphHolder.cs:344-426 | in a shown window the caches are distinct and equally long; slot 0 and the last slot hold the window's ends |
| Virtualizing.RescaleVertex | RICHYEngine/Views/Holders/GraphHolder/VirtualizingGraphHolder.cs:303-312 | one loop step moves exactly the next vertex to the new scale |
| Virtualizing.VirtualizingGraphHolder.DebugAssertHolds | RICHYEngine/Views/Holders/GraphHolder/VirtualizingGraphHolder.cs:479-496 | no contract of its own: the engine's `assert()` on the point cache length; DebugAssertHoldsWhenValid proves it follows from Valid |
| Virtualizing.VirtualizingGraphHolder.DebugAssertHoldsWhenValid | RICHYEngine/Views/Holders/GraphHolder/VirtualizingGraphHolder.cs:479-496 | the engine's assert() never fails on a valid engine |
| Virtualizing.VirtualizingGraphHolder.constructor | RICHYEngine/Views/Holders/GraphHolder/VirtualizingGraphHolder.cs:13-27 | no series, yMax 100, spacing 50, zero pan and window; valid |
| Virtualizing.VirtualizingGraphHolder.GeneratePoint | RICHYEngine/Views/Holders/GraphHolder/VirtualizingGraphHolder.cs:217-224 | pushes the point proxy and its flipped pixel at the requested end; attaches it only when asked (contract inferred from the call sites) |
| Virtualizing.VirtualizingGraphHolder.GenerateLabelX | RICHYEngine/Views/Holders/GraphHolder/VirtualizingGraphHolder.cs:211-212 | pushes the label proxy at the requested end with the sample's label text; attaches it only when asked |
| Virtualizing.VirtualizingGraphHolder.Admit | RICHYEngine/Views/Holders/GraphHolder/VirtualizingGraphHolder.cs:365-405 | one push step is exactly `Sync.Admitted`: point, label and vertex pushed, attached iff decimation shows the sample |
| Virtualizing.VirtualizingGraphHolder.Evict | RICHYEngine/Views/Holders/GraphHolder/VirtualizingGraphHolder.cs:344-426 | one pop step is exactly `Sync.Evicted`: point and label at the same slot and the equal vertex removed, both detached |
| Virtualizing.VirtualizingGraphHolder.EvictPointSlot | RICHYEngine/Views/Holders/GraphHolder/VirtualizingGraphHolder.cs:354-357 | removes the point at a slot from the cache and from the canvas |
| Virtualizing.VirtualizingGraphHolder.EvictLabelSlot | RICHYEngine/Views/Holders/GraphHolder/VirtualizingGraphHolder.cs:358-360 | removes the label at the same slot from the cache and from the canvas |
| Virtualizing.VirtualizingGraphHolder.AdmitFront | RICHYEngine/Views/Holders/GraphHolder/VirtualizingGraphHolder.cs:365-384 | a push-front keeps the window shown, one longer at the front |
| Virtualizing.VirtualizingGraphHolder.AdmitBack | RICHYEngine/Views/Holders/GraphHolder/VirtualizingGraphHolder.cs:386-405 | a push-back keeps the window shown, one longer at the back |
| Virtualizing.VirtualizingGraphHolder.EvictFront | RICHYEngine/Views/Holders/GraphHolder/VirtualizingGraphHolder.cs:344-364 | a pop-front keeps the window shown, one shorter at the front |
| Virtualizing.VirtualizingGraphHolder.EvictBack | RICHYEngine/Views/Holders/GraphHolder/VirtualizingGraphHolder.cs:406-426 | a pop-back keeps the window shown, one shorter at the back |
| Virtualizing.VirtualizingGraphHolder.DropFromStart | RICHYEngine/Views/Holders/GraphHolder/VirtualizingGraphHolder.cs:344-364 | when start grows, the caches show exactly [newStart, end] afterwards |
| Virtualizing.VirtualizingGraphHolder.GrowAtStart | RICHYEngine/Views/Holders/GraphHolder/VirtualizingGraphHolder.cs:365-384 | when start shrinks, prepending from min(oldStart - 1, n - 1) down to newStart shows [newStart, end] |
| Virtualizing.VirtualizingGraphHolder.PrependDownTo | RICHYEngine/Views/Holders/GraphHolder/VirtualizingGraphHolder.cs:367-383 | the prepend loop keeps a shown run ending at the same sample and stops at newStart |
| Virtualizing.VirtualizingGraphHolder.GrowAtEnd | RICHYEngine/Views/Holders/GraphHolder/VirtualizingGraphHolder.cs:386-405 | when end grows, appending oldEnd + 1 up to min(newEnd, n - 1) shows [start, newEnd] |
| Virtualizing.VirtualizingGraphHolder.DropFromEnd | RICHYEngine/Views/Holders/GraphHolder/VirtualizingGraphHolder.cs:406-426 | when end shrinks, popping the back shows [start, newEnd] |
| Virtualizing.VirtualizingGraphHolder.MoveStartIndex | RICHYEngine/Views/Holders/GraphHolder/VirtualizingGraphHolder.cs:342-385 | sets the start field and the caches show the window from the new start |
| Virtualizing.VirtualizingGraphHolder.MoveEndIndex | RICHYEngine/Views/Holders/GraphHolder/VirtualizingGraphHolder.cs:386-427 | sets the end field and the caches show the window up to the new end |
| Virtualizing.VirtualizingGraphHolder.UpdateDisplayRangeAndModifyElements | RICHYEngine/Views/Holders/GraphHolder/VirtualizingGraphHolder.cs:330-429 | afterwards the fields equal newStart/newEnd and the engine is valid (so the assert holds); without a series or polyline it throws and changes nothing |
| Virtualizing.VirtualizingGraphHolder.Append | RICHYEngine/Views/Holders/GraphHolder/VirtualizingGraphHolder.cs:210-225 | the append path is exactly one push-back step |
| Virtualizing.VirtualizingGraphHolder.AppendBack | RICHYEngine/Views/Holders/GraphHolder/VirtualizingGraphHolder.cs:210-225 | the append path keeps the window shown, one longer |
| Virtualizing.VirtualizingGraphHolder.Setup | RICHYEngine/Views/Holders/GraphHolder/VirtualizingGraphHolder.cs:275-292 | a fresh polyline, the label canvas placed, and samples start..min(end, n - 1) built in order: valid |
| Virtualizing.VirtualizingGraphHolder.GenerateWindow | RICHYEngine/Views/Holders/GraphHolder/VirtualizingGraphHolder.cs:283-290 | the build loop turns empty caches into the whole window |
| Virtualizing.VirtualizingGraphHolder.UpdateDisplayRangeByRedraw | RICHYEngine/Views/Holders/GraphHolder/VirtualizingGraphHolder.cs:316-328 | recomputes the window, clears the caches and holders, and rebuilds it with a fresh polyline when there is a series |
| Virtualizing.VirtualizingGraphHolder.ShowGraph | RICHYEngine/Views/Holders/GraphHolder/VirtualizingGraphHolder.cs:56-61 | replaces the series, sets the window from the pan and rebuilds it; the canvases sit at the pan |
| Virtualizing.VirtualizingGraphHolder.MoveGraph | RICHYEngine/Views/Holders/GraphHolder/VirtualizingGraphHolder.cs:40-54 | accumulates the pan; redraws iff newStart ≥ oldEnd and newEnd > newStart, else edits the caches; afterwards the window is the pan's window and the engine is valid; reports failure only where the edit path throws |
| Virtualizing.VirtualizingGraphHolder.AddPointValue | RICHYEngine/Views/Holders/GraphHolder/VirtualizingGraphHolder.cs:194-227 | the series grows by one; returns -1 and changes no cache outside [start, end], else returns the index after pushing one point and one label at the back |
| Virtualizing.VirtualizingGraphHolder.AddInWindow | RICHYEngine/Views/Holders/GraphHolder/VirtualizingGraphHolder.cs:210-225 | an in-window append extends the shown window by one, at the back of both caches |
| Virtualizing.VirtualizingGraphHolder.AddLabelLinePoint | RICHYEngine/Views/Holders/GraphHolder/VirtualizingGraphHolder.cs:210-225 | the append creates the polyline when missing and then pushes one sample |
| Virtualizing.VirtualizingGraphHolder.RearrangePointAndConnection | RICHYEngine/Views/Holders/GraphHolder/VirtualizingGraphHolder.cs:293-314 | moves every cached vertex to the new yMax, leaving the caches' lengths alone; throws without a series |
| Virtualizing.VirtualizingGraphHolder.ChangeYMax | RICHYEngine/Views/Holders/GraphHolder/VirtualizingGraphHolder.cs:228-236 | an equal yMax is a no-op; otherwise it is set and the window stays shown at the new scale |
| Virtualizing.VirtualizingGraphHolder.ChangeXDistance | RICHYEngine/Views/Holders/GraphHolder/VirtualizingGraphHolder.cs:263-272 | clamps the spacing to ≥ 1; a no-op without a series or for an unchanged spacing, else a full redraw at the new spacing |
| Virtualizing.VirtualizingGraphHolder.ChangeZoomX | RICHYEngine/Views/Holders/GraphHolder/VirtualizingGraphHolder.cs:238-261 | the spacing changes by the offset (clamped); when the mouse is over the line, the sample under it keeps its screen X |
| Virtualizing.VirtualizingGraphHolder.ZoomAroundPoint | RICHYEngine/Views/Holders/GraphHolder/VirtualizingGraphHolder.cs:247-254 | after the redraw at the new spacing and the compensating pan, the sample under the mouse has the same screen X as before; the window stays valid and the vertical offset is unchanged |
| BaseGraph.DrawsNext | RICHYEngine/Views/Holders/GraphHolder/GraphHolder.cs:198-217 | drawing the next sample extends a drawn prefix by one |
| BaseGraph.DrawsNextTo | RICHYEngine/Views/Holders/GraphHolder/GraphHolder.cs:198-217 | the same step, stated on the state after drawing |
| BaseGraph.DrawsAppendValue | RICHYEngine/Views/Holders/GraphHolder/GraphHolder.cs:72-97 | appending to the series keeps a drawn prefix drawn |
| BaseGraph.DrawsPrefixCounts | RICHYEngine/Views/Holders/GraphHolder/GraphHolder.cs:198-217 | a drawn prefix of c samples has c points, c labels and c vertices, all attached |
| BaseGraph.GraphElementCache.constructor | RICHYEngine/Views/Holders/GraphHolder/GraphHolder.cs:17-23 | empty caches and no polyline |
| BaseGraph.GraphElementCache.Clear | RICHYEngine/Views/Holders/GraphHolder/GraphHolder.cs:24-30 | nulls the polyline and empties the caches |
| BaseGraph.GraphHolder.constructor | RICHYEngine/Views/Holders/GraphHolder/GraphHolder.cs:46-64 | no series, yMax 100, spacing 50, zero pan; valid |
| BaseGraph.GraphHolder.MoveGraph | RICHYEngine/Views/Holders/GraphHolder/GraphHolder.cs:99-109 | adds to the cumulative pan, places the canvases at it and leaves the drawing alone |
| BaseGraph.MoveGraphThereAndBack | RICHYEngine/Views/Holders/GraphHolder/GraphHolder.cs:99-109 | MoveGraph(dx, dy) then MoveGraph(-dx, -dy) restores the pan and the canvas positions |
| BaseGraph.GraphHolder.GenerateLabelX | RICHYEngine/Views/Holders/GraphHolder/GraphHolder.cs:219-242 | only when AddChild succeeds, pushes the label at the requested end; the text is the X value or else the index |
| BaseGraph.GraphHolder.GeneratePoint | RICHYEngine/Views/Holders/GraphHolder/GraphHolder.cs:277-302 | only when AddChild succeeds, pushes the point and its flipped (x, y) at the same end of the cache and the polyline |
| BaseGraph.GraphHolder.DrawSample | RICHYEngine/Views/Holders/GraphHolder/GraphHolder.cs:205-215 | one build step is exactly `BaseGraph.Drawn` |
| BaseGraph.GraphHolder.DrawSeries | RICHYEngine/Views/Holders/GraphHolder/GraphHolder.cs:205-216 | the build loop draws samples 0..n - 1 in ascending order |
| BaseGraph.GraphHolder.SetupPointNConnectionNLabelX | RICHYEngine/Views/Holders/GraphHolder/GraphHolder.cs:198-217 | a fresh attached polyline, the label canvas placed, and the whole series drawn: valid |
| BaseGraph.GraphHolder.ShowGraph | RICHYEngine/Views/Holders/GraphHolder/GraphHolder.cs:131-146 | replaces the series, clears and rebuilds: valid, with the canvases at the pan |
| BaseGraph.GraphHolder.AddPointValue | RICHYEngine/Views/Holders/GraphHolder/GraphHolder.cs:72-97 | the series grows by one; the result is the point count before the append, and exactly that sample is drawn |
| BaseGraph.GraphHolder.ChangeYMax | RICHYEngine/Views/Holders/GraphHolder/GraphHolder.cs:111-118 | sets yMax; redraws when there is a series, else changes no drawing |
| BaseGraph.GraphHolder.ChangeXDistance | RICHYEngine/Views/Holders/GraphHolder/GraphHolder.cs:120-128 | raises values below 20 to 20; a no-op without a series or for an unchanged spacing, else a redraw at the new spacing |
| LegacyGraph.LegacyLabelXPos | RICHYEngine/Views/Holders/GraphHolder.cs:250-255 | no contract of its own: label j at (j · d + 80 + left, 20); LabelXUnderItsPoint places it at the screen x of its point |
| LegacyGraph.LabelXUnderItsPoint | RICHYEngine/Views/Holders/GraphHolder.cs:248-256 | an X label sits at its point's screen X, `slot * d + 80 + left` |
| LegacyGraph.StridedIndicesAreMultiples | RICHYEngine/Views/Holders/GraphHolder.cs:263 | the strided build visits exactly the multiples of k below n |
| LegacyGraph.StridedSamples | RICHYEngine/Views/Holders/GraphHolder.cs:263-273 | no contract of its own: the samples the build visits, 0, k, 2k and so on; StridedSampleAt, StridedSamplesLength, StridedSamplesFollowIndices and StrideOneShowsEverySample state its properties |
| LegacyGraph.StridedSampleAt | RICHYEngine/Views/Holders/GraphHolder.cs:263-267 | slot j of a strided build shows sample j·k |
| LegacyGraph.StridedSamplesLength | RICHYEngine/Views/Holders/GraphHolder.cs:263 | a strided build fills ceil(n / k) slots |
| LegacyGraph.StrideAdvance | RICHYEngine/Views/Holders/GraphHolder.cs:263-273 | one loop step adds sample i = j·k as slot j and moves i on by k |
| LegacyGraph.StridedSamplesFollowIndices | RICHYEngine/Views/Holders/GraphHolder.cs:263-267 | slot j shows the sample at the j-th visited index |
| LegacyGraph.StrideOneShowsEverySample | RICHYEngine/Views/Holders/GraphHolder.cs:263 | with the default offset count 0, slot j shows sample j |
| LegacyGraph.SlotsAppended | RICHYEngine/Views/Holders/GraphHolder.cs:127-148 | drawing the next slot extends the caches by one point, one label and one line |
| LegacyGraph.PointsPlacedAppended | RICHYEngine/Views/Holders/GraphHolder.cs:127-148 | the new point is at its pixel and the new line joins it to the previous point |
| LegacyGraph.LabelsPlacedAppended | RICHYEngine/Views/Holders/GraphHolder.cs:276-291 | the new label sits under its slot |
| LegacyGraph.OwnedAppended | RICHYEngine/Views/Holders/GraphHolder.cs:127-148 | only generated proxies are attached, and a fully attached stage stays so |
| LegacyGraph.DrawsAppended | RICHYEngine/Views/Holders/GraphHolder.cs:257-274 | drawing the next slot keeps the stage in step with the drawn samples |
| LegacyGraph.LegacyContainer.constructor | RICHYEngine/Views/Holders/GraphHolder.cs:20-27 | nothing attached or placed |
| LegacyGraph.LegacyContainer.SetIntoParent | RICHYEngine/Views/Holders/GraphHolder.cs:39 | attaches the proxy; true iff it was detached |
| LegacyGraph.LegacyContainer.RemoveFromParent | RICHYEngine/Views/Holders/GraphHolder.cs:41 | detaches the proxy; true iff it was attached |
| LegacyGraph.LegacyContainer.SetPositionOnCanvas | RICHYEngine/Views/Holders/GraphHolder.cs:63 | records the proxy's position and nothing else |
| LegacyGraph.LegacyContainer.SetLinePositionOnCanvas | RICHYEngine/Views/Holders/GraphHolder.cs:59 | records the line's two ends and nothing else |
| LegacyGraph.LegacyContainer.SetCanvasPosition | RICHYEngine/Views/Holders/GraphHolder.cs:12 | moves the point canvas |
| LegacyGraph.LegacyContainer.Clear | RICHYEngine/Views/Holders/GraphHolder.cs:26 | detaches everything |
| LegacyGraph.GraphElementCache.constructor | RICHYEngine/Views/Holders/GraphHolder.cs:74-80 | three empty caches |
| LegacyGraph.GraphElementCache.Clear | RICHYEngine/Views/Holders/GraphHolder.cs:81-87 | empties the three caches |
| LegacyGraph.GraphHolder.constructor | RICHYEngine/Views/Holders/GraphHolder.cs:102-119 | no series, yMax 100, spacing 50, zero pan and offset count; valid |
| LegacyGraph.GraphHolder.GenerateLabelX | RICHYEngine/Views/Holders/GraphHolder.cs:276-291 | attaches the slot's label, places it under the slot and appends it only when the attach succeeds |
| LegacyGraph.GraphHolder.GeneratePoint | RICHYEngine/Views/Holders/GraphHolder.cs:327-343 | only appends: demands count = pointIndex on entry; attaches the point, places it at its legacy pixel and appends it only when the attach succeeds |
| LegacyGraph.GraphHolder.GeneratePointConnection | RICHYEngine/Views/Holders/GraphHolder.cs:345-354 | attaches the line, sets its ends and appends it only when the attach succeeds |
| LegacyGraph.GraphHolder.DrawSlot | RICHYEngine/Views/Holders/GraphHolder.cs:264-272 | one slot is exactly `LegacyGraph.Appended`: label, point and (after the first) the line to the previous point |
| LegacyGraph.GraphHolder.DrawStridedSlot | RICHYEngine/Views/Holders/GraphHolder.cs:263-273 | one loop step extends the drawn strided prefix by one and keeps everything attached |
| LegacyGraph.GraphHolder.SetupPointAndConnection | RICHYEngine/Views/Holders/GraphHolder.cs:257-274 | visits 0, k, 2k, … into dense slots; afterwards the drawn samples are the strided samples, and lines = points - 1 |
| LegacyGraph.GraphHolder.StridedBuiltComplete | RICHYEngine/Views/Holders/GraphHolder.cs:263-274 | when the loop index passes the last sample, the slots drawn are exactly the strided samples |
| LegacyGraph.GraphHolder.ShowGraph | RICHYEngine/Views/Holders/GraphHolder.cs:187-214 | replaces the series and redraws its strided samples, all attached |
| LegacyGraph.GraphHolder.AddPointValue | RICHYEngine/Views/Holders/GraphHolder.cs:127-148 | the series grows by one, drawn at slot pointDrawers.Count, with a line only when a previous point exists |
| LegacyGraph.GraphHolder.InvalidateLabelX | RICHYEngine/Views/Holders/GraphHolder.cs:248-256 | places every label under its slot for the current pan, moving nothing else |
| LegacyGraph.GraphHolder.MoveGraph | RICHYEngine/Views/Holders/GraphHolder.cs:150-165 | accumulates the pan, moves the canvas and re-places the labels; attachment is unchanged |
| LegacyGraph.GraphHolder.ChangeYMax | RICHYEngine/Views/Holders/GraphHolder.cs:167-174 | sets yMax and keeps the series; with a series, the slots drawn afterwards are exactly its strided samples at the new scale, all attached; without one, nothing drawn changes |
| LegacyGraph.GraphHolder.ChangeXDistance | RICHYEngine/Views/Holders/GraphHolder.cs:176-184 | clamps to 20; with a series and a changed spacing, the slots drawn afterwards are exactly its strided samples at the new spacing, all attached; otherwise spacing and stage are unchanged |
| LegacyVirtualizing.Detached | RICHYEngine/Views/Holders/VirtualizingGraphHolder.cs:45-56 | a proxy stays attached iff it was and the loop does not toggle it |
| LegacyVirtualizing.ReattachedMeaning | RICHYEngine/Views/Holders/VirtualizingGraphHolder.cs:57-68 | a proxy is attached afterwards iff it was or the loop toggles it |
| LegacyVirtualizing.DetachedStep | RICHYEngine/Views/Holders/VirtualizingGraphHolder.cs:47-54 | one detach step removes point i and, for i ≥ 1, connection i - 1 |
| LegacyVirtualizing.ReattachedStep | RICHYEngine/Views/Holders/VirtualizingGraphHolder.cs:59-66 | one re-attach step adds point i and, for i ≥ 1, connection i - 1 |
| LegacyVirtualizing.AllAttachedIsVisible | RICHYEngine/Views/Holders/VirtualizingGraphHolder.cs:34-39 | right after a build, everything from any start is visible |
| LegacyVirtualizing.DetachKeepsDrawing | RICHYEngine/Views/Holders/VirtualizingGraphHolder.cs:45-56 | detaching keeps the drawing and makes exactly the samples from the new start visible |
| LegacyVirtualizing.ReattachKeepsDrawing | RICHYEngine/Views/Holders/VirtualizingGraphHolder.cs:57-68 | re-attaching keeps the drawing and makes exactly the samples from the new start visible |
| LegacyVirtualizing.VirtualizingGraphHolder.constructor | RICHYEngine/Views/Holders/VirtualizingGraphHolder.cs:14-26 | zero window over a fresh base holder; valid |
| LegacyVirtualizing.VirtualizingGraphHolder.DetachPoints | RICHYEngine/Views/Holders/VirtualizingGraphHolder.cs:47-54 | detaches points [from, to) and their connections; fails iff it would index past the cache |
| LegacyVirtualizing.VirtualizingGraphHolder.ReattachPoints | RICHYEngine/Views/Holders/VirtualizingGraphHolder.cs:59-66 | re-attaches points [from, to) and their connections; fails iff it would index past the cache |
| LegacyVirtualizing.VirtualizingGraphHolder.UpdateDisplayingIndex | RICHYEngine/Views/Holders/VirtualizingGraphHolder.cs:41-69 | as written: detaches or re-attaches between the old and the new start; fails (throws) iff a start lies past the cache |
| LegacyVirtualizing.VirtualizingGraphHolder.UpdateDisplayingIndexClamped | RICHYEngine/Views/Holders/VirtualizingGraphHolder.cs:41-69 | corrected: the loops stop at the cache length; start always becomes the new start and the holder stays valid |
| LegacyVirtualizing.VirtualizingGraphHolder.MoveGraph | RICHYEngine/Views/Holders/VirtualizingGraphHolder.cs:28-32 | accumulates the pan; afterwards start == GetStartPointIndex() unless the loop throws |
| LegacyVirtualizing.VirtualizingGraphHolder.MoveGraphClamped | RICHYEngine/Views/Holders/VirtualizingGraphHolder.cs:28-32 | corrected: start == GetStartPointIndex() always, and the end field is unchanged |
| LegacyVirtualizing.VirtualizingGraphHolder.ShowGraph | RICHYEngine/Views/Holders/VirtualizingGraphHolder.cs:34-39 | builds first, then sets start and end from the earlier formulas |
| LegacyVirtualizing.VirtualizingGraphHolder.AddPointValue | RICHYEngine/Views/Holders/GraphHolder.cs:127-148 | the inherited append grows the series by one and leaves the window fields alone |
| LegacyVirtualizing.VirtualizingGraphHolder.ChangeYMax | RICHYEngine/Views/Holders/GraphHolder.cs:167-174 | the inherited rescale calls the overridden ShowGraph: with a series, the strided samples are drawn again, all attached, and start and end are reset from the pan; without one, nothing changes |
| LegacyVirtualizing.VirtualizingGraphHolder.ChangeXDistance | RICHYEngine/Views/Holders/GraphHolder.cs:176-184 | the inherited clamp-and-redraw goes through the overridden ShowGraph: the strided samples are drawn again, all attached, and start and end are reset; a no-op otherwise |
| LegacyVirtualizing.PanOf400StartsAt7 | RICHYEngine/Views/Holders/VirtualizingGraphHolder.cs:71-82 | a pan of -400 at spacing 50 puts the earlier window start at 7 |
| LegacyVirtualizing.PanPastTheSeries | RICHYEngine/Views/Holders/VirtualizingGraphHolder.cs:45-56 | three samples, then MoveGraph(-400, 0): the as-written loop indexes past the cache |
| LegacyVirtualizing.PanPastTheSeriesClamped | RICHYEngine/Views/Holders/VirtualizingGraphHolder.cs:45-56 | the same pan with the corrected loop ends with start 7 |
| Utils.GrownCapacity | RICHY_DevTool/Utils/IList2.cs:295-310 | 4 when empty, else double, at least the request, capped at the array maximum unless the request is larger |
| Utils.SearchForward | RICHY_DevTool/Utils/IList2.cs:533-542 | the first equal slot in the range, or -1 when none |
| Utils.SearchBackward | RICHY_DevTool/Utils/IList2.cs:577-605 | the last equal slot in the range, or -1 when none |
| Utils.MatchingMeaning | RICHY_DevTool/Utils/IList2.cs:332-348 | FindAll's result holds exactly the list's matching items |
| Utils.Backwards | RICHY_DevTool/Utils/IList2.cs:627-647 | reversal keeps the length |
| Utils.BackwardsAt | RICHY_DevTool/Utils/IList2.cs:627-647 | slot k of the reversal is slot n - 1 - k |
| Utils.ReversedRange | RICHY_DevTool/Utils/IList2.cs:627-647 | reversing a range keeps the length |
| Utils.ReversedRangeAt | RICHY_DevTool/Utils/IList2.cs:627-647 | the element at i in the range moves to index + (index + count - i - 1); the others stay |
| Utils.ReversedRangeTwice | RICHY_DevTool/Utils/IList2.cs:627-647 | reversing the same range twice restores the list |
| Utils.ReversedRangePrefix | RICHY_DevTool/Utils/IList2.cs:627-647 | reversing inside the live prefix of the array is reversing the list |
| Utils.ReversedShortRange | RICHY_DevTool/Utils/IList2.cs:627-647 | reversing fewer than two elements changes nothing |
| Utils.ReverseSlots | RICHY_DevTool/Utils/IList2.cs:642-645 | the in-place swap loop leaves the array equal to the reversed range |
| Utils.ReadOnlyList.constructor | RICHY_DevTool/Utils/IList2.cs:25-28 | an empty list with no capacity |
| Utils.ReadOnlyList.Sized | RICHY_DevTool/Utils/IList2.cs:34-43 | an empty list with the requested capacity |
| Utils.ReadOnlyList.WithCapacity | RICHY_DevTool/Utils/IList2.cs:34-43 | fails with ArgumentOutOfRange iff the capacity is negative |
| Utils.ReadOnlyList.FromCollection | RICHY_DevTool/Utils/IList2.cs:54-67 | a collection is copied whole, capacity = its count |
| Utils.ReadOnlyList.FromEnumerable | RICHY_DevTool/Utils/IList2.cs:68-78 | an enumerable is added one by one: same elements, one version bump per item |
| Utils.ReadOnlyList.Count | RICHY_DevTool/Utils/IList2.cs:114 | the number of elements |
| Utils.ReadOnlyList.SetCapacity | RICHY_DevTool/Utils/IList2.cs:85-112 | fails iff below the size; otherwise the capacity is the value and the elements are kept, reallocating only on a change |
| Utils.ReadOnlyList.Grow | RICHY_DevTool/Utils/IList2.cs:295-310 | reallocates at GrownCapacity, keeping the elements |
| Utils.ReadOnlyList.EnsureCapacity | RICHY_DevTool/Utils/IList2.cs:276-289 | fails iff negative; otherwise returns a capacity ≥ the request, growing (and bumping the version) only when needed |
| Utils.ReadOnlyList.Get | RICHY_DevTool/Utils/IList2.cs:123-133 | slot i, and ArgumentOutOfRange exactly outside [0, size) |
| Utils.ReadOnlyList.Set | RICHY_DevTool/Utils/IList2.cs:134-142 | changes only slot i and bumps the version; fails, changing nothing, outside [0, size) |
| Utils.ReadOnlyList.Add | RICHY_DevTool/Utils/IList2.cs:168-182 | appends the item, bumps the version, and grows only when full |
| Utils.ReadOnlyList.AddWithResize | RICHY_DevTool/Utils/IList2.cs:184-190 | a full list grows to GrownCapacity(size + 1) and then holds the item at the end |
| Utils.ReadOnlyList.AddObject | RICHY_DevTool/Utils/IList2.cs:192-204 | appends and returns the new item's index |
| Utils.ReadOnlyList.IndexOf | RICHY_DevTool/Utils/IList2.cs:504-505 | -1 iff absent; otherwise the first slot holding the item |
| Utils.ReadOnlyList.Contains | RICHY_DevTool/Utils/IList2.cs:228-231 | true iff the item is in the list |
| Utils.ReadOnlyList.IndexOfRange | RICHY_DevTool/Utils/IList2.cs:533-542 | the first equal slot in [index, index + count), or -1; fails iff the range leaves the list |
| Utils.ReadOnlyList.IndexOfFrom | RICHY_DevTool/Utils/IList2.cs:517-522 | the first equal slot from index on, or -1; fails iff index > size or negative |
| Utils.ReadOnlyList.LastIndexOfRange | RICHY_DevTool/Utils/IList2.cs:577-605 | an empty list gives -1; otherwise the last equal slot in (index - count, index], with IndexOutOfRange for a negative index checked before ArgumentOutOfRange |
| Utils.ReadOnlyList.LastIndexOf | RICHY_DevTool/Utils/IList2.cs:549-559 | -1 iff absent (so -1 on an empty list); otherwise the last slot holding the item |
| Utils.ReadOnlyList.LastIndexOfFrom | RICHY_DevTool/Utils/IList2.cs:561-566 | the last equal slot in [0, index]; fails for index ≥ size (or negative on a non-empty list) |
| Utils.ReadOnlyList.FindIndexRange | RICHY_DevTool/Utils/IList2.cs:356-379 | the smallest slot in [s, s + c) that matches, else -1; fails iff the range is bad |
| Utils.ReadOnlyList.FindIndex | RICHY_DevTool/Utils/IList2.cs:350-351 | the first matching slot, else -1 |
| Utils.ReadOnlyList.FindIndexFrom | RICHY_DevTool/Utils/IList2.cs:353-354 | the first matching slot from s on; fails iff s is outside [0, size] |
| Utils.ReadOnlyList.FindLastIndexRange | RICHY_DevTool/Utils/IList2.cs:404-443 | the largest slot in (s - c, s] that matches, else -1; on an empty list only s = -1 with c = 0 is accepted |
| Utils.ReadOnlyList.FindLastIndex | RICHY_DevTool/Utils/IList2.cs:398-399 | the last matching slot, else -1 |
| Utils.ReadOnlyList.FindLastIndexFrom | RICHY_DevTool/Utils/IList2.cs:401-402 | the last matching slot in [0, s]; on an empty list only s = -1 is accepted |
| Utils.ReadOnlyList.Exists | RICHY_DevTool/Utils/IList2.cs:312-313 | true iff some element matches |
| Utils.ReadOnlyList.Find | RICHY_DevTool/Utils/IList2.cs:315-330 | the first matching element, and the default (None) iff none matches |
| Utils.ReadOnlyList.FindLast | RICHY_DevTool/Utils/IList2.cs:381-396 | the last matching element, and the default (None) iff none matches |
| Utils.ReadOnlyList.FindAll | RICHY_DevTool/Utils/IList2.cs:332-348 | the matching elements in list order, exactly those |
| Utils.ReadOnlyList.TrueForAll | RICHY_DevTool/Utils/IList2.cs:722-737 | true iff every element matches |
| Utils.ReadOnlyList.ForEach | RICHY_DevTool/Utils/IList2.cs:445-465 | the action is applied to every element, in order |
| Utils.ReadOnlyList.ToArray | RICHY_DevTool/Utils/IList2.cs:692-702 | a fresh array holding the elements |
| Utils.ReadOnlyList.GetRange | RICHY_DevTool/Utils/IList2.cs:481-502 | a new list equal to the slice, capacity = count; the three argument errors in the source's order |
| Utils.ReadOnlyList.Reverse | RICHY_DevTool/Utils/IList2.cs:627-647 | the list becomes ReversedRange of the old one, size kept and version bumped; the three argument errors in the source's order |
| Utils.ReadOnlyList.ReverseAll | RICHY_DevTool/Utils/IList2.cs:619-620 | reverses the whole list |
| Utils.ReadOnlyList.IListClear | RICHY_DevTool/Utils/IList2.cs:224-226 | a no-op |
| Utils.ReadOnlyList.IListInsert | RICHY_DevTool/Utils/IList2.cs:544-546 | a no-op |
| Utils.ReadOnlyList.IListRemove | RICHY_DevTool/Utils/IList2.cs:608-610 | a no-op |
| Utils.ReadOnlyList.IListRemoveAt | RICHY_DevTool/Utils/IList2.cs:612-614 | a no-op |
| Utils.Enumerator.constructor | RICHY_DevTool/Utils/IList2.cs:746-752 | before the first element, remembering the list's version; `IEnumerator.Current` throws there |
| Utils.Enumerator.MoveNext | RICHY_DevTool/Utils/IList2.cs:758-769 | advances to the next element, after which `IEnumerator.Current` returns it; at the end parks past it and returns false, after which `IEnumerator.Current` throws; throws InvalidOperation iff the list changed |
| Utils.Enumerator.MoveNextRare | RICHY_DevTool/Utils/IList2.cs:771-781 | throws iff the list changed; otherwise parks past the end and returns false |
| Utils.Enumerator.Current | RICHY_DevTool/Utils/IList2.cs:783 | no contract of its own: the element the last successful MoveNext produced, which MoveNext's contract sets; see Utils.Enumerate |
| Utils.Enumerator.CurrentObject | RICHY_DevTool/Utils/IList2.cs:785-795 | no contract of its own: InvalidOperation at index 0 or size + 1, else the current element; the contracts of the constructor, MoveNext and Reset say when each holds |
| Utils.Enumerator.Reset | RICHY_DevTool/Utils/IList2.cs:797-806 | throws iff the list changed; otherwise back before the first element, where `IEnumerator.Current` throws |
| Utils.Enumerate | RICHY_DevTool/Utils/IList2.cs:758-781 | a foreach over an unchanged list sees exactly its elements, in order |
| Utils.AddDuringEnumerationThrows | RICHY_DevTool/Utils/IList2.cs:758-769 | an Add between two MoveNext calls makes the second one throw |
| Utils.ReadOnlyCollection2.constructor | RICHY_DevTool/Utils/IList2.cs:814-817 | a view over the given list |
| Utils.ReadOnlyCollection2.Count | RICHY_DevTool/Utils/IList2.cs:819 | the list's count |
| Utils.ReadOnlyCollection2.Get | RICHY_DevTool/Utils/IList2.cs:821 | the list's slot, failing outside it |
| Utils.ReadOnlyCollection2.Contains | RICHY_DevTool/Utils/IList2.cs:823-826 | true iff the list holds the value |
| Utils.ReadOnlyCollection2.IndexOf | RICHY_DevTool/Utils/IList2.cs:886-893 | -1 iff absent, else the first slot holding the value, as the wrapped list's `IndexOf` finds it |
| Utils.ReadOnlyCollection2.GetEnumerator | RICHY_DevTool/Utils/IList2.cs:829-832 | a fresh enumerator over the list |
| Utils.ReadOnlyCollection2.IListAdd | RICHY_DevTool/Utils/IList2.cs:862-865 | refuses with -1 and changes nothing |
| Utils.ReadOnlyCollection2.IListSet | RICHY_DevTool/Utils/IList2.cs:850-860 | changes nothing |
| Utils.ReadOnlyCollection2.IListClear | RICHY_DevTool/Utils/IList2.cs:867-869 | changes nothing |
| Utils.ReadOnlyCollection2.IListInsert | RICHY_DevTool/Utils/IList2.cs:895-897 | changes nothing |
| Utils.ReadOnlyCollection2.IListRemove | RICHY_DevTool/Utils/IList2.cs:899-901 | changes nothing |
| Utils.ReadOnlyCollection2.IListRemoveAt | RICHY_DevTool/Utils/IList2.cs:903-905 | changes nothing |
| Utils.ViewFollowsTheList | RICHY_DevTool/Utils/IList2.cs:810-832 | the view reflects a later Add to the list and still refuses its own Add |

## Left out

- Animated append (`AddPointValueWithAnimation`, `MovePointAndLineToward`) and the animation controller: asynchronous float interpolation behind a semaphore and a background task.
- Logging (`D(...)`, `Debug.WriteLine`): treated as no-ops. The file I/O and process hooks of the logger are not modelled.
- Y labels, the dash grid, the axes and the popup: `InvalidateLabelY`, `SetUpLabelY`, `SetupDash` and `F2` text formatting are not modelled. Their holders appear only as canvases the redraws clear.
- WPF styling, text measurement, `RectDrawerImpl`, the mouse and key handlers, and the `Dump` strings are not modelled.
- Floating point: `yMax` and Y pixels are exact reals. Infinity and NaN are not modelled, so every `ChangeYMax` requires a non-zero value.
- Integer width: the pan, the spacing, `_size` and `_version` are unbounded. The 32-bit wrap-around of `_version` is not modelled.
- Spacing: the source keeps `xPointDistance` as a `float` (`RICHYEngine/Views/Holders/GraphHolder.cs:105`, `RICHYEngine/Views/Holders/GraphHolder/GraphHolder.cs:49`), and the legacy `ChangeXDistance` and the current `ChangeZoomX` take a `float`. The model's spacing is an `int`, because the shown callers pass only whole numbers. Fractional spacings are not modelled. The graph width is a `float` too (`RICHY_DevTool/View/Widgets/RichyGraph.xaml.cs:530`, `RICHYEngine/Views/Holders/GraphHolder/Elements/IGraphContainer.cs:12`); the model takes its whole part. With a whole pan and a whole spacing, `(W - p) / d` and `(floor(W) - p) / d` have the same sign and the same integer part, so no window index changes.
- `GetPointIndexViaMousePos` is not part of the shown source. `ChangeZoomX` takes the sample under the mouse as a parameter.
- Virtualizing.VirtualizingGraphHolder.GeneratePoint and Virtualizing.VirtualizingGraphHolder.GenerateLabelX: the version of the base class they come from is not shown. Their contracts are inferred from the call sites and promise nothing beyond that.
- ElementCache.ElementCacheCollection: `GetElementCacheCount` and `GetElementAt` are read directly as the list's length and slot.
- ElementCache.ElementCacheCollection: the state objects are booleans in the map, and `AddElementToCache` returns nothing. Writing through the returned state is `SetAttached`.
- Current-engine containers: the engine uses `Canvas.CanvasHolder.ClearReturningRemoved` (see Findings) wherever it clears a holder. The as-written `Clear` is modelled beside it.
- The two interface namespaces differ in `RemovePoint`'s return type. The model follows `Elements/IGraphPolyLineDrawer.cs`, where it returns `bool`.
- BaseGraph.GraphHolder.ChangeYMax and LegacyGraph.GraphHolder.ChangeYMax: they state what is drawn after the redraw at the new scale, but not which host calls make it.
- LegacyGraph: inheritance is modelled by composition. The legacy virtualising holder holds its base holder as a field, and the overridden `ShowGraph` is called explicitly where the base class would dispatch to it.
- LegacyGraph: the earlier engine's `mCurrentEndIndex` is set in `ShowGraph` and never read.
- LegacyGraph: the point caches are indexed by slot while the build is strided. When `mCurrentPointOffsetCount > 0`, the detach loop's indices are slots, not samples. The default offset count is 0, where the two agree (`LegacyGraph.StrideOneShowsEverySample`).
- Geometry.LegacyYValueAtMouseInvertsYPos: the earlier `GetYValueAtMouse` adds `top` where the current one subtracts it. The lemma states the inversion for the point canvas placed at `-top`. Which sign is right depends on how the host turns mouse coordinates into canvas coordinates, which is not part of this model.
- Window: the minimum separation between two shown samples is the constant 90 (`RICHYEngine/Views/Holders/GraphHolder/VirtualizingGraphHolder.cs:12`).
- Window.StrideAntitone: wider spacing gives a smaller or equal stride. The stronger claim that the attached set only shrinks as spacing grows is false for windows not starting at 0. An example is the window [3, 3] at d = 30 versus d = 45, so it is not stated.
- Utils.ReadOnlyList: `ArgumentNullException` for a null predicate or action is not modelled, because Dafny functions are never null.
- Utils.ReadOnlyList.ForEach: the version check is not modelled, because a Dafny function cannot reach the list. A re-entrant action that modifies the list is outside the model.
- Utils.ReadOnlyList: the shared static empty array is a fresh empty array per list.
- Utils.ReadOnlyList: `Sort`, `BinarySearch`, `TrimExcess` and `CopyTo` are not modelled. They delegate to the runtime's array routines, and `TrimExcess` compares against a floating-point threshold.
- Utils.ReadOnlyList: the `IList` overloads taking `object` omit their type checks. Their arguments are already of type `T`.
- Utils.ReadOnlyList: the `IsReadOnly`, `IsFixedSize`, `IsSynchronized` and `SyncRoot` properties are not modelled.
- Utils.ReadOnlyCollection2: `CopyTo` is not modelled.
- Utils.ReadOnlyCollection2: the view is modelled over `ReadOnlyList<T>` only. The source accepts any `IReadOnlyList<T>`, and for a list that is not an `IList` its `IndexOf` returns -1 even when the value is present. That case is not modelled.
- Utils.Enumerator: the source's enumerator is a `struct` (`RICHY_DevTool/Utils/IList2.cs:739`), so a copy has its own position. The model uses a `class`, so two references to one enumerator share its position; copying an enumerator is not modelled.
- Utils.Enumerator.Current: it is modelled as the `current` field, which is `None` where C# holds `default(T)`.

## Findings

| source | as written | input that shows it | evidently intended | confidence | as-written member | corrected member |
|---|---|---|---|---|---|---|
| RICHYEngine/Views/Holders/VirtualizingGraphHolder.cs:45-68 | the detach and re-attach loops index `pointDrawers[i]` for every `i` up to the new start, with no bound against the cache length | show 3 samples at spacing 50, then `MoveGraph(-400, 0)`: the new start is 7, so `pointDrawers[3]` throws `ArgumentOutOfRangeException` | stop the loops at the number of generated points, so the start still follows the pan | not executed; proved on the model | LegacyVirtualizing.PanPastTheSeries | LegacyVirtualizing.PanPastTheSeriesClamped |
| RICHY_DevTool/View/Widgets/RichyGraph.xaml.cs:468-472 | `CanvasHolderImpl.Clear` empties the canvas but returns the tracked set without emptying it | add child 7, then `Clear()` twice: the second call still returns {7}, which is no longer on the canvas, so `ClearAllChildAndAssignNewState` resets a stale flag | return exactly the removed children and empty the tracked set, as the interface documents (`Elements/ICanvasHolder.cs:9-14`) | not executed; proved on the model | Canvas.ClearTwiceReportsStaleChild | Canvas.ClearReturningRemovedTwice |
