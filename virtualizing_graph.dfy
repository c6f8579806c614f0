/** VirtualizingGraphHolder: the chart engine that keeps proxies only for the
    samples in the visible window [startIndex, endIndex], and reconciles its
    caches with pop/push edits at both ends when the window moves.

    Its invariant, Valid(), is the engine's own Debug.Assert made exact: the
    point cache, the label cache and the polyline hold one entry for every
    in-window sample that exists, in ascending order; the host canvases hold
    exactly the decimated ones. */
module Virtualizing {
  import opened Geometry
  import opened Window
  import opened PolyLine
  import opened Canvas
  import opened ElementCache
  import opened CanvasProxy
  import opened Sync

  /** The proxies of a shown run are listed once each, and its two ends are
      the proxies of its first and last samples. */
  lemma RunEnds(scene: Scene, vals: seq<PointValue>, sc: Scale, lo: int, c: int)
    requires Shows(scene, vals, sc, lo, c) && c > 0
    ensures Distinct(scene.points) && Distinct(scene.labels)
    ensures |scene.points| == |scene.labels| == c && scene.vertices.Some?
    ensures scene.points[0] == PointChild(lo) && scene.labels[0] == LabelXChild(lo)
    ensures scene.points[c - 1] == PointChild(lo + c - 1) && scene.labels[c - 1] == LabelXChild(lo + c - 1)
  {
  }

  /** One pass of the rearrange loop: the point proxy in slot j, the
      proxy of sample lo + j, moves from its position at the previous scale
      to its position at yMax', and its polyline vertex, looked up by value,
      follows. */
  method RescaleVertex(line: PolyLine, vals: seq<PointValue>, point: Child, previousScale: Scale, yMax': real,
                       lo: int, ghost c: int, j: int)
    requires ScaleOk(previousScale) && yMax' != 0.0 && line.canvasHeight == previousScale.lineHeight
    requires 0 <= lo && 0 <= j < c && lo + c <= |vals| && point == PointChild(lo + j)
    requires MixedRun(line.points, vals, previousScale, yMax', lo, c, j)
    modifies line
    ensures MixedRun(line.points, vals, previousScale, yMax', lo, c, j + 1)
  {
    var oldPointPos := PointPosition(vals, point.index, previousScale);
    var newPointPos := PointPosition(vals, lo + j, previousScale.(yMax := yMax'));
    ghost var v := line.points;
    MixedRunStep(v, vals, previousScale, yMax', lo, c, j);
    var changed := line.ChangePointPositionByValue(oldPointPos, newPointPos);
    assert line.points == v[j := Vertex(vals, lo + j, previousScale.(yMax := yMax'))];
  }

  class VirtualizingGraphHolder {
    const container: GraphContainer
    const cache: GraphElementCache
    /** Height of the canvas the polyline generator draws on, which
        GetReversePosForPoint flips against. */
    const lineCanvasHeight: real
    /** mCurrentShowingValueList; None until the first ShowGraph or AddPointValue. */
    var series: Option<seq<PointValue>>
    var yMax: real
    var xPointDistance: int
    /** mPointCanvasHolderLeft / mPointCanvasHolderTop: the cumulative pan. */
    var left: int
    var top: int
    var startIndex: int
    var endIndex: int

    function Values(): seq<PointValue>
      reads this
    {
      if series.Some? then series.value else []
    }

    function CurrentScale(): Scale
      reads this
    {
      Scale(xPointDistance, yMax, container.graphHeight, lineCanvasHeight)
    }

    ghost function CurrentScene(): Scene
      reads cache, cache.pointDrawers, cache.labelXDrawers, container.pointAndLine, container.labelX, cache.lineConnectionDrawer
    {
      Scene(cache.pointDrawers.elements, cache.labelXDrawers.elements,
            if cache.lineConnectionDrawer == null then None else Some(cache.lineConnectionDrawer.points),
            container.pointAndLine.children, container.labelX.children)
    }

    /** The parts of the invariant that do not depend on the window. */
    ghost predicate Structure()
      reads this, cache, cache.pointDrawers, cache.labelXDrawers
    {
      container.Distinct() && cache.Distinct3() &&
      cache.pointDrawers.Keyed() && cache.labelXDrawers.Keyed() &&
      container.graphWidth >= 0 &&
      (series.None? ==> cache.lineConnectionDrawer == null) &&
      (cache.lineConnectionDrawer != null ==> cache.lineConnectionDrawer.canvasHeight == lineCanvasHeight)
    }

    ghost predicate Valid()
      reads this, cache, cache.pointDrawers, cache.labelXDrawers, container.pointAndLine, container.labelX, cache.lineConnectionDrawer
    {
      Structure() && WindowShape(startIndex, endIndex) &&
      Shows(CurrentScene(), Values(), CurrentScale(), startIndex, ExpectedCount(startIndex, endIndex, |Values()|))
    }

    /** The three Debug.Assert cases of assert(). */
    ghost predicate DebugAssertHolds()
      reads this, cache, cache.pointDrawers
    {
      series.Some? ==>
        |cache.pointDrawers.elements| ==
          if endIndex < |series.value| then endIndex - startIndex + 1
          else if startIndex < |series.value| then |series.value| - startIndex
          else 0
    }

    /** assert() never fails on a valid engine. */
    lemma DebugAssertHoldsWhenValid()
      requires Valid()
      ensures DebugAssertHolds()
    {
      ExpectedCountIsDebugAssertCount(startIndex, endIndex, |Values()|);
    }

    constructor(container: GraphContainer, lineCanvasHeight: real)
      requires container.Distinct() && container.graphWidth >= 0
      requires container.pointAndLine.children == {} && container.labelX.children == {}
      ensures this.container == container && this.lineCanvasHeight == lineCanvasHeight
      ensures series == None && yMax == 100.0 && xPointDistance == XPointDistanceDef
      ensures left == 0 && top == 0 && startIndex == 0 && endIndex == 0
      ensures fresh(cache) && fresh(cache.pointDrawers) && fresh(cache.labelXDrawers) && fresh(cache.labelYDrawers)
      ensures Valid()
    {
      this.container := container;
      this.lineCanvasHeight := lineCanvasHeight;
      cache := new GraphElementCache();
      series := None;
      yMax := 100.0;
      xPointDistance := XPointDistanceDef;
      left := 0;
      top := 0;
      startIndex := 0;
      endIndex := 0;
    }

    /** GeneratePoint as the engine calls it: always caches the point proxy
        of sample `pointIndex` and its vertex at the requested end, and puts
        the proxy on the host only when asked to. */
    method GeneratePoint(pointIndex: int, polyLine: PolyLine, addToParent: bool, toLast: bool)
      requires 0 <= pointIndex < |Values()| && ScaleOk(CurrentScale())
      modifies cache.pointDrawers, container.pointAndLine, polyLine
      ensures cache.pointDrawers.elements ==
        if toLast then old(cache.pointDrawers.elements) + [PointChild(pointIndex)]
        else [PointChild(pointIndex)] + old(cache.pointDrawers.elements)
      ensures old(cache.pointDrawers.Keyed()) ==> cache.pointDrawers.Keyed()
      ensures container.pointAndLine.children ==
        if addToParent then old(container.pointAndLine.children) + {PointChild(pointIndex)}
        else old(container.pointAndLine.children)
      ensures container.pointAndLine.position == old(container.pointAndLine.position)
      ensures polyLine.points ==
        if toLast then old(polyLine.points) + [ReversePos(PointPosition(Values(), pointIndex, CurrentScale()), polyLine.canvasHeight)]
        else [ReversePos(PointPosition(Values(), pointIndex, CurrentScale()), polyLine.canvasHeight)] + old(polyLine.points)
    {
      var point := PointChild(pointIndex);
      var position := PointPosition(Values(), pointIndex, CurrentScale());
      cache.pointDrawers.AddElementToCache(point, toLast);
      if addToParent {
        var added := container.pointAndLine.AddChild(point);
      }
      var slot := polyLine.AddNewPoint(position, toLast);
    }

    /** GenerateLabelX as the engine calls it: always caches the label proxy
        of sample `pointIndex` at the requested end, and puts it on the host
        only when asked to. Returns the text the label shows. */
    method GenerateLabelX(pointIndex: int, addToParent: bool, toLast: bool) returns (text: LabelText)
      requires 0 <= pointIndex < |Values()|
      modifies cache.labelXDrawers, container.labelX
      ensures text == LabelTextOf(Values()[pointIndex], pointIndex)
      ensures cache.labelXDrawers.elements ==
        if toLast then old(cache.labelXDrawers.elements) + [LabelXChild(pointIndex)]
        else [LabelXChild(pointIndex)] + old(cache.labelXDrawers.elements)
      ensures old(cache.labelXDrawers.Keyed()) ==> cache.labelXDrawers.Keyed()
      ensures container.labelX.children ==
        if addToParent then old(container.labelX.children) + {LabelXChild(pointIndex)}
        else old(container.labelX.children)
      ensures container.labelX.position == old(container.labelX.position)
    {
      var labelX := LabelXChild(pointIndex);
      text := LabelTextOf(Values()[pointIndex], pointIndex);
      cache.labelXDrawers.AddElementToCache(labelX, toLast);
      if addToParent {
        var added := container.labelX.AddChild(labelX);
      }
    }

    /** One pass of the start-shrinks loop (toLast false) or of the
        end-grows loop (toLast true): generate the point, then the label, of
        sample i at that end of the caches. */
    method Admit(i: int, toLast: bool)
      requires Structure() && cache.lineConnectionDrawer != null
      requires ScaleOk(CurrentScale()) && 0 <= i < |Values()|
      modifies cache.pointDrawers, cache.labelXDrawers, container.pointAndLine, container.labelX, cache.lineConnectionDrawer
      ensures Structure() && cache.lineConnectionDrawer == old(cache.lineConnectionDrawer)
      ensures old(CurrentScene()).vertices.Some?
      ensures CurrentScene() == Admitted(old(CurrentScene()), Values(), CurrentScale(), i, toLast)
      ensures container.pointAndLine.position == old(container.pointAndLine.position)
      ensures container.labelX.position == old(container.labelX.position)
    {
      var isShouldAddToParent := IsShown(i, xPointDistance);
      GeneratePoint(i, cache.lineConnectionDrawer, isShouldAddToParent, toLast);
      var text := GenerateLabelX(i, isShouldAddToParent, toLast);
    }

    /** One pass of the start-grows loop (fromFront) or of the end-shrinks
        loop: evict cache slot 0 or the last slot, which hold the proxies of
        sample i, and the polyline vertex equal to that point's position. */
    method Evict(ghost i: int, fromFront: bool)
      requires Structure() && cache.lineConnectionDrawer != null
      requires ScaleOk(CurrentScale()) && 0 <= i < |Values()|
      requires Distinct(cache.pointDrawers.elements) && Distinct(cache.labelXDrawers.elements)
      requires |cache.pointDrawers.elements| == |cache.labelXDrawers.elements| > 0
      requires cache.pointDrawers.elements[if fromFront then 0 else |cache.pointDrawers.elements| - 1] == PointChild(i)
      requires cache.labelXDrawers.elements[if fromFront then 0 else |cache.labelXDrawers.elements| - 1] == LabelXChild(i)
      modifies cache.pointDrawers, cache.labelXDrawers, container.pointAndLine, container.labelX, cache.lineConnectionDrawer
      ensures Structure() && cache.lineConnectionDrawer == old(cache.lineConnectionDrawer)
      ensures CurrentScene() == Evicted(old(CurrentScene()), i,
        RemoveFirst(old(cache.lineConnectionDrawer.points), Vertex(Values(), i, CurrentScale())), fromFront)
      ensures container.pointAndLine.position == old(container.pointAndLine.position)
      ensures container.labelX.position == old(container.labelX.position)
    {
      var line := cache.lineConnectionDrawer;
      var slot := if fromFront then 0 else |cache.pointDrawers.elements| - 1;
      ghost var points := cache.pointDrawers.elements;
      ghost var labels := cache.labelXDrawers.elements;
      var pointCache := EvictPointSlot(slot);
      EvictLabelSlot(slot);
      assert pointCache == PointChild(i);
      assert ReversePos(PointPosition(Values(), pointCache.index, CurrentScale()), line.canvasHeight) == Vertex(Values(), i, CurrentScale());
      var removed := line.RemovePointByValue(PointPosition(Values(), pointCache.index, CurrentScale()));
      if fromFront {
        assert cache.pointDrawers.elements == points[1..];
        assert cache.labelXDrawers.elements == labels[1..];
      } else {
        assert cache.pointDrawers.elements == points[..slot];
        assert cache.labelXDrawers.elements == labels[..slot];
      }
    }

    /** Point half of an eviction: drop the point proxy in cache slot `slot`,
        then take it off the host. */
    method EvictPointSlot(slot: int) returns (pointCache: Child)
      requires cache.pointDrawers.Valid() && 0 <= slot < |cache.pointDrawers.elements|
      modifies cache.pointDrawers, container.pointAndLine
      ensures pointCache == old(cache.pointDrawers.elements[slot])
      ensures cache.pointDrawers.elements == old(cache.pointDrawers.elements[..slot] + cache.pointDrawers.elements[slot + 1..])
      ensures cache.pointDrawers.Valid()
      ensures container.pointAndLine.children == old(container.pointAndLine.children) - {pointCache}
      ensures container.pointAndLine.position == old(container.pointAndLine.position)
    {
      pointCache := cache.pointDrawers.elements[slot];
      var ok := cache.pointDrawers.RemoveElementAt(slot);
      var removed := container.pointAndLine.RemoveChild(pointCache);
    }

    /** Label half of an eviction: take the label proxy in cache slot `slot`
        off the host, clearing its flag, then drop it from the cache. */
    method EvictLabelSlot(slot: int)
      requires cache.labelXDrawers.Valid() && 0 <= slot < |cache.labelXDrawers.elements|
      modifies cache.labelXDrawers, container.labelX
      ensures cache.labelXDrawers.elements == old(cache.labelXDrawers.elements[..slot] + cache.labelXDrawers.elements[slot + 1..])
      ensures cache.labelXDrawers.Valid()
      ensures container.labelX.children == old(container.labelX.children) - {old(cache.labelXDrawers.elements[slot])}
      ensures container.labelX.position == old(container.labelX.position)
    {
      var labelXDrawer := cache.labelXDrawers.elements[slot];
      assert labelXDrawer in Elements(cache.labelXDrawers.elements);
      RemoveCanvasChildAndAssignNewState(container.labelX, cache.labelXDrawers, labelXDrawer);
      var ok := cache.labelXDrawers.RemoveElementAt(slot);
    }

    /** Admit at the front, on a window [lo, lo + c) with lo = i + 1. */
    method AdmitFront(i: int, ghost lo: int, ghost c: int)
      requires Structure() && cache.lineConnectionDrawer != null
      modifies cache.pointDrawers, cache.labelXDrawers, container.pointAndLine, container.labelX, cache.lineConnectionDrawer
      ensures Structure() && cache.lineConnectionDrawer == old(cache.lineConnectionDrawer)
      ensures container.pointAndLine.position == old(container.pointAndLine.position)
      ensures container.labelX.position == old(container.labelX.position)
      requires Shows(CurrentScene(), Values(), CurrentScale(), lo, c) && lo == i + 1 && 0 <= i < |Values()|
      ensures Shows(CurrentScene(), Values(), CurrentScale(), i, c + 1)
    {
      ghost var scene := CurrentScene();
      Admit(i, false);
      ShowsPushFront(scene, Values(), CurrentScale(), lo, c);
    }

    /** Admit at the back, on a window [lo, lo + c) with i = lo + c. */
    method AdmitBack(i: int, ghost lo: int, ghost c: int)
      requires Structure() && cache.lineConnectionDrawer != null
      modifies cache.pointDrawers, cache.labelXDrawers, container.pointAndLine, container.labelX, cache.lineConnectionDrawer
      ensures Structure() && cache.lineConnectionDrawer == old(cache.lineConnectionDrawer)
      ensures container.pointAndLine.position == old(container.pointAndLine.position)
      ensures container.labelX.position == old(container.labelX.position)
      requires Shows(CurrentScene(), Values(), CurrentScale(), lo, c) && i == lo + c && i < |Values()|
      ensures Shows(CurrentScene(), Values(), CurrentScale(), lo, c + 1)
    {
      ghost var scene := CurrentScene();
      Admit(i, true);
      ShowsPushBack(scene, Values(), CurrentScale(), lo, c);
    }

    /** Evict the first sample of a window [lo, lo + c). */
    method EvictFront(ghost lo: int, ghost c: int)
      requires Structure() && cache.lineConnectionDrawer != null
      modifies cache.pointDrawers, cache.labelXDrawers, container.pointAndLine, container.labelX, cache.lineConnectionDrawer
      ensures Structure() && cache.lineConnectionDrawer == old(cache.lineConnectionDrawer)
      ensures container.pointAndLine.position == old(container.pointAndLine.position)
      ensures container.labelX.position == old(container.labelX.position)
      requires Shows(CurrentScene(), Values(), CurrentScale(), lo, c) && c > 0
      ensures Shows(CurrentScene(), Values(), CurrentScale(), lo + 1, c - 1)
    {
      ghost var scene := CurrentScene();
      RunEnds(scene, Values(), CurrentScale(), lo, c);
      Evict(lo, true);
      ShowsPopFront(scene, Values(), CurrentScale(), lo, c);
      assert CurrentScene() == Evicted(scene, lo, scene.vertices.value[1..], true);
    }

    /** Evict the last sample of a window [lo, lo + c). */
    method EvictBack(ghost lo: int, ghost c: int)
      requires Structure() && cache.lineConnectionDrawer != null
      modifies cache.pointDrawers, cache.labelXDrawers, container.pointAndLine, container.labelX, cache.lineConnectionDrawer
      ensures Structure() && cache.lineConnectionDrawer == old(cache.lineConnectionDrawer)
      ensures container.pointAndLine.position == old(container.pointAndLine.position)
      ensures container.labelX.position == old(container.labelX.position)
      requires Shows(CurrentScene(), Values(), CurrentScale(), lo, c) && c > 0
      ensures Shows(CurrentScene(), Values(), CurrentScale(), lo, c - 1)
    {
      ghost var scene := CurrentScene();
      RunEnds(scene, Values(), CurrentScale(), lo, c);
      Evict(lo + c - 1, false);
      ShowsPopBack(scene, Values(), CurrentScale(), lo, c);
      assert CurrentScene() == Evicted(scene, lo + c - 1, scene.vertices.value[..c - 1], false);
    }

    /** The start-grows branch of UpdateDisplayRangeAndModifyElements: evict
        slot 0 for each sample left behind, while any remain. */
    method DropFromStart(newStartIndex: int)
      requires Structure() && series.Some? && cache.lineConnectionDrawer != null
      requires 0 <= startIndex < newStartIndex
      requires Shows(CurrentScene(), Values(), CurrentScale(), startIndex, ExpectedCount(startIndex, endIndex, |Values()|))
      modifies cache.pointDrawers, cache.labelXDrawers, container.pointAndLine, container.labelX, cache.lineConnectionDrawer
      ensures Structure() && cache.lineConnectionDrawer == old(cache.lineConnectionDrawer)
      ensures Shows(CurrentScene(), Values(), CurrentScale(), newStartIndex, ExpectedCount(newStartIndex, endIndex, |Values()|))
      ensures container.pointAndLine.position == old(container.pointAndLine.position)
      ensures container.labelX.position == old(container.labelX.position)
    {
      var line := cache.lineConnectionDrawer;
      var totalPointCount := |series.value|;
      var i := startIndex;
      ghost var cnt := ExpectedCount(startIndex, endIndex, totalPointCount);
      while i < newStartIndex && i < totalPointCount && |cache.pointDrawers.elements| > 0
        invariant Structure() && cache.lineConnectionDrawer == line
        invariant startIndex <= i <= newStartIndex
        invariant i + cnt == startIndex + ExpectedCount(startIndex, endIndex, totalPointCount)
        invariant Shows(CurrentScene(), Values(), CurrentScale(), i, cnt)
        invariant container.pointAndLine.position == old(container.pointAndLine.position)
        invariant container.labelX.position == old(container.labelX.position)
        decreases newStartIndex - i
      {
        EvictFront(i, cnt);
        i := i + 1;
        cnt := cnt - 1;
      }
      if cnt == 0 {
        ShowsEmptyAnywhere(CurrentScene(), Values(), CurrentScale(), i, newStartIndex);
        assert ExpectedCount(newStartIndex, endIndex, totalPointCount) == 0;
      } else {
        assert cnt == ExpectedCount(newStartIndex, endIndex, totalPointCount);
      }
    }

    /** The start-shrinks branch: generate samples min(startIndex - 1, n - 1)
        down to newStartIndex at slot 0. */
    method GrowAtStart(newStartIndex: int)
      requires Structure() && series.Some? && cache.lineConnectionDrawer != null
      requires WindowShape(startIndex, endIndex) && 0 <= newStartIndex < startIndex
      requires Shows(CurrentScene(), Values(), CurrentScale(), startIndex, ExpectedCount(startIndex, endIndex, |Values()|))
      modifies cache.pointDrawers, cache.labelXDrawers, container.pointAndLine, container.labelX, cache.lineConnectionDrawer
      ensures Structure() && cache.lineConnectionDrawer == old(cache.lineConnectionDrawer)
      ensures Shows(CurrentScene(), Values(), CurrentScale(), newStartIndex, ExpectedCount(newStartIndex, endIndex, |Values()|))
      ensures container.pointAndLine.position == old(container.pointAndLine.position)
      ensures container.labelX.position == old(container.labelX.position)
    {
      var totalPointCount := |series.value|;
      ghost var last := Hi(endIndex, totalPointCount);
      var startAddIndex := if startIndex - 1 >= totalPointCount then totalPointCount - 1 else startIndex - 1;
      ShowsReindex(CurrentScene(), Values(), CurrentScale(), startIndex, ExpectedCount(startIndex, endIndex, totalPointCount),
                   startAddIndex + 1, last - startAddIndex);
      ghost var lo, cnt := PrependDownTo(startAddIndex, newStartIndex, last);
      ghost var target := ExpectedCount(newStartIndex, endIndex, totalPointCount);
      assert (cnt == 0 && target == 0) || (lo == newStartIndex && cnt == target);
      ShowsReindex(CurrentScene(), Values(), CurrentScale(), lo, cnt, newStartIndex, target);
    }

    /** The loop of the start-shrinks branch: generate samples startAddIndex
        down to newStartIndex at slot 0, in front of the run
        [startAddIndex + 1, last]. It ends on the run [lo, last]. */
    method PrependDownTo(startAddIndex: int, newStartIndex: int, ghost last: int) returns (ghost lo: int, ghost cnt: int)
      requires Structure() && series.Some? && cache.lineConnectionDrawer != null
      requires -1 <= startAddIndex < |Values()| && startAddIndex <= last && 0 <= newStartIndex
      requires Shows(CurrentScene(), Values(), CurrentScale(), startAddIndex + 1, last - startAddIndex)
      modifies cache.pointDrawers, cache.labelXDrawers, container.pointAndLine, container.labelX, cache.lineConnectionDrawer
      ensures Structure() && cache.lineConnectionDrawer == old(cache.lineConnectionDrawer)
      ensures Shows(CurrentScene(), Values(), CurrentScale(), lo, cnt)
      ensures cnt == last + 1 - lo
      ensures lo == newStartIndex || (lo == startAddIndex + 1 && startAddIndex < newStartIndex)
      ensures container.pointAndLine.position == old(container.pointAndLine.position)
      ensures container.labelX.position == old(container.labelX.position)
    {
      var line := cache.lineConnectionDrawer;
      var totalPointCount := |series.value|;
      lo := startAddIndex + 1;
      cnt := last - startAddIndex;
      var i := startAddIndex;
      while i >= newStartIndex && i < totalPointCount
        invariant Structure() && cache.lineConnectionDrawer == line
        invariant i <= startAddIndex && (i >= newStartIndex - 1 || i == startAddIndex)
        invariant lo == i + 1 && cnt == last - i
        invariant Shows(CurrentScene(), Values(), CurrentScale(), lo, cnt)
        invariant container.pointAndLine.position == old(container.pointAndLine.position)
        invariant container.labelX.position == old(container.labelX.position)
        decreases i
      {
        AdmitFront(i, lo, cnt);
        i := i - 1;
        lo := lo - 1;
        cnt := cnt + 1;
      }
    }

    /** The end-grows branch: generate samples endIndex + 1 up to
        min(newEndIndex, n - 1) at the back. */
    method GrowAtEnd(newEndIndex: int)
      requires Structure() && series.Some? && cache.lineConnectionDrawer != null
      requires 0 <= startIndex <= endIndex + 1 && endIndex < newEndIndex
      requires Shows(CurrentScene(), Values(), CurrentScale(), startIndex, ExpectedCount(startIndex, endIndex, |Values()|))
      modifies cache.pointDrawers, cache.labelXDrawers, container.pointAndLine, container.labelX, cache.lineConnectionDrawer
      ensures Structure() && cache.lineConnectionDrawer == old(cache.lineConnectionDrawer)
      ensures Shows(CurrentScene(), Values(), CurrentScale(), startIndex, ExpectedCount(startIndex, newEndIndex, |Values()|))
      ensures container.pointAndLine.position == old(container.pointAndLine.position)
      ensures container.labelX.position == old(container.labelX.position)
    {
      var line := cache.lineConnectionDrawer;
      var totalPointCount := |series.value|;
      var i := endIndex + 1;
      ghost var cnt := ExpectedCount(startIndex, endIndex, totalPointCount);
      while i <= newEndIndex && i < totalPointCount && i >= startIndex
        invariant Structure() && cache.lineConnectionDrawer == line
        invariant endIndex + 1 <= i <= newEndIndex + 1 && i >= startIndex
        invariant cnt == ExpectedCount(startIndex, i - 1, totalPointCount)
        invariant Shows(CurrentScene(), Values(), CurrentScale(), startIndex, cnt)
        invariant container.pointAndLine.position == old(container.pointAndLine.position)
        invariant container.labelX.position == old(container.labelX.position)
        decreases newEndIndex - i
      {
        assert cnt == i - startIndex;
        AdmitBack(i, startIndex, cnt);
        i := i + 1;
        cnt := cnt + 1;
      }
      assert cnt == ExpectedCount(startIndex, newEndIndex, totalPointCount);
    }

    /** The end-shrinks branch: evict the last slot for each sample from
        min(endIndex, n - 1) down past newEndIndex. */
    method DropFromEnd(newEndIndex: int)
      requires Structure() && series.Some? && cache.lineConnectionDrawer != null
      requires 0 <= startIndex <= newEndIndex + 1 && newEndIndex < endIndex
      requires Shows(CurrentScene(), Values(), CurrentScale(), startIndex, ExpectedCount(startIndex, endIndex, |Values()|))
      modifies cache.pointDrawers, cache.labelXDrawers, container.pointAndLine, container.labelX, cache.lineConnectionDrawer
      ensures Structure() && cache.lineConnectionDrawer == old(cache.lineConnectionDrawer)
      ensures Shows(CurrentScene(), Values(), CurrentScale(), startIndex, ExpectedCount(startIndex, newEndIndex, |Values()|))
      ensures container.pointAndLine.position == old(container.pointAndLine.position)
      ensures container.labelX.position == old(container.labelX.position)
    {
      var line := cache.lineConnectionDrawer;
      var totalPointCount := |series.value|;
      var deleteFromIndex := if endIndex < totalPointCount then endIndex else totalPointCount - 1;
      var i := deleteFromIndex;
      ghost var cnt := ExpectedCount(startIndex, endIndex, totalPointCount);
      while i > newEndIndex && i - startIndex < |cache.pointDrawers.elements|
        invariant Structure() && cache.lineConnectionDrawer == line
        invariant i <= deleteFromIndex && (i >= newEndIndex || i == deleteFromIndex)
        invariant cnt == ExpectedCount(startIndex, i, totalPointCount)
        invariant Shows(CurrentScene(), Values(), CurrentScale(), startIndex, cnt)
        invariant container.pointAndLine.position == old(container.pointAndLine.position)
        invariant container.labelX.position == old(container.labelX.position)
        decreases i
      {
        EvictBack(startIndex, cnt);
        i := i - 1;
        cnt := cnt - 1;
      }
      assert cnt == ExpectedCount(startIndex, newEndIndex, totalPointCount);
    }

    /** The start half of UpdateDisplayRangeAndModifyElements. */
    method MoveStartIndex(newStartIndex: int)
      requires Structure() && series.Some? && cache.lineConnectionDrawer != null
      requires WindowShape(startIndex, endIndex) && 0 <= newStartIndex
      requires Shows(CurrentScene(), Values(), CurrentScale(), startIndex, ExpectedCount(startIndex, endIndex, |Values()|))
      modifies this`startIndex, cache.pointDrawers, cache.labelXDrawers, container.pointAndLine, container.labelX, cache.lineConnectionDrawer
      ensures startIndex == newStartIndex
      ensures Structure() && cache.lineConnectionDrawer == old(cache.lineConnectionDrawer)
      ensures Shows(CurrentScene(), Values(), CurrentScale(), newStartIndex, ExpectedCount(newStartIndex, endIndex, |Values()|))
      ensures container.pointAndLine.position == old(container.pointAndLine.position)
      ensures container.labelX.position == old(container.labelX.position)
    {
      if startIndex < newStartIndex {
        DropFromStart(newStartIndex);
      } else if startIndex > newStartIndex {
        GrowAtStart(newStartIndex);
      }
      startIndex := newStartIndex;
    }

    /** The end half of UpdateDisplayRangeAndModifyElements. */
    method MoveEndIndex(newEndIndex: int)
      requires Structure() && series.Some? && cache.lineConnectionDrawer != null
      requires 0 <= startIndex <= endIndex + 1 && startIndex <= newEndIndex + 1
      requires Shows(CurrentScene(), Values(), CurrentScale(), startIndex, ExpectedCount(startIndex, endIndex, |Values()|))
      modifies this`endIndex, cache.pointDrawers, cache.labelXDrawers, container.pointAndLine, container.labelX, cache.lineConnectionDrawer
      ensures endIndex == newEndIndex
      ensures Structure() && cache.lineConnectionDrawer == old(cache.lineConnectionDrawer)
      ensures Shows(CurrentScene(), Values(), CurrentScale(), startIndex, ExpectedCount(startIndex, newEndIndex, |Values()|))
      ensures container.pointAndLine.position == old(container.pointAndLine.position)
      ensures container.labelX.position == old(container.labelX.position)
    {
      if endIndex < newEndIndex {
        GrowAtEnd(newEndIndex);
      } else if endIndex > newEndIndex {
        DropFromEnd(newEndIndex);
      }
      endIndex := newEndIndex;
    }

    /** UpdateDisplayRangeAndModifyElements: move the window to
        [newStartIndex, newEndIndex] by evicting and generating proxies at the
        two ends of the caches. MoveGraph calls it exactly when it does not
        redraw. A missing series or polyline throws before anything changes. */
    method UpdateDisplayRangeAndModifyElements(newStartIndex: int, newEndIndex: int) returns (ok: bool)
      requires Valid()
      requires WindowShape(newStartIndex, newEndIndex)
      requires !(newStartIndex >= endIndex && newEndIndex > newStartIndex)
      modifies this`startIndex, this`endIndex, cache.pointDrawers, cache.labelXDrawers, container.pointAndLine, container.labelX, cache.lineConnectionDrawer
      ensures Valid()
      ensures ok <==> old(series).Some? && old(cache.lineConnectionDrawer) != null
      ensures ok ==> startIndex == newStartIndex && endIndex == newEndIndex
      ensures !ok ==> startIndex == old(startIndex) && endIndex == old(endIndex) && CurrentScene() == old(CurrentScene())
      ensures series == old(series) && yMax == old(yMax) && xPointDistance == old(xPointDistance)
      ensures left == old(left) && top == old(top)
      ensures cache.lineConnectionDrawer == old(cache.lineConnectionDrawer)
      ensures container.pointAndLine.position == old(container.pointAndLine.position)
      ensures container.labelX.position == old(container.labelX.position)
    {
      if series.None? || cache.lineConnectionDrawer == null {
        ok := false;
        return;
      }
      MoveStartIndex(newStartIndex);
      MoveEndIndex(newEndIndex);
      ok := true;
    }
    /** One pass of Setup's loop, and the in-window part of AddPointValue:
        generate the label, then the point, of sample i at the back. */
    method Append(i: int)
      requires Structure() && cache.lineConnectionDrawer != null
      requires ScaleOk(CurrentScale()) && 0 <= i < |Values()|
      modifies cache.pointDrawers, cache.labelXDrawers, container.pointAndLine, container.labelX, cache.lineConnectionDrawer
      ensures Structure() && cache.lineConnectionDrawer == old(cache.lineConnectionDrawer)
      ensures old(CurrentScene()).vertices.Some?
      ensures CurrentScene() == Admitted(old(CurrentScene()), Values(), CurrentScale(), i, true)
      ensures container.pointAndLine.position == old(container.pointAndLine.position)
      ensures container.labelX.position == old(container.labelX.position)
    {
      var isShouldAddToParent := IsShown(i, xPointDistance);
      var text := GenerateLabelX(i, isShouldAddToParent, true);
      GeneratePoint(i, cache.lineConnectionDrawer, isShouldAddToParent, true);
    }

    /** Append sample i = lo + c to a window [lo, lo + c). */
    method AppendBack(i: int, ghost lo: int, ghost c: int)
      requires Structure() && cache.lineConnectionDrawer != null
      modifies cache.pointDrawers, cache.labelXDrawers, container.pointAndLine, container.labelX, cache.lineConnectionDrawer
      ensures Structure() && cache.lineConnectionDrawer == old(cache.lineConnectionDrawer)
      ensures container.pointAndLine.position == old(container.pointAndLine.position)
      ensures container.labelX.position == old(container.labelX.position)
      requires Shows(CurrentScene(), Values(), CurrentScale(), lo, c) && i == lo + c && i < |Values()|
      ensures Shows(CurrentScene(), Values(), CurrentScale(), lo, c + 1)
    {
      ghost var scene := CurrentScene();
      Append(i);
      ShowsPushBack(scene, Values(), CurrentScale(), lo, c);
    }

    /** SetupPointNConnectionNLabelX: a fresh polyline goes on the point
        canvas, then the label and the point of every in-window sample that
        exists are generated in ascending order. Its callers hand it emptied
        caches and canvases. */
    method Setup()
      requires Structure() && series.Some? && ScaleOk(CurrentScale()) && WindowShape(startIndex, endIndex)
      requires cache.pointDrawers.elements == [] && cache.labelXDrawers.elements == []
      requires container.pointAndLine.children == {} && container.labelX.children == {}
      modifies cache`lineConnectionDrawer, cache.pointDrawers, cache.labelXDrawers, container.pointAndLine, container.labelX
      ensures Valid()
      ensures fresh(cache.lineConnectionDrawer)
      ensures container.pointAndLine.position == old(container.pointAndLine.position)
      ensures container.labelX.position == LabelXCanvasPosition(left)
    {
      var graphPolyLineDrawer := new PolyLine(lineCanvasHeight);
      cache.lineConnectionDrawer := graphPolyLineDrawer;
      container.labelX.SetCanvasPosition(LabelXCanvasPosition(left));
      var added := container.pointAndLine.AddChild(PolyLineChild);
      if added {
        GenerateWindow();
      }
    }

    /** The loop of Setup: label and point of every in-window sample that
        exists, in ascending order, after an empty run. */
    method GenerateWindow()
      requires Structure() && series.Some? && cache.lineConnectionDrawer != null && WindowShape(startIndex, endIndex)
      requires Shows(CurrentScene(), Values(), CurrentScale(), startIndex, 0)
      modifies cache.pointDrawers, cache.labelXDrawers, container.pointAndLine, container.labelX, cache.lineConnectionDrawer
      ensures Structure() && cache.lineConnectionDrawer == old(cache.lineConnectionDrawer)
      ensures Shows(CurrentScene(), Values(), CurrentScale(), startIndex, ExpectedCount(startIndex, endIndex, |Values()|))
      ensures container.pointAndLine.position == old(container.pointAndLine.position)
      ensures container.labelX.position == old(container.labelX.position)
    {
      var line := cache.lineConnectionDrawer;
      var i := startIndex;
      ghost var cnt := 0;
      while i < |series.value| && i <= endIndex
        invariant Structure() && cache.lineConnectionDrawer == line
        invariant startIndex <= i <= endIndex + 1 && (i <= |Values()| || i == startIndex)
        invariant cnt == i - startIndex
        invariant Shows(CurrentScene(), Values(), CurrentScale(), startIndex, cnt)
        invariant container.pointAndLine.position == old(container.pointAndLine.position)
        invariant container.labelX.position == old(container.labelX.position)
        decreases endIndex - i
      {
        AppendBack(i, startIndex, cnt);
        i := i + 1;
        cnt := cnt + 1;
      }
      assert cnt == ExpectedCount(startIndex, endIndex, |Values()|);
    }

    /** UpdateDisplayRangeByRedraw: recompute the window from the pan, empty
        both caches and both canvases, and set everything up again. Without a
        series it stops after the clearing. */
    method UpdateDisplayRangeByRedraw()
      requires Structure() && ScaleOk(CurrentScale())
      modifies this`startIndex, this`endIndex, cache`lineConnectionDrawer, cache.pointDrawers, cache.labelXDrawers, container.pointAndLine, container.labelX
      ensures Valid()
      ensures startIndex == StartPointIndex(left, xPointDistance)
      ensures endIndex == EndPointIndex(left, xPointDistance, container.graphWidth)
      ensures series.Some? ==> fresh(cache.lineConnectionDrawer)
      ensures series.None? ==> cache.lineConnectionDrawer == null
      ensures container.pointAndLine.position == old(container.pointAndLine.position)
      ensures container.labelX.position == if series.Some? then LabelXCanvasPosition(left) else old(container.labelX.position)
    {
      startIndex := StartPointIndex(left, xPointDistance);
      endIndex := EndPointIndex(left, xPointDistance, container.graphWidth);
      WindowShapeOfIndices(left, xPointDistance, container.graphWidth);
      cache.pointDrawers.ClearCache();
      cache.labelXDrawers.ClearCache();
      var cleared := container.labelX.ClearReturningRemoved();
      cleared := container.pointAndLine.ClearReturningRemoved();
      if series.None? {
        return;
      }
      Setup();
    }

    /** ShowGraph: take the new series, recompute the window, clear the
        container and the caches, place the point canvas, and set up. */
    method ShowGraph(valueList: seq<PointValue>)
      requires Structure() && ScaleOk(CurrentScale())
      modifies this`series, this`startIndex, this`endIndex, cache, cache.pointDrawers, cache.labelXDrawers, cache.labelYDrawers
      modifies container.pointAndLine, container.labelX, container.labelY, container.axis, container.gridDash
      ensures series == Some(valueList)
      ensures Valid()
      ensures startIndex == StartPointIndex(left, xPointDistance)
      ensures endIndex == EndPointIndex(left, xPointDistance, container.graphWidth)
      ensures fresh(cache.lineConnectionDrawer)
      ensures container.pointAndLine.position == PointCanvasPosition(left, top)
      ensures container.labelX.position == LabelXCanvasPosition(left)
    {
      startIndex := StartPointIndex(left, xPointDistance);
      endIndex := EndPointIndex(left, xPointDistance, container.graphWidth);
      WindowShapeOfIndices(left, xPointDistance, container.graphWidth);
      series := Some(valueList);
      container.Clear();
      cache.Clear();
      container.pointAndLine.SetCanvasPosition(PointCanvasPosition(left, top));
      Setup();
    }

    /** MoveGraph: pan by (offsetLeft, offsetTop), move both canvases, then
        redraw when the new window starts at or past the old end and is
        non-trivial, and reconcile the caches otherwise. The reconciling path
        throws (ok false) on a series without a polyline, after the pan. */
    method MoveGraph(offsetLeft: int, offsetTop: int) returns (ok: bool)
      requires Valid()
      modifies this`left, this`top, this`startIndex, this`endIndex, cache`lineConnectionDrawer
      modifies cache.pointDrawers, cache.labelXDrawers, container.pointAndLine, container.labelX, cache.lineConnectionDrawer
      ensures left == old(left) + offsetLeft && top == old(top) + offsetTop
      ensures container.pointAndLine.position == PointCanvasPosition(left, top)
      ensures container.labelX.position == LabelXCanvasPosition(left)
      ensures Valid()
      ensures var s, e := StartPointIndex(left, xPointDistance), EndPointIndex(left, xPointDistance, container.graphWidth);
        (ok <==> (s >= old(endIndex) && e > s) || (series.Some? && old(cache.lineConnectionDrawer) != null)) &&
        (ok ==> startIndex == s && endIndex == e) &&
        (!ok ==> startIndex == old(startIndex) && endIndex == old(endIndex) && CurrentScene() == old(CurrentScene()))
    {
      left := left + offsetLeft;
      top := top + offsetTop;
      container.pointAndLine.SetCanvasPosition(PointCanvasPosition(left, top));
      container.labelX.SetCanvasPosition(LabelXCanvasPosition(left));
      var newStartIndex := StartPointIndex(left, xPointDistance);
      var newEndIndex := EndPointIndex(left, xPointDistance, container.graphWidth);
      if newStartIndex >= endIndex && newEndIndex > newStartIndex {
        UpdateDisplayRangeByRedraw();
        ok := true;
      } else {
        WindowShapeOfIndices(left, xPointDistance, container.graphWidth);
        ok := UpdateDisplayRangeAndModifyElements(newStartIndex, newEndIndex);
      }
    }
    /** AddPointValue: append the sample to the series, creating the series
        when there is none. When its index lies in the window, generate its
        label, a polyline if there is none yet, and its point at the back, and
        return the index; otherwise return -1. */
    method AddPointValue(newValue: PointValue) returns (index: int)
      requires Valid()
      modifies this`series, cache`lineConnectionDrawer, cache.pointDrawers, cache.labelXDrawers
      modifies container.pointAndLine, container.labelX, cache.lineConnectionDrawer
      ensures series == Some(old(Values()) + [newValue])
      ensures Valid()
      ensures index == if startIndex <= |old(Values())| <= endIndex then |old(Values())| else -1
      ensures index >= 0 ==> cache.pointDrawers.elements == old(cache.pointDrawers.elements) + [PointChild(index)]
      ensures index >= 0 ==> cache.labelXDrawers.elements == old(cache.labelXDrawers.elements) + [LabelXChild(index)]
      ensures index < 0 ==> CurrentScene() == old(CurrentScene())
      ensures container.pointAndLine.position == old(container.pointAndLine.position)
      ensures container.labelX.position == old(container.labelX.position)
    {
      ghost var c := ExpectedCount(startIndex, endIndex, |Values()|);
      ShowsAppendValue(CurrentScene(), Values(), newValue, CurrentScale(), startIndex, c);
      series := Some(Values() + [newValue]);
      index := |series.value| - 1;
      if index > endIndex || index < startIndex {
        index := -1;
        return;
      }
      AddInWindow(index, c);
    }

    /** The in-window part of AddPointValue, on the run [startIndex, index). */
    method AddInWindow(index: int, ghost c: int)
      requires Structure() && series.Some? && index == startIndex + c && index < |Values()|
      requires Shows(CurrentScene(), Values(), CurrentScale(), startIndex, c)
      modifies cache`lineConnectionDrawer, cache.pointDrawers, cache.labelXDrawers
      modifies container.pointAndLine, container.labelX, cache.lineConnectionDrawer
      ensures Structure()
      ensures Shows(CurrentScene(), Values(), CurrentScale(), startIndex, c + 1)
      ensures cache.pointDrawers.elements == old(cache.pointDrawers.elements) + [PointChild(index)]
      ensures cache.labelXDrawers.elements == old(cache.labelXDrawers.elements) + [LabelXChild(index)]
      ensures container.pointAndLine.position == old(container.pointAndLine.position)
      ensures container.labelX.position == old(container.labelX.position)
    {
      ghost var scene, vals, sc := CurrentScene(), Values(), CurrentScale();
      AddLabelLinePoint(index);
      ShowsPushBackWithLineTo(scene, CurrentScene(), vals, sc, startIndex, c);
    }

    /** The edits of AddPointValue's in-window path: the label, a polyline if
        there is none yet, then the point, all at the back. */
    method AddLabelLinePoint(index: int)
      requires Structure() && series.Some? && ScaleOk(CurrentScale()) && 0 <= index < |Values()|
      modifies cache`lineConnectionDrawer, cache.pointDrawers, cache.labelXDrawers
      modifies container.pointAndLine, container.labelX, cache.lineConnectionDrawer
      ensures Structure() && cache.lineConnectionDrawer != null
      ensures CurrentScene() == Admitted(WithLine(old(CurrentScene())), Values(), CurrentScale(), index, true)
      ensures cache.pointDrawers.elements == old(cache.pointDrawers.elements) + [PointChild(index)]
      ensures cache.labelXDrawers.elements == old(cache.labelXDrawers.elements) + [LabelXChild(index)]
      ensures container.pointAndLine.position == old(container.pointAndLine.position)
      ensures container.labelX.position == old(container.labelX.position)
    {
      var isShouldAddToParent := IsShown(index, xPointDistance);
      var text := GenerateLabelX(index, isShouldAddToParent, true);
      if cache.lineConnectionDrawer == null {
        var graphPolyLineDrawer := new PolyLine(lineCanvasHeight);
        cache.lineConnectionDrawer := graphPolyLineDrawer;
      }
      GeneratePoint(index, cache.lineConnectionDrawer, isShouldAddToParent, true);
    }

    /** RearrangePointAndConnection: in ascending order, move each cached
        point from its position at the previous yMax to its position at the
        current one, overwriting its polyline vertex by value. Without a
        series it throws before anything changes. */
    method RearrangePointAndConnection(previousYMax: real) returns (ok: bool)
      requires Structure() && WindowShape(startIndex, endIndex) && ScaleOk(CurrentScale()) && previousYMax != 0.0
      requires Shows(CurrentScene(), Values(), CurrentScale().(yMax := previousYMax), startIndex,
                     ExpectedCount(startIndex, endIndex, |Values()|))
      modifies cache.lineConnectionDrawer
      ensures ok <==> series.Some?
      ensures Valid()
      ensures !ok ==> CurrentScene() == old(CurrentScene())
    {
      if series.None? {
        ok := false;
        return;
      }
      ghost var scene := CurrentScene();
      ghost var c := ExpectedCount(startIndex, endIndex, |Values()|);
      var previousScale := CurrentScale().(yMax := previousYMax);
      var line := cache.lineConnectionDrawer;
      var i := startIndex;
      while i <= endIndex && i < |series.value| && i - startIndex < |cache.pointDrawers.elements|
        invariant startIndex <= i <= startIndex + c
        invariant CurrentScene() == scene.(vertices := if line == null then None else Some(line.points))
        invariant line != null ==> MixedRun(line.points, Values(), previousScale, yMax, startIndex, c, i - startIndex)
        decreases endIndex - i
      {
        RescaleVertex(line, Values(), cache.pointDrawers.elements[i - startIndex], previousScale, yMax, startIndex, c, i - startIndex);
        i := i + 1;
      }
      assert i - startIndex == c;
      if line != null {
        ShowsRescaled(scene, Values(), previousScale, yMax, line.points, startIndex, c);
      }
      ok := true;
    }

    /** ChangeYMax: on a new yMax, rescale the drawn points and vertices.
        Without a series the rescale throws, after yMax was set. */
    method ChangeYMax(newYMax: real) returns (ok: bool)
      requires Valid() && newYMax != 0.0
      modifies this`yMax, cache.lineConnectionDrawer
      ensures yMax == newYMax
      ensures Valid()
      ensures ok <==> old(yMax) == newYMax || series.Some?
      ensures old(yMax) == newYMax ==> CurrentScene() == old(CurrentScene())
    {
      if yMax != newYMax {
        var previousYMax := yMax;
        yMax := newYMax;
        ok := RearrangePointAndConnection(previousYMax);
      } else {
        ok := true;
      }
    }

    /** ChangeXDistance: clamp the spacing to at least 1; on a series and a
        changed spacing, take it and redraw. */
    method ChangeXDistance(distance: int)
      requires Valid()
      modifies this`xPointDistance, this`startIndex, this`endIndex, cache`lineConnectionDrawer
      modifies cache.pointDrawers, cache.labelXDrawers, container.pointAndLine, container.labelX
      ensures Valid()
      ensures var newDistance := if distance < 1 then 1 else distance;
        if series.Some? && old(xPointDistance) != newDistance then
          xPointDistance == newDistance && fresh(cache.lineConnectionDrawer) &&
          startIndex == StartPointIndex(left, xPointDistance) &&
          endIndex == EndPointIndex(left, xPointDistance, container.graphWidth) &&
          container.labelX.position == LabelXCanvasPosition(left)
        else
          xPointDistance == old(xPointDistance) && startIndex == old(startIndex) && endIndex == old(endIndex) &&
          cache.lineConnectionDrawer == old(cache.lineConnectionDrawer) && CurrentScene() == old(CurrentScene())
      ensures container.pointAndLine.position == old(container.pointAndLine.position)
      ensures !(series.Some? && old(xPointDistance) != (if distance < 1 then 1 else distance)) ==>
        container.labelX.position == old(container.labelX.position)
    {
      var newDistance := if distance < 1 then 1 else distance;
      if series.Some? && xPointDistance != newDistance {
        xPointDistance := newDistance;
        UpdateDisplayRangeByRedraw();
      }
    }

    /** ChangeZoomX: change the spacing by `offset` (at least 1). When the
        mouse lies over the drawn line, pan afterwards so that the sample
        under the mouse keeps its screen x. GetPointIndexViaMousePos is not
        part of this model: its answer is the parameter pointIndexAtMouse. */
    method ChangeZoomX(offset: int, mouseX: real, pointIndexAtMouse: int)
      requires Valid()
      modifies this`xPointDistance, this`startIndex, this`endIndex, this`left, this`top, cache`lineConnectionDrawer
      modifies cache.pointDrawers, cache.labelXDrawers, container.pointAndLine, container.labelX
      ensures Valid()
      ensures var newDistance := if old(xPointDistance) + offset < 1 then 1 else old(xPointDistance) + offset;
        xPointDistance == if series.Some? && old(xPointDistance) != newDistance then newDistance else old(xPointDistance)
      ensures series.Some? && (GraphPosX(old(left)) as real) <= mouseX <= (ScreenX(old(left), old(xPointDistance), |Values()| - 1) as real) ==>
        ScreenX(left, xPointDistance, pointIndexAtMouse) == ScreenX(old(left), old(xPointDistance), pointIndexAtMouse)
      ensures top == old(top)
    {
      var temp := xPointDistance + offset;
      var newDistance := if temp < 1 then 1 else temp;
      if series.Some? && xPointDistance != newDistance {
        var startVisibilityRange := GraphPosX(left);
        var endVisibilityRange := (|series.value| - 1) * xPointDistance + startVisibilityRange;
        var isIntersectWithGraphLine := startVisibilityRange as real <= mouseX <= endVisibilityRange as real;
        if isIntersectWithGraphLine {
          ZoomAroundPoint(newDistance, pointIndexAtMouse);
        } else {
          ChangeXDistance(newDistance);
        }
      }
    }

    /** ChangeZoomX's path with the mouse over the line: redraw at the new
        spacing, then pan by the distance the sample under the mouse moved,
        so that it returns to its screen x. */
    method ZoomAroundPoint(newDistance: int, pointIndex: int)
      requires Valid() && series.Some? && newDistance >= 1 && xPointDistance != newDistance
      modifies this`xPointDistance, this`startIndex, this`endIndex, this`left, this`top, cache`lineConnectionDrawer
      modifies cache.pointDrawers, cache.labelXDrawers, container.pointAndLine, container.labelX
      ensures Valid() && xPointDistance == newDistance && top == old(top)
      ensures ScreenX(left, xPointDistance, pointIndex) == ScreenX(old(left), old(xPointDistance), pointIndex)
    {
      var oldPos := pointIndex * xPointDistance;
      ChangeXDistance(newDistance);
      var newPos := pointIndex * xPointDistance;
      var pointMovedOffset := newPos - oldPos;
      var ok := MoveGraph(-pointMovedOffset, 0);
      assert ok;
    }
  }
}
