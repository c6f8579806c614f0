/** GraphHolder, the base engine: it draws every sample of the series, keeps
    its proxies in plain lists, and rebuilds everything from scratch whenever
    the series or the scale changes. Points and X labels are drawn at the
    back only, so the lists always hold samples 0, 1, ... in order. */
module BaseGraph {
  import opened Geometry
  import opened Canvas
  import opened PolyLine
  import opened Sync

  /** The first c samples of `vals` are drawn: both proxy lists hold them in
      ascending order, the polyline holds their vertices, and every one of
      their proxies is on the host. */
  ghost predicate DrawsPrefix(scene: Scene, vals: seq<PointValue>, sc: Scale, c: int)
  {
    ScaleOk(sc) && 0 <= c <= |vals| &&
    PointRun(scene.points, 0, c) && LabelRun(scene.labels, 0, c) &&
    (c > 0 ==> scene.vertices.Some?) &&
    (scene.vertices.Some? ==> VertexRun(scene.vertices.value, vals, sc, 0, c)) &&
    (forall i :: PointChild(i) in scene.pointCanvas <==> 0 <= i < c) &&
    (forall ch :: ch in scene.pointCanvas ==> !ch.LabelXChild?) &&
    (forall i :: LabelXChild(i) in scene.labelCanvas <==> 0 <= i < c) &&
    (forall ch :: ch in scene.labelCanvas ==> ch.LabelXChild?)
  }

  /** The scene after drawing sample i at the back: both proxies are listed
      and on the host, and its vertex ends the (possibly new) polyline. */
  function Drawn(scene: Scene, vals: seq<PointValue>, sc: Scale, i: int): Scene
    requires ScaleOk(sc) && 0 <= i < |vals|
  {
    Scene(scene.points + [PointChild(i)], scene.labels + [LabelXChild(i)],
          Some(WithLine(scene).vertices.value + [Vertex(vals, i, sc)]),
          scene.pointCanvas + {PointChild(i)}, scene.labelCanvas + {LabelXChild(i)})
  }

  /** Drawing the next sample extends the drawn prefix by one. */
  lemma DrawsNext(scene: Scene, vals: seq<PointValue>, sc: Scale, c: int)
    requires DrawsPrefix(scene, vals, sc, c) && c < |vals|
    ensures DrawsPrefix(Drawn(scene, vals, sc, c), vals, sc, c + 1)
  {
    var after := Drawn(scene, vals, sc, c);
    assert after.points == scene.points + [PointChild(c)];
    assert after.labels == scene.labels + [LabelXChild(c)];
    assert after.vertices.value == WithLine(scene).vertices.value + [Vertex(vals, c, sc)];
  }

  /** DrawsNext, stated for a named successor scene. */
  lemma DrawsNextTo(scene: Scene, after: Scene, vals: seq<PointValue>, sc: Scale, c: int)
    requires DrawsPrefix(scene, vals, sc, c) && c < |vals|
    requires after == Drawn(scene, vals, sc, c)
    ensures DrawsPrefix(after, vals, sc, c + 1)
  {
    DrawsNext(scene, vals, sc, c);
  }

  /** Appending a sample to the series leaves what is drawn as it was. */
  lemma DrawsAppendValue(scene: Scene, vals: seq<PointValue>, v: PointValue, sc: Scale, c: int)
    requires DrawsPrefix(scene, vals, sc, c)
    ensures DrawsPrefix(scene, vals + [v], sc, c)
  {
    if scene.vertices.Some? {
      forall k | 0 <= k < c
        ensures scene.vertices.value[k] == Vertex(vals + [v], k, sc)
      {
        assert (vals + [v])[k] == vals[k];
      }
    }
  }

  /** A drawn prefix has as many point proxies as label proxies as vertices,
      and the proxy of every drawn sample is on the host. */
  lemma DrawsPrefixCounts(scene: Scene, vals: seq<PointValue>, sc: Scale, c: int, i: int)
    requires DrawsPrefix(scene, vals, sc, c) && scene.vertices.Some?
    ensures |scene.points| == |scene.labels| == |scene.vertices.value| == c
    ensures 0 <= i < c ==> scene.points[i] in scene.pointCanvas && scene.labels[i] in scene.labelCanvas
  {
  }

  /** GraphHolder.GraphElementCache: the polyline and the proxy lists. The Y
      labels are not part of this model. */
  class GraphElementCache {
    var lineConnectionDrawer: PolyLine?
    var pointDrawers: seq<Child>
    var labelXDrawers: seq<Child>

    constructor()
      ensures lineConnectionDrawer == null && pointDrawers == [] && labelXDrawers == []
    {
      lineConnectionDrawer := null;
      pointDrawers := [];
      labelXDrawers := [];
    }

    method Clear()
      modifies this
      ensures lineConnectionDrawer == null && pointDrawers == [] && labelXDrawers == []
    {
      lineConnectionDrawer := null;
      pointDrawers := [];
      labelXDrawers := [];
    }
  }

  class GraphHolder {
    const container: GraphContainer
    const cache: GraphElementCache
    /** Height of the canvas the polyline flips its vertices against. */
    const lineCanvasHeight: real
    /** mCurrentShowingValueList; None until the first ShowGraph or AddPointValue. */
    var series: Option<seq<PointValue>>
    var yMax: real
    var xPointDistance: int
    /** mPointCanvasHolderLeft / mPointCanvasHolderTop: the cumulative pan. */
    var left: int
    var top: int

    function Values(): seq<PointValue>
      reads this
    {
      if series.Some? then series.value else []
    }

    function CurrentScale(): Scale
      reads this
    {
      Scale(xPointDistance, yMax, container.graphHeight, lineCanvasHeight)
    }

    ghost function CurrentScene(): Scene
      reads cache, container.pointAndLine, container.labelX, cache.lineConnectionDrawer
    {
      Scene(cache.pointDrawers, cache.labelXDrawers,
            if cache.lineConnectionDrawer == null then None else Some(cache.lineConnectionDrawer.points),
            container.pointAndLine.children, container.labelX.children)
    }

    /** Every sample of the series is drawn, at the current scale. */
    ghost predicate Valid()
      reads this, cache, cache.lineConnectionDrawer, container.pointAndLine, container.labelX
    {
      container.Distinct() &&
      (cache.lineConnectionDrawer != null ==> cache.lineConnectionDrawer.canvasHeight == lineCanvasHeight) &&
      DrawsPrefix(CurrentScene(), Values(), CurrentScale(), |Values()|)
    }

    constructor(container: GraphContainer, lineCanvasHeight: real)
      requires container.Distinct()
      requires container.pointAndLine.children == {} && container.labelX.children == {}
      ensures this.container == container && this.lineCanvasHeight == lineCanvasHeight
      ensures series == None && yMax == 100.0 && xPointDistance == XPointDistanceDef
      ensures left == 0 && top == 0
      ensures fresh(cache)
      ensures Valid()
    {
      this.container := container;
      this.lineCanvasHeight := lineCanvasHeight;
      cache := new GraphElementCache();
      series := None;
      yMax := 100.0;
      xPointDistance := XPointDistanceDef;
      left := 0;
      top := 0;
    }

    /** MoveGraph: accumulates the pan and moves the point canvas and the
        X-label canvas; nothing drawn inside them changes. */
    method MoveGraph(offsetLeft: int, offsetTop: int)
      requires container.Distinct()
      modifies this`left, this`top, container.pointAndLine, container.labelX
      ensures left == old(left) + offsetLeft && top == old(top) + offsetTop
      ensures container.pointAndLine.position == PointCanvasPosition(left, top)
      ensures container.labelX.position == LabelXCanvasPosition(left)
      ensures CurrentScene() == old(CurrentScene())
      ensures old(Valid()) ==> Valid()
    {
      left := left + offsetLeft;
      top := top + offsetTop;
      container.pointAndLine.SetCanvasPosition(PointCanvasPosition(left, top));
      container.labelX.SetCanvasPosition(LabelXCanvasPosition(left));
    }

    /** GenerateLabelX: the label proxy of sample `pointIndex` is listed, at
        the requested end, only if the host accepts it. Returns its text. */
    method GenerateLabelX(pointValue: PointValue, pointIndex: int, toLast: bool) returns (text: LabelText, added: bool)
      modifies cache`labelXDrawers, container.labelX
      ensures added <==> LabelXChild(pointIndex) !in old(container.labelX.children)
      ensures container.labelX.children == old(container.labelX.children) + {LabelXChild(pointIndex)}
      ensures cache.labelXDrawers ==
        if !added then old(cache.labelXDrawers)
        else if toLast then old(cache.labelXDrawers) + [LabelXChild(pointIndex)]
        else [LabelXChild(pointIndex)] + old(cache.labelXDrawers)
      ensures text == LabelTextOf(pointValue, pointIndex)
      ensures container.labelX.position == old(container.labelX.position)
    {
      var labelX := LabelXChild(pointIndex);
      text := LabelTextOf(pointValue, pointIndex);
      added := container.labelX.AddChild(labelX);
      if added {
        if toLast {
          cache.labelXDrawers := cache.labelXDrawers + [labelX];
        } else {
          cache.labelXDrawers := [labelX] + cache.labelXDrawers;
        }
      }
    }

    /** GeneratePoint: the point proxy of sample `pointIndex` is listed, and
        its pixel added to the polyline, at the requested end, only if the
        host accepts it. */
    method GeneratePoint(graphPointValue: PointValue, pointIndex: int, graphPolyLineDrawer: PolyLine, toLast: bool)
      returns (added: bool)
      requires yMax != 0.0
      modifies cache`pointDrawers, container.pointAndLine, graphPolyLineDrawer
      ensures added <==> PointChild(pointIndex) !in old(container.pointAndLine.children)
      ensures container.pointAndLine.children == old(container.pointAndLine.children) + {PointChild(pointIndex)}
      ensures cache.pointDrawers ==
        if !added then old(cache.pointDrawers)
        else if toLast then old(cache.pointDrawers) + [PointChild(pointIndex)]
        else [PointChild(pointIndex)] + old(cache.pointDrawers)
      ensures var vertex := ReversePos(Vec(XPosForPoint(pointIndex, xPointDistance),
                                           YPosForValue(graphPointValue.yValue, yMax, container.graphHeight)),
                                       graphPolyLineDrawer.canvasHeight);
        graphPolyLineDrawer.points ==
          if !added then old(graphPolyLineDrawer.points)
          else if toLast then old(graphPolyLineDrawer.points) + [vertex]
          else [vertex] + old(graphPolyLineDrawer.points)
      ensures container.pointAndLine.position == old(container.pointAndLine.position)
    {
      var xPos := XPosForPoint(pointIndex, xPointDistance);
      var yPos := YPosForValue(graphPointValue.yValue, yMax, container.graphHeight);
      var point := PointChild(pointIndex);
      added := container.pointAndLine.AddChild(point);
      if added {
        if toLast {
          cache.pointDrawers := cache.pointDrawers + [point];
        } else {
          cache.pointDrawers := [point] + cache.pointDrawers;
        }
        var slot := graphPolyLineDrawer.AddNewPoint(Vec(xPos, yPos), toLast);
      }
    }

    /** One pass of the build loop: the X label, then the point, of sample i,
        both at the back. */
    method DrawSample(i: int)
      requires container.Distinct() && cache.lineConnectionDrawer != null
      requires cache.lineConnectionDrawer.canvasHeight == lineCanvasHeight
      requires ScaleOk(CurrentScale()) && 0 <= i < |Values()|
      requires PointChild(i) !in container.pointAndLine.children && LabelXChild(i) !in container.labelX.children
      modifies cache`pointDrawers, cache`labelXDrawers, container.pointAndLine, container.labelX, cache.lineConnectionDrawer
      ensures CurrentScene() == Drawn(old(CurrentScene()), Values(), CurrentScale(), i)
      ensures container.pointAndLine.position == old(container.pointAndLine.position)
      ensures container.labelX.position == old(container.labelX.position)
    {
      var text, addedLabel := GenerateLabelX(Values()[i], i, true);
      var added := GeneratePoint(Values()[i], i, cache.lineConnectionDrawer, true);
    }

    /** The build loop of SetupPointNConnectionNLabelX: samples 0 .. n - 1 in
        ascending order. */
    method DrawSeries(line: PolyLine)
      requires container.Distinct() && cache.lineConnectionDrawer == line && line.canvasHeight == lineCanvasHeight
      requires DrawsPrefix(CurrentScene(), Values(), CurrentScale(), 0)
      modifies cache`pointDrawers, cache`labelXDrawers, container.pointAndLine, container.labelX, line
      ensures DrawsPrefix(CurrentScene(), Values(), CurrentScale(), |Values()|)
      ensures (PolyLineChild in container.pointAndLine.children <==> PolyLineChild in old(container.pointAndLine.children))
      ensures container.pointAndLine.position == old(container.pointAndLine.position)
      ensures container.labelX.position == old(container.labelX.position)
    {
      var i := 0;
      while i < |Values()|
        invariant 0 <= i <= |Values()|
        invariant DrawsPrefix(CurrentScene(), Values(), CurrentScale(), i)
        invariant (PolyLineChild in container.pointAndLine.children <==> PolyLineChild in old(container.pointAndLine.children))
        invariant container.pointAndLine.position == old(container.pointAndLine.position)
        invariant container.labelX.position == old(container.labelX.position)
      {
        ghost var scene := CurrentScene();
        DrawSample(i);
        DrawsNextTo(scene, CurrentScene(), Values(), CurrentScale(), i);
        i := i + 1;
      }
    }

    /** SetupPointNConnectionNLabelX: a fresh polyline goes on the point
        canvas, and only if the host accepts it is every sample drawn. */
    method SetupPointNConnectionNLabelX()
      requires container.Distinct() && ScaleOk(CurrentScale())
      requires cache.pointDrawers == [] && cache.labelXDrawers == []
      requires container.pointAndLine.children == {} && container.labelX.children == {}
      modifies cache, container.pointAndLine, container.labelX
      ensures Valid()
      ensures cache.lineConnectionDrawer != null && fresh(cache.lineConnectionDrawer)
      ensures PolyLineChild in container.pointAndLine.children
      ensures container.pointAndLine.position == old(container.pointAndLine.position)
      ensures container.labelX.position == LabelXCanvasPosition(left)
    {
      var graphPolyLineDrawer := new PolyLine(lineCanvasHeight);
      cache.lineConnectionDrawer := graphPolyLineDrawer;
      container.labelX.SetCanvasPosition(LabelXCanvasPosition(left));
      var added := container.pointAndLine.AddChild(PolyLineChild);
      if added {
        DrawSeries(graphPolyLineDrawer);
      }
    }

    /** ShowGraph: the series is replaced, the container and the cache are
        cleared, and the whole series is drawn again. */
    method ShowGraph(valueList: seq<PointValue>)
      requires container.Distinct() && ScaleOk(CurrentScale())
      modifies this`series, cache, container.pointAndLine, container.labelX, container.labelY, container.axis, container.gridDash
      ensures series == Some(valueList)
      ensures Valid()
      ensures cache.lineConnectionDrawer != null && fresh(cache.lineConnectionDrawer)
      ensures PolyLineChild in container.pointAndLine.children
      ensures container.pointAndLine.position == PointCanvasPosition(left, top)
      ensures container.labelX.position == LabelXCanvasPosition(left)
    {
      series := Some(valueList);
      container.Clear();
      cache.Clear();
      container.pointAndLine.SetCanvasPosition(PointCanvasPosition(left, top));
      SetupPointNConnectionNLabelX();
    }

    /** AddPointValue: the series grows by one and the new sample is drawn at
        the back, in the slot numbered by the point-list count from before. A
        polyline created here is not put on the host. */
    method AddPointValue(newValue: PointValue) returns (index: int)
      requires Valid()
      modifies this`series, cache, container.pointAndLine, container.labelX, cache.lineConnectionDrawer
      ensures series == Some(old(Values()) + [newValue])
      ensures index == |old(cache.pointDrawers)| == |old(Values())|
      ensures CurrentScene() == Drawn(old(CurrentScene()), Values(), CurrentScale(), index)
      ensures old(cache.lineConnectionDrawer) != null ==> cache.lineConnectionDrawer == old(cache.lineConnectionDrawer)
      ensures old(cache.lineConnectionDrawer) == null ==> fresh(cache.lineConnectionDrawer)
      ensures PolyLineChild in container.pointAndLine.children <==> PolyLineChild in old(container.pointAndLine.children)
      ensures Valid()
    {
      ghost var scene := CurrentScene();
      DrawsAppendValue(scene, Values(), newValue, CurrentScale(), |Values()|);
      series := Some(Values() + [newValue]);
      index := |cache.pointDrawers|;
      var text, addedLabel := GenerateLabelX(newValue, index, true);
      var added;
      if cache.lineConnectionDrawer == null {
        var graphPolyLineDrawer := new PolyLine(lineCanvasHeight);
        cache.lineConnectionDrawer := graphPolyLineDrawer;
        added := GeneratePoint(newValue, index, graphPolyLineDrawer, true);
      } else {
        added := GeneratePoint(newValue, index, cache.lineConnectionDrawer, true);
      }
      DrawsNextTo(scene, CurrentScene(), Values(), CurrentScale(), index);
    }

    /** ChangeYMax: the new yMax is taken as is, and a shown series is drawn
        again from scratch. */
    method ChangeYMax(offset: real)
      requires Valid() && offset != 0.0
      modifies this`yMax, this`series, cache, container.pointAndLine, container.labelX, container.labelY, container.axis, container.gridDash
      ensures yMax == offset && series == old(series)
      ensures Valid()
      ensures old(series).None? ==> CurrentScene() == old(CurrentScene())
      ensures old(series).Some? ==> fresh(cache.lineConnectionDrawer)
    {
      yMax := offset;
      if series.Some? {
        ShowGraph(series.value);
      }
    }

    /** ChangeXDistance: spacing below 20 is raised to 20; a shown series
        with a changed spacing is drawn again, anything else is left alone. */
    method ChangeXDistance(distance: int)
      requires Valid()
      modifies this`xPointDistance, this`series, cache, container.pointAndLine, container.labelX, container.labelY, container.axis, container.gridDash
      ensures series == old(series) && Valid()
      ensures var newDistance := if distance < XPointDistanceMin then XPointDistanceMin else distance;
        if old(series).Some? && old(xPointDistance) != newDistance then
          xPointDistance == newDistance && fresh(cache.lineConnectionDrawer)
        else
          xPointDistance == old(xPointDistance) && CurrentScene() == old(CurrentScene())
    {
      var newDistance := if distance < XPointDistanceMin then XPointDistanceMin else distance;
      if series.Some? && xPointDistance != newDistance {
        xPointDistance := newDistance;
        ShowGraph(series.value);
      }
    }
  }

  /** Panning by an offset and back by its negation restores the pan and the
      canvas positions. */
  method MoveGraphThereAndBack(holder: GraphHolder, offsetLeft: int, offsetTop: int)
    requires holder.container.Distinct()
    modifies holder`left, holder`top, holder.container.pointAndLine, holder.container.labelX
    ensures holder.left == old(holder.left) && holder.top == old(holder.top)
    ensures holder.container.pointAndLine.position == PointCanvasPosition(old(holder.left), old(holder.top))
    ensures holder.container.labelX.position == LabelXCanvasPosition(old(holder.left))
  {
    holder.MoveGraph(offsetLeft, offsetTop);
    holder.MoveGraph(-offsetLeft, -offsetTop);
  }
}
