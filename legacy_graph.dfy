/** The earlier engine generation's GraphHolder: proxies that attach
    themselves to a parent, one line segment per pair of neighbouring points,
    the display offsets baked into every pixel, and a build that may skip
    samples with a fixed stride. Proxies are named by the dense slot they
    were generated for; the generated slots show `drawn`, in order. */
module LegacyGraph {
  import opened Geometry
  import opened Window

  /** A proxy of the earlier generation, named by its slot. */
  datatype Part = Point(slot: int) | Connection(slot: int) | LabelX(slot: int)

  /** Where the X label of slot j goes: its pixel plus the pan, 20 pixels up. */
  function LegacyLabelXPos(slot: int, d: int, left: int): Vec
  {
    Vec((slot * d + DisplayOffsetX + left) as real, (DisplayOffsetY - 10) as real)
  }

  /** An X label sits at the screen x of its slot's point: the point's pixel
      already holds the margin, the label's also holds the pan. */
  lemma LabelXUnderItsPoint(slot: int, d: int, left: int, v: int, yMax: real, graphHeight: real)
    requires yMax != 0.0
    ensures LegacyLabelXPos(slot, d, left).x == LegacyPointPos(slot, d, v, yMax, graphHeight).x + left as real
    ensures LegacyLabelXPos(slot, d, left).x == ScreenX(left, d, slot) as real
  {
  }

  /** The samples the strided build visits: 0, k, 2k, ... below n. */
  function StridedIndices(n: int, k: int): seq<int>
    requires n >= 0 && k >= 1
  {
    seq(CeilDiv(n, k), j => j * k)
  }

  /** Every visited index is a sample of the series. */
  lemma StridedIndexInRange(n: int, k: int, j: int)
    requires n >= 0 && k >= 1 && 0 <= j < CeilDiv(n, k)
    ensures 0 <= j * k < n
  {
    MulLe(j, CeilDiv(n, k) - 1, k);
    MulLe(0, j, k);
  }

  /** A multiple of k leaves no remainder. */
  lemma MultipleHasNoRemainder(j: int, k: int)
    requires k >= 1
    ensures (j * k) % k == 0
  {
    var q := (j * k) / k;
    var r := (j * k) % k;
    assert (j - q) * k == r;
    if j - q >= 1 {
      MulLe(1, j - q, k);
    } else if j - q <= -1 {
      MulLe(1, q - j, k);
    }
  }

  /** The strided build visits exactly the multiples of k below n. */
  lemma StridedIndicesAreMultiples(n: int, k: int, i: int)
    requires n >= 0 && k >= 1
    ensures i in StridedIndices(n, k) <==> 0 <= i < n && i % k == 0
  {
    var r := StridedIndices(n, k);
    var q := CeilDiv(n, k);
    if i in r {
      var j :| 0 <= j < |r| && r[j] == i;
      StridedIndexInRange(n, k, j);
      MultipleHasNoRemainder(j, k);
    }
    if 0 <= i < n && i % k == 0 {
      var j := i / k;
      assert i == j * k;
      if j < 0 {
        MulLe(1, -j, k);
      }
      if j >= q {
        MulLe(q, j, k);
      }
      assert r[j] == i;
    }
  }

  /** The visited index after j * k. */
  lemma NextMultiple(j: int, k: int)
    ensures (j + 1) * k == j * k + k
  {
  }

  /** The strided build stops after CeilDiv(n, k) slots. */
  lemma StrideEnds(n: int, k: int, j: int)
    requires n >= 0 && k >= 1 && j >= 0 && j * k >= n && (j == 0 || (j - 1) * k < n)
    ensures j == CeilDiv(n, k)
  {
    if j == 0 {
      MulLe(-1, 0, k);
    }
    CeilUnique(n, k, j, CeilDiv(n, k));
  }

  /** The samples a build with stride k shows, slot by slot: the first
      sample, then those of the series after skipping k. */
  function StridedSamples(vals: seq<PointValue>, k: int): seq<PointValue>
    requires k >= 1
    decreases |vals|
  {
    if |vals| == 0 then [] else [vals[0]] + StridedSamples(vals[if k < |vals| then k else |vals|..], k)
  }

  /** Slot j of a strided build exists while j * k is a sample, and shows
      that sample. */
  lemma {:induction false} StridedSampleAt(vals: seq<PointValue>, k: int, j: int)
    requires k >= 1 && 0 <= j && j * k < |vals|
    ensures j < |StridedSamples(vals, k)| && StridedSamples(vals, k)[j] == vals[j * k]
  {
    if j > 0 {
      MulLe(1, j, k);
      NextMultiple(j - 1, k);
      var rest := vals[k..];
      StridedSampleAt(rest, k, j - 1);
      assert rest[(j - 1) * k] == vals[j * k];
    }
  }

  /** A build with stride k draws CeilDiv(n, k) slots. */
  lemma {:induction false} StridedSamplesLength(vals: seq<PointValue>, k: int)
    requires k >= 1
    ensures |StridedSamples(vals, k)| == CeilDiv(|vals|, k)
    decreases |vals|
  {
    var n := |vals|;
    if n == 0 {
      CeilUnique(0, k, 0, CeilDiv(0, k));
    } else if k >= n {
      CeilUnique(n, k, 1, CeilDiv(n, k));
    } else {
      StridedSamplesLength(vals[k..], k);
      var q := CeilDiv(n - k, k);
      NextMultiple(q, k);
      NextMultiple(q - 1, k);
      CeilUnique(n, k, q + 1, CeilDiv(n, k));
    }
  }

  /** One step of the strided build: sample i = j * k fills slot j, and the
      next visited index is (j + 1) * k. */
  lemma StrideAdvance(vals: seq<PointValue>, k: int, i: int, j: int)
    requires k >= 1 && 0 <= j && i == j * k && i < |vals|
    ensures j < |StridedSamples(vals, k)|
    ensures StridedSamples(vals, k)[..j + 1] == StridedSamples(vals, k)[..j] + [vals[i]]
    ensures i + k == (j + 1) * k && ((j + 1) - 1) * k < |vals|
  {
    StridedSampleAt(vals, k, j);
    var r := StridedSamples(vals, k);
    assert r[..j + 1] == r[..j] + [r[j]];
    NextMultiple(j, k);
  }

  /** Slot j of a strided build shows the j-th visited sample, and there are
      as many slots as visited indices. */
  lemma StridedSamplesFollowIndices(vals: seq<PointValue>, k: int, j: int)
    requires k >= 1 && 0 <= j < CeilDiv(|vals|, k)
    ensures |StridedSamples(vals, k)| == |StridedIndices(|vals|, k)|
    ensures 0 <= StridedIndices(|vals|, k)[j] < |vals|
    ensures StridedSamples(vals, k)[j] == vals[StridedIndices(|vals|, k)[j]]
  {
    StridedSamplesLength(vals, k);
    StridedIndexInRange(|vals|, k, j);
    StridedSampleAt(vals, k, j);
  }

  /** Without an offset, slot j shows sample j. */
  lemma {:induction false} StrideOneShowsEverySample(vals: seq<PointValue>)
    ensures StridedSamples(vals, 1) == vals
    decreases |vals|
  {
    if |vals| > 0 {
      StrideOneShowsEverySample(vals[1..]);
      assert vals == [vals[0]] + vals[1..];
    }
  }

  /** What the earlier generation has drawn: the three caches, the position
      each proxy was last given, and the attached proxies. */
  datatype Stage = Stage(points: seq<Part>, labels: seq<Part>, connections: seq<Part>,
                         positions: map<Part, Vec>, spans: map<Part, (Vec, Vec)>, attached: set<Part>)

  /** Everything a position depends on besides the sample and the slot. */
  datatype Layout = Layout(d: int, yMax: real, graphHeight: real, left: int)

  predicate LayoutOk(lay: Layout)
  {
    lay.d >= 1 && lay.yMax != 0.0
  }

  /** GetPositionOnCanvas; a proxy never placed reports the origin. */
  function PositionIn(positions: map<Part, Vec>, p: Part): Vec
  {
    if p in positions then positions[p] else Vec(0.0, 0.0)
  }

  /** The caches list slots 0 .. m - 1, and one line between each pair of
      neighbouring points. */
  ghost predicate Slots(st: Stage, m: int)
  {
    m >= 0 && |st.points| == m && |st.labels| == m && |st.connections| == (if m == 0 then 0 else m - 1) &&
    (forall j {:trigger st.points[j]} {:trigger st.labels[j]} :: 0 <= j < m ==> st.points[j] == Point(j) && st.labels[j] == LabelX(j)) &&
    (forall j {:trigger st.connections[j]} :: 0 <= j < |st.connections| ==> st.connections[j] == Connection(j))
  }

  /** Point j sits at the pixel of the sample it shows, and line j joins the
      points of slots j and j + 1. */
  ghost predicate PointsPlaced(st: Stage, drawn: seq<PointValue>, lay: Layout)
    requires LayoutOk(lay)
  {
    (forall j {:trigger Point(j)} :: 0 <= j < |drawn| ==>
      Point(j) in st.positions &&
      st.positions[Point(j)] == LegacyPointPos(j, lay.d, drawn[j].yValue, lay.yMax, lay.graphHeight)) &&
    (forall j {:trigger Connection(j)} :: 0 <= j < |drawn| - 1 ==>
      Connection(j) in st.spans && st.spans[Connection(j)] == (st.positions[Point(j)], st.positions[Point(j + 1)]))
  }

  /** Label j sits under slot j, for the pan in `lay`. */
  ghost predicate LabelsPlaced(st: Stage, m: int, lay: Layout)
  {
    forall j {:trigger LabelX(j)} :: 0 <= j < m ==> LabelX(j) in st.positions && st.positions[LabelX(j)] == LegacyLabelXPos(j, lay.d, lay.left)
  }

  /** Only generated proxies are attached, and every X label is. */
  ghost predicate Owned(st: Stage, m: int)
  {
    (forall p :: p in st.attached ==> 0 <= p.slot && (if p.Connection? then p.slot < m - 1 else p.slot < m)) &&
    (forall j :: 0 <= j < m ==> LabelX(j) in st.attached)
  }

  /** Every generated proxy is attached. */
  ghost predicate AllAttached(attached: set<Part>, m: int)
  {
    (forall j :: 0 <= j < m ==> Point(j) in attached && LabelX(j) in attached) &&
    (forall j :: 0 <= j < m - 1 ==> Connection(j) in attached)
  }

  /** The stage draws the samples `drawn` at layout `lay`. */
  ghost predicate Draws(st: Stage, drawn: seq<PointValue>, lay: Layout)
  {
    LayoutOk(lay) && Slots(st, |drawn|) && PointsPlaced(st, drawn, lay) &&
    LabelsPlaced(st, |drawn|, lay) && Owned(st, |drawn|)
  }

  /** The stage after drawing `v` into slot j: its label and its point are
      placed, listed and attached, and a line joins the previous point. */
  function Appended(st: Stage, v: PointValue, j: int, lay: Layout): Stage
    requires LayoutOk(lay)
  {
    var pointPos := LegacyPointPos(j, lay.d, v.yValue, lay.yMax, lay.graphHeight);
    var positions := st.positions[LabelX(j) := LegacyLabelXPos(j, lay.d, lay.left)][Point(j) := pointPos];
    Stage(st.points + [Point(j)], st.labels + [LabelX(j)],
          if j > 0 then st.connections + [Connection(j - 1)] else st.connections,
          positions,
          if j > 0 then st.spans[Connection(j - 1) := (PositionIn(positions, Point(j - 1)), pointPos)] else st.spans,
          st.attached + {LabelX(j), Point(j)} + (if j > 0 then {Connection(j - 1)} else {}))
  }

  /** Appending lists slot j as the next slot of every cache. */
  lemma SlotsAppended(st: Stage, m: int, v: PointValue, lay: Layout)
    requires LayoutOk(lay) && Slots(st, m)
    ensures Slots(Appended(st, v, m, lay), m + 1)
  {
  }

  /** Appending places the new point and joins it to the previous one,
      leaving every earlier point and line where it was. */
  lemma PointsPlacedAppended(st: Stage, drawn: seq<PointValue>, v: PointValue, lay: Layout)
    requires LayoutOk(lay) && PointsPlaced(st, drawn, lay)
    ensures PointsPlaced(Appended(st, v, |drawn|, lay), drawn + [v], lay)
  {
    var j := |drawn|;
    var after := Appended(st, v, j, lay);
    var drawn' := drawn + [v];
    forall t | 0 <= t < |drawn'|
      ensures Point(t) in after.positions
      ensures after.positions[Point(t)] == LegacyPointPos(t, lay.d, drawn'[t].yValue, lay.yMax, lay.graphHeight)
    {
      if t < j {
        assert drawn'[t] == drawn[t];
      }
    }
    forall t | 0 <= t < |drawn'| - 1
      ensures Connection(t) in after.spans
      ensures after.spans[Connection(t)] == (after.positions[Point(t)], after.positions[Point(t + 1)])
    {
      if t < j - 1 {
        assert after.spans[Connection(t)] == st.spans[Connection(t)];
      }
    }
  }

  /** Appending places the new label and moves no earlier one. */
  lemma LabelsPlacedAppended(st: Stage, m: int, v: PointValue, lay: Layout)
    requires LayoutOk(lay) && LabelsPlaced(st, m, lay)
    ensures LabelsPlaced(Appended(st, v, m, lay), m + 1, lay)
  {
  }

  /** Appending attaches only proxies of the new slot. */
  lemma OwnedAppended(st: Stage, m: int, v: PointValue, lay: Layout)
    requires LayoutOk(lay) && m >= 0 && Owned(st, m)
    ensures Owned(Appended(st, v, m, lay), m + 1)
    ensures AllAttached(st.attached, m) ==> AllAttached(Appended(st, v, m, lay).attached, m + 1)
  {
  }

  /** Drawing the next slot keeps the stage in step with the drawn samples,
      and keeps a fully attached stage fully attached. */
  lemma DrawsAppended(st: Stage, drawn: seq<PointValue>, v: PointValue, lay: Layout, st': Stage, drawn': seq<PointValue>)
    requires Draws(st, drawn, lay)
    requires st' == Appended(st, v, |drawn|, lay) && drawn' == drawn + [v]
    ensures Draws(st', drawn', lay)
    ensures AllAttached(st.attached, |drawn|) ==> AllAttached(st'.attached, |drawn'|)
  {
    SlotsAppended(st, |drawn|, v, lay);
    PointsPlacedAppended(st, drawn, v, lay);
    LabelsPlacedAppended(st, |drawn|, v, lay);
    OwnedAppended(st, |drawn|, v, lay);
  }

  /** The parent canvas of the earlier generation, with the position each
      proxy was last given. Attaching refuses a proxy already attached. */
  class LegacyContainer {
    var attached: set<Part>
    var positions: map<Part, Vec>
    var spans: map<Part, (Vec, Vec)>
    /** PointAndLineCanvasHolder's position. */
    var pointCanvasPosition: Vec
    const graphWidth: int
    const graphHeight: real

    constructor(graphWidth: int, graphHeight: real)
      ensures this.graphWidth == graphWidth && this.graphHeight == graphHeight
      ensures attached == {} && positions == map[] && spans == map[]
    {
      this.graphWidth := graphWidth;
      this.graphHeight := graphHeight;
      attached := {};
      positions := map[];
      spans := map[];
      pointCanvasPosition := Vec(0.0, 0.0);
    }

    method SetIntoParent(p: Part) returns (ok: bool)
      modifies this`attached
      ensures ok <==> p !in old(attached)
      ensures attached == old(attached) + {p}
    {
      ok := p !in attached;
      attached := attached + {p};
    }

    method RemoveFromParent(p: Part) returns (ok: bool)
      modifies this`attached
      ensures ok <==> p in old(attached)
      ensures attached == old(attached) - {p}
    {
      ok := p in attached;
      attached := attached - {p};
    }

    method SetPositionOnCanvas(p: Part, position: Vec)
      modifies this`positions
      ensures positions == old(positions)[p := position]
    {
      positions := positions[p := position];
    }

    method SetLinePositionOnCanvas(p: Part, firstPoint: Vec, secondPoint: Vec)
      modifies this`spans
      ensures spans == old(spans)[p := (firstPoint, secondPoint)]
    {
      spans := spans[p := (firstPoint, secondPoint)];
    }

    method SetCanvasPosition(position: Vec)
      modifies this`pointCanvasPosition
      ensures pointCanvasPosition == position
    {
      pointCanvasPosition := position;
    }

    /** Clear: every proxy leaves the canvas. */
    method Clear()
      modifies this`attached
      ensures attached == {}
    {
      attached := {};
    }
  }

  /** GraphHolder.GraphElementCache of the earlier generation; the Y labels
      are not part of this model. */
  class GraphElementCache {
    var lineConnectionDrawers: seq<Part>
    var pointDrawers: seq<Part>
    var labelXDrawers: seq<Part>

    constructor()
      ensures lineConnectionDrawers == [] && pointDrawers == [] && labelXDrawers == []
    {
      lineConnectionDrawers := [];
      pointDrawers := [];
      labelXDrawers := [];
    }

    method Clear()
      modifies this
      ensures lineConnectionDrawers == [] && pointDrawers == [] && labelXDrawers == []
    {
      lineConnectionDrawers := [];
      pointDrawers := [];
      labelXDrawers := [];
    }
  }

  class GraphHolder {
    const container: LegacyContainer
    const cache: GraphElementCache
    var series: Option<seq<PointValue>>
    var yMax: real
    var xPointDistance: int
    var left: int
    var top: int
    /** mCurrentPointOffsetCount: the build skips this many samples between
        two drawn ones. */
    var pointOffsetCount: int
    /** The sample each generated slot shows. */
    ghost var drawn: seq<PointValue>

    function Values(): seq<PointValue>
      reads this`series
    {
      if series.Some? then series.value else []
    }

    function CurrentLayout(): Layout
      reads this`xPointDistance, this`yMax, this`left
    {
      Layout(xPointDistance, yMax, container.graphHeight, left)
    }

    ghost function CurrentStage(): Stage
      reads cache, container
    {
      Stage(cache.pointDrawers, cache.labelXDrawers, cache.lineConnectionDrawers,
            container.positions, container.spans, container.attached)
    }

    /** Everything generated shows `drawn` at the current layout. */
    ghost predicate Valid()
      reads this, cache, container
    {
      pointOffsetCount >= 0 && (series.None? ==> drawn == []) &&
      Draws(CurrentStage(), drawn, CurrentLayout())
    }

    constructor(container: LegacyContainer)
      requires container.attached == {}
      ensures this.container == container && fresh(cache)
      ensures series == None && yMax == 100.0 && xPointDistance == XPointDistanceDef
      ensures left == 0 && top == 0 && pointOffsetCount == 0 && drawn == []
      ensures Valid() && AllAttached(container.attached, |drawn|)
    {
      this.container := container;
      cache := new GraphElementCache();
      series := None;
      yMax := 100.0;
      xPointDistance := XPointDistanceDef;
      left := 0;
      top := 0;
      pointOffsetCount := 0;
      drawn := [];
    }

    /** GenerateLabelX: the label of slot `pointIndex` is placed under its
        point, pan included, and listed only if its parent accepts it. */
    method GenerateLabelX(pointValue: PointValue, pointIndex: int) returns (labelX: Part, text: LabelText, added: bool)
      modifies cache`labelXDrawers, container`attached, container`positions
      ensures labelX == LabelX(pointIndex) && text == LabelTextOf(pointValue, pointIndex)
      ensures added <==> labelX !in old(container.attached)
      ensures container.attached == old(container.attached) + {labelX}
      ensures cache.labelXDrawers == if added then old(cache.labelXDrawers) + [labelX] else old(cache.labelXDrawers)
      ensures container.positions ==
        if added then old(container.positions)[labelX := LegacyLabelXPos(pointIndex, xPointDistance, left)]
        else old(container.positions)
    {
      labelX := LabelX(pointIndex);
      text := LabelTextOf(pointValue, pointIndex);
      added := container.SetIntoParent(labelX);
      if added {
        container.SetPositionOnCanvas(labelX, LegacyLabelXPos(pointIndex, xPointDistance, left));
        cache.labelXDrawers := cache.labelXDrawers + [labelX];
      }
    }

    /** GeneratePoint: appends only, and demands (Debug.Assert) that slot
        `pointIndex` is the next free one. */
    method GeneratePoint(graphPointValue: PointValue, pointIndex: int) returns (point: Part, added: bool)
      requires |cache.pointDrawers| == pointIndex
      requires yMax != 0.0
      modifies cache`pointDrawers, container`attached, container`positions
      ensures point == Point(pointIndex)
      ensures added <==> point !in old(container.attached)
      ensures container.attached == old(container.attached) + {point}
      ensures cache.pointDrawers == if added then old(cache.pointDrawers) + [point] else old(cache.pointDrawers)
      ensures container.positions ==
        if added then old(container.positions)[point := LegacyPointPos(pointIndex, xPointDistance, graphPointValue.yValue, yMax, container.graphHeight)]
        else old(container.positions)
    {
      var pos := LegacyPointPos(pointIndex, xPointDistance, graphPointValue.yValue, yMax, container.graphHeight);
      point := Point(pointIndex);
      added := container.SetIntoParent(point);
      if added {
        container.SetPositionOnCanvas(point, pos);
        cache.pointDrawers := cache.pointDrawers + [point];
      }
    }

    /** GeneratePointConnection: the line of slot `lineIndex` joins the two
        positions, and is listed only if its parent accepts it. */
    method GeneratePointConnection(posA: Vec, posB: Vec, lineIndex: int) returns (added: bool)
      modifies cache`lineConnectionDrawers, container`attached, container`spans
      ensures added <==> Connection(lineIndex) !in old(container.attached)
      ensures container.attached == old(container.attached) + {Connection(lineIndex)}
      ensures cache.lineConnectionDrawers ==
        if added then old(cache.lineConnectionDrawers) + [Connection(lineIndex)] else old(cache.lineConnectionDrawers)
      ensures container.spans ==
        if added then old(container.spans)[Connection(lineIndex) := (posA, posB)] else old(container.spans)
    {
      var line := Connection(lineIndex);
      added := container.SetIntoParent(line);
      if added {
        container.SetLinePositionOnCanvas(line, posA, posB);
        cache.lineConnectionDrawers := cache.lineConnectionDrawers + [line];
      }
    }

    /** One slot of a build or of an append: the label, then the point, then
        the line from the previous point, all of slot j. */
    method DrawSlot(v: PointValue, j: int, lastPoint: Option<Part>)
      requires LayoutOk(CurrentLayout())
      requires |cache.pointDrawers| == j && lastPoint == (if j == 0 then None else Some(Point(j - 1)))
      requires LabelX(j) !in container.attached && Point(j) !in container.attached
      requires j > 0 ==> Connection(j - 1) !in container.attached
      modifies cache, container`attached, container`positions, container`spans
      ensures CurrentStage() == Appended(old(CurrentStage()), v, j, CurrentLayout())
    {
      var labelX, text, addedLabel := GenerateLabelX(v, j);
      var point, added := GeneratePoint(v, j);
      if lastPoint.Some? {
        var addedLine := GeneratePointConnection(PositionIn(container.positions, lastPoint.value),
                                                 PositionIn(container.positions, point), j - 1);
      }
    }

    /** The state of SetupPointAndConnection's loop before slot j: the
        first j strided samples are drawn, and lastPoint is the point of
        slot j - 1 when there is one. */
    ghost predicate StridedBuilt(showingList: seq<PointValue>, k: int, j: int, lastPoint: Option<Part>)
      reads this, cache, container
    {
      k >= 1 && 0 <= j <= |StridedSamples(showingList, k)| && (j == 0 || (j - 1) * k < |showingList|) &&
      drawn == StridedSamples(showingList, k)[..j] &&
      Draws(CurrentStage(), drawn, CurrentLayout()) && AllAttached(container.attached, j) &&
      lastPoint == (if j == 0 then None else Some(Point(j - 1)))
    }

    /** One pass of SetupPointAndConnection's loop: sample i = j * k is
        drawn into slot j, the next slot of the strided build. */
    method DrawStridedSlot(showingList: seq<PointValue>, k: int, i: int, j: int, lastPoint: Option<Part>)
      requires StridedBuilt(showingList, k, j, lastPoint) && i == j * k && i < |showingList|
      modifies this`drawn, cache, container`attached, container`positions, container`spans
      ensures StridedBuilt(showingList, k, j + 1, Some(Point(j)))
      ensures i + k == (j + 1) * k
    {
      StrideAdvance(showingList, k, i, j);
      ghost var st := CurrentStage();
      ghost var before := drawn;
      DrawSlot(showingList[i], |cache.pointDrawers|, lastPoint);
      drawn := drawn + [showingList[i]];
      DrawsAppended(st, before, showingList[i], CurrentLayout(), CurrentStage(), drawn);
    }

    /** SetupPointAndConnection: visits samples 0, k, 2k, ... with
        k = pointOffsetCount + 1, drawing sample j * k into slot j. */
    method SetupPointAndConnection(showingList: seq<PointValue>)
      requires LayoutOk(CurrentLayout()) && pointOffsetCount >= 0
      requires drawn == [] && container.attached == {}
      requires cache.pointDrawers == [] && cache.labelXDrawers == [] && cache.lineConnectionDrawers == []
      modifies this`drawn, cache, container`attached, container`positions, container`spans
      ensures Draws(CurrentStage(), drawn, CurrentLayout()) && AllAttached(container.attached, |drawn|)
      ensures drawn == StridedSamples(showingList, pointOffsetCount + 1)
    {
      var k := pointOffsetCount + 1;
      var lastPoint: Option<Part> := None;
      var j := 0;
      var i := 0;
      StridedBuiltStart(showingList, k);
      while i < |showingList|
        invariant StridedBuilt(showingList, k, j, lastPoint) && i == j * k
      {
        DrawStridedSlot(showingList, k, i, j, lastPoint);
        lastPoint := Some(Point(j));
        i := i + k;
        j := j + 1;
      }
      StridedBuiltComplete(showingList, k, j, lastPoint);
    }

    /** Before the first pass nothing is drawn, which is a strided build of
        no slots. */
    lemma StridedBuiltStart(showingList: seq<PointValue>, k: int)
      requires LayoutOk(CurrentLayout()) && k >= 1
      requires drawn == [] && container.attached == {}
      requires cache.pointDrawers == [] && cache.labelXDrawers == [] && cache.lineConnectionDrawers == []
      ensures StridedBuilt(showingList, k, 0, None)
    {
    }

    /** Once slot j is past the last sample, the strided build is complete. */
    lemma StridedBuiltComplete(showingList: seq<PointValue>, k: int, j: int, lastPoint: Option<Part>)
      requires StridedBuilt(showingList, k, j, lastPoint) && j * k >= |showingList|
      ensures drawn == StridedSamples(showingList, k)
      ensures Draws(CurrentStage(), drawn, CurrentLayout()) && AllAttached(container.attached, |drawn|)
    {
      StridedSamplesLength(showingList, k);
      StrideEnds(|showingList|, k, j);
      assert StridedSamples(showingList, k)[..j] == StridedSamples(showingList, k);
    }

    /** ShowGraph: the series is replaced, everything is cleared and built again. */
    method ShowGraph(valueList: seq<PointValue>)
      requires LayoutOk(CurrentLayout()) && pointOffsetCount >= 0
      modifies this`series, this`drawn, cache, container`attached, container`positions, container`spans
      ensures series == Some(valueList)
      ensures Valid() && AllAttached(container.attached, |drawn|)
      ensures drawn == StridedSamples(valueList, pointOffsetCount + 1)
    {
      series := Some(valueList);
      container.Clear();
      cache.Clear();
      drawn := [];
      SetupPointAndConnection(valueList);
    }

    /** AddPointValue: the new sample goes into the next free slot, with a
        line from the previous point when there is one. */
    method AddPointValue(newValue: PointValue)
      requires Valid()
      modifies this`series, this`drawn, cache, container`attached, container`positions, container`spans
      ensures series == Some(old(Values()) + [newValue])
      ensures drawn == old(drawn) + [newValue]
      ensures CurrentStage() == Appended(old(CurrentStage()), newValue, |old(cache.pointDrawers)|, CurrentLayout())
      ensures Valid()
      ensures AllAttached(old(container.attached), |old(drawn)|) ==> AllAttached(container.attached, |drawn|)
    {
      series := Some(Values() + [newValue]);
      var lastPoint := if |cache.pointDrawers| > 0 then Some(cache.pointDrawers[|cache.pointDrawers| - 1]) else None;
      ghost var st := CurrentStage();
      ghost var before := drawn;
      DrawSlot(newValue, |cache.pointDrawers|, lastPoint);
      drawn := drawn + [newValue];
      DrawsAppended(st, before, newValue, CurrentLayout(), CurrentStage(), drawn);
    }

    /** InvalidateLabelX: every listed label is placed again for the current pan. */
    method InvalidateLabelX()
      requires LayoutOk(CurrentLayout()) && Slots(CurrentStage(), |drawn|)
      requires PointsPlaced(CurrentStage(), drawn, CurrentLayout()) && Owned(CurrentStage(), |drawn|)
      modifies container`positions
      ensures Draws(CurrentStage(), drawn, CurrentLayout())
      ensures forall p: Part :: !p.LabelX? ==> (p in container.positions <==> p in old(container.positions))
    {
      var i := 0;
      while i < |cache.labelXDrawers|
        invariant 0 <= i <= |cache.labelXDrawers|
        invariant PointsPlaced(CurrentStage(), drawn, CurrentLayout())
        invariant LabelsPlaced(CurrentStage(), i, CurrentLayout())
        invariant forall p: Part :: !p.LabelX? ==> (p in container.positions <==> p in old(container.positions))
      {
        container.SetPositionOnCanvas(cache.labelXDrawers[i], LegacyLabelXPos(i, xPointDistance, left));
        i := i + 1;
      }
    }

    /** MoveGraph: accumulates the pan, moves the point canvas, and places the
        X labels again when the pan moved sideways. */
    method MoveGraph(offsetLeft: int, offsetTop: int)
      requires Valid()
      modifies this`left, this`top, container`pointCanvasPosition, container`positions
      ensures left == old(left) + offsetLeft && top == old(top) + offsetTop
      ensures container.pointCanvasPosition == Vec(left as real, top as real)
      ensures container.attached == old(container.attached)
      ensures Valid()
    {
      left := left + offsetLeft;
      top := top + offsetTop;
      container.SetCanvasPosition(Vec(left as real, top as real));
      if offsetLeft != 0 {
        InvalidateLabelX();
      }
    }

    /** ChangeYMax: the new yMax is taken as is; a shown series is built again. */
    method ChangeYMax(offset: real)
      requires Valid() && offset != 0.0
      modifies this`yMax, this`series, this`drawn, cache, container`attached, container`positions, container`spans
      ensures yMax == offset && series == old(series) && Valid()
      ensures old(series).Some? ==>
        drawn == StridedSamples(series.value, pointOffsetCount + 1) && AllAttached(container.attached, |drawn|)
      ensures old(series).None? ==> drawn == old(drawn) && CurrentStage() == old(CurrentStage())
    {
      yMax := offset;
      if series.Some? {
        ShowGraph(series.value);
      }
    }

    /** ChangeXDistance: spacing below 20 is raised to 20; a shown series
        with a changed spacing is built again, anything else is left alone. */
    method ChangeXDistance(distance: int)
      requires Valid()
      modifies this`xPointDistance, this`series, this`drawn, cache, container`attached, container`positions, container`spans
      ensures series == old(series) && Valid()
      ensures var newDistance := if distance < XPointDistanceMin then XPointDistanceMin else distance;
        if old(series).Some? && old(xPointDistance) != newDistance then
          xPointDistance == newDistance && drawn == StridedSamples(series.value, pointOffsetCount + 1) &&
          AllAttached(container.attached, |drawn|)
        else
          xPointDistance == old(xPointDistance) && drawn == old(drawn) && CurrentStage() == old(CurrentStage())
    {
      var newDistance := if distance < XPointDistanceMin then XPointDistanceMin else distance;
      if series.Some? && xPointDistance != newDistance {
        xPointDistance := newDistance;
        ShowGraph(series.value);
      }
    }
  }
}
