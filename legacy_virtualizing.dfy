/** The earlier generation's VirtualizingGraphHolder: it builds every point
    like its base, remembers the first on-screen sample, and on a pan
    detaches (or re-attaches) the points it scrolls past, with the line that
    ends at each of them. C# inheritance is modelled by composition: the
    holder owns its base GraphHolder, and the base operations that call the
    overridden ShowGraph are written out here. */
module LegacyVirtualizing {
  import opened Geometry
  import opened Window
  import opened LegacyGraph

  function Min(a: int, b: int): int
  {
    if a <= b then a else b
  }

  /** The proxies one pass of the toggling loop touches for i in
      [from, to): point i and the line into it. */
  predicate Toggled(p: Part, from: int, to: int)
  {
    (p.Point? && from <= p.slot < to) || (p.Connection? && from <= p.slot + 1 < to && p.slot >= 0)
  }

  /** The attached set after the loop detached points [from, to). */
  function Detached(attached: set<Part>, from: int, to: int): (r: set<Part>)
    ensures forall p :: p in r <==> p in attached && !Toggled(p, from, to)
  {
    set p | p in attached && !Toggled(p, from, to)
  }

  /** The attached set after the loop re-attached points [from, to). */
  function Reattached(attached: set<Part>, from: int, to: int): set<Part>
  {
    attached + (set i | from <= i < to :: Point(i)) + (set c | from <= c + 1 < to && c >= 0 :: Connection(c))
  }

  /** Re-attaching adds exactly the toggled proxies. */
  lemma ReattachedMeaning(attached: set<Part>, from: int, to: int, p: Part)
    ensures p in Reattached(attached, from, to) <==> p in attached || Toggled(p, from, to)
  {
  }

  /** One more pass of the detaching loop. */
  lemma DetachedStep(attached: set<Part>, from: int, i: int)
    requires from <= i
    ensures Detached(attached, from, i + 1) ==
      Detached(attached, from, i) - {Point(i)} - (if i >= 1 then {Connection(i - 1)} else {})
  {
  }

  /** One more pass of the re-attaching loop. */
  lemma ReattachedStep(attached: set<Part>, from: int, i: int)
    requires from <= i
    ensures Reattached(attached, from, i + 1) ==
      Reattached(attached, from, i) + {Point(i)} + (if i >= 1 then {Connection(i - 1)} else {})
  {
    var l := Reattached(attached, from, i + 1);
    var r := Reattached(attached, from, i) + {Point(i)} + (if i >= 1 then {Connection(i - 1)} else {});
    forall p ensures p in l <==> p in r {
      ReattachedMeaning(attached, from, i + 1, p);
      ReattachedMeaning(attached, from, i, p);
    }
  }

  /** Points [s, m) are attached, each with the line that ends at it. */
  ghost predicate VisibleFrom(attached: set<Part>, s: int, m: int)
  {
    forall j {:trigger Point(j)} :: s <= j < m && j >= 0 ==> Point(j) in attached && (j >= 1 ==> Connection(j - 1) in attached)
  }

  /** A fully attached build is visible from any start. */
  lemma AllAttachedIsVisible(attached: set<Part>, s: int, m: int)
    requires AllAttached(attached, m)
    ensures VisibleFrom(attached, s, m)
  {
    forall j {:trigger Point(j)} | s <= j < m && j >= 0 && j >= 1
      ensures Connection(j - 1) in attached
    {
      assert 0 <= j - 1 < m - 1;
    }
  }

  /** Detaching the points scrolled past keeps the rest visible, and keeps
      every attached proxy a generated one with all labels attached. */
  lemma DetachKeepsDrawing(st: Stage, drawn: seq<PointValue>, lay: Layout, s: int, s': int, st': Stage)
    requires Draws(st, drawn, lay) && VisibleFrom(st.attached, s, |drawn|) && s <= s'
    requires st' == st.(attached := Detached(st.attached, s, Min(s', |drawn|)))
    ensures Draws(st', drawn, lay) && VisibleFrom(st'.attached, s', |drawn|)
  {
  }

  /** Re-attaching the points scrolled back to keeps the build drawn and
      makes it visible from the new start. */
  lemma ReattachKeepsDrawing(st: Stage, drawn: seq<PointValue>, lay: Layout, s: int, s': int, st': Stage)
    requires Draws(st, drawn, lay) && VisibleFrom(st.attached, s, |drawn|) && 0 <= s' <= s
    requires st' == st.(attached := Reattached(st.attached, s', Min(s, |drawn|)))
    ensures Draws(st', drawn, lay) && VisibleFrom(st'.attached, s', |drawn|)
  {
    var m := |drawn|;
    forall p | p in st'.attached
      ensures 0 <= p.slot && (if p.Connection? then p.slot < m - 1 else p.slot < m)
    {
      ReattachedMeaning(st.attached, s', Min(s, m), p);
    }
    forall j {:trigger Point(j)} | s' <= j < m && j >= 0
      ensures Point(j) in st'.attached && (j >= 1 ==> Connection(j - 1) in st'.attached)
    {
      ReattachedMeaning(st.attached, s', Min(s, m), Point(j));
      if j >= 1 {
        ReattachedMeaning(st.attached, s', Min(s, m), Connection(j - 1));
      }
    }
  }

  class VirtualizingGraphHolder {
    const base: GraphHolder
    /** mCurrentStartIndex: the first on-screen sample at the last update. */
    var startIndex: int
    /** mCurrentEndIndex: set by ShowGraph, never read. */
    var endIndex: int

    /** GetStartPointIndex for the base's pan and spacing. */
    function StartPointIndex(): int
      reads base`left, base`xPointDistance
      requires base.xPointDistance >= 1
    {
      LegacyStartPointIndex(base.left, base.xPointDistance)
    }

    /** The base draws its samples, and everything from the start on is attached. */
    ghost predicate Valid()
      reads this, base, base.cache, base.container
    {
      base.Valid() && 0 <= startIndex && VisibleFrom(base.container.attached, startIndex, |base.drawn|)
    }

    constructor(container: LegacyContainer)
      requires container.attached == {}
      ensures base.container == container && fresh(base) && fresh(base.cache)
      ensures startIndex == 0 && endIndex == 0 && base.series == None && base.drawn == []
      ensures base.left == 0 && base.top == 0 && base.xPointDistance == XPointDistanceDef
      ensures base.yMax == 100.0 && base.pointOffsetCount == 0
      ensures Valid()
    {
      base := new GraphHolder(container);
      startIndex := 0;
      endIndex := 0;
    }

    /** The detaching loop of UpdateDisplayingIndex, as written: point i
        is read as pointDrawers[i], so the loop stops with
        ArgumentOutOfRangeException (ok == false) at the first i past the cache. */
    method DetachPoints(from: int, to: int) returns (ok: bool)
      requires base.Valid() && 0 <= from <= to
      modifies base.container`attached
      ensures ok <==> to <= |base.cache.pointDrawers| || to == from
      ensures base.container.attached == Detached(old(base.container.attached), from, Min(to, |base.cache.pointDrawers|))
    {
      ghost var a := base.container.attached;
      ghost var m := |base.drawn|;
      var i := from;
      while i < to
        invariant from <= i <= to && (i == from || i <= m)
        invariant base.container.attached == Detached(a, from, Min(i, m))
      {
        if i >= |base.cache.pointDrawers| {
          return false;
        }
        var removed := base.container.RemoveFromParent(base.cache.pointDrawers[i]);
        if i >= 1 {
          removed := base.container.RemoveFromParent(base.cache.lineConnectionDrawers[i - 1]);
        }
        DetachedStep(a, from, i);
        i := i + 1;
      }
      ok := true;
    }

    /** The re-attaching loop of UpdateDisplayingIndex, as written, with the
        same out-of-range stop. */
    method ReattachPoints(from: int, to: int) returns (ok: bool)
      requires base.Valid() && 0 <= from <= to
      modifies base.container`attached
      ensures ok <==> to <= |base.cache.pointDrawers| || to == from
      ensures base.container.attached == Reattached(old(base.container.attached), from, Min(to, |base.cache.pointDrawers|))
    {
      ghost var a := base.container.attached;
      ghost var m := |base.drawn|;
      var i := from;
      while i < to
        invariant from <= i <= to && (i == from || i <= m)
        invariant base.container.attached == Reattached(a, from, Min(i, m))
      {
        if i >= |base.cache.pointDrawers| {
          return false;
        }
        var added := base.container.SetIntoParent(base.cache.pointDrawers[i]);
        if i >= 1 {
          added := base.container.SetIntoParent(base.cache.lineConnectionDrawers[i - 1]);
        }
        ReattachedStep(a, from, i);
        i := i + 1;
      }
      ok := true;
    }

    /** UpdateDisplayingIndex, as written: the start index follows the pan
        only when both toggling loops stay inside the point cache; otherwise
        the loop stops at the end of the cache (ok == false), having toggled
        the points before it, and the start index is left behind. */
    method UpdateDisplayingIndex() returns (ok: bool)
      requires Valid()
      modifies base.container`attached, this`startIndex
      ensures var m := |base.cache.pointDrawers|;
        var s := old(startIndex);
        var s' := StartPointIndex();
        (ok <==> s == s' || (s <= m && s' <= m)) &&
        base.container.attached ==
          (if s < s' then Detached(old(base.container.attached), s, Min(s', m))
           else if s' < s then Reattached(old(base.container.attached), s', Min(s, m))
           else old(base.container.attached)) &&
        startIndex == (if ok then s' else s)
      ensures base.Valid() && VisibleFrom(base.container.attached, StartPointIndex(), |base.drawn|)
      ensures ok ==> Valid()
    {
      ghost var st := base.CurrentStage();
      var newStartIndex := StartPointIndex();
      ok := true;
      if startIndex < newStartIndex {
        ok := DetachPoints(startIndex, newStartIndex);
        DetachKeepsDrawing(st, base.drawn, base.CurrentLayout(), startIndex, newStartIndex, base.CurrentStage());
        if ok {
          startIndex := newStartIndex;
        }
      } else if startIndex > newStartIndex {
        ok := ReattachPoints(newStartIndex, startIndex);
        ReattachKeepsDrawing(st, base.drawn, base.CurrentLayout(), startIndex, newStartIndex, base.CurrentStage());
        if ok {
          startIndex := newStartIndex;
        }
      }
    }

    /** UpdateDisplayingIndex with the loops bounded by the point cache: the
        same proxies are toggled, and the start index always follows the pan. */
    method UpdateDisplayingIndexClamped()
      requires Valid()
      modifies base.container`attached, this`startIndex
      ensures var m := |base.cache.pointDrawers|;
        var s := old(startIndex);
        var s' := StartPointIndex();
        base.container.attached ==
          (if s < s' then Detached(old(base.container.attached), s, Min(s', m))
           else if s' < s then Reattached(old(base.container.attached), s', Min(s, m))
           else old(base.container.attached))
      ensures startIndex == StartPointIndex() && Valid()
    {
      ghost var st := base.CurrentStage();
      ghost var a := base.container.attached;
      var newStartIndex := StartPointIndex();
      var count := |base.cache.pointDrawers|;
      if startIndex < newStartIndex {
        if startIndex <= Min(newStartIndex, count) {
          var ok := DetachPoints(startIndex, Min(newStartIndex, count));
        } else {
          assert Detached(a, startIndex, Min(newStartIndex, count)) == a;
        }
        DetachKeepsDrawing(st, base.drawn, base.CurrentLayout(), startIndex, newStartIndex, base.CurrentStage());
      } else if startIndex > newStartIndex {
        if newStartIndex <= Min(startIndex, count) {
          var ok := ReattachPoints(newStartIndex, Min(startIndex, count));
        } else {
          assert Reattached(a, newStartIndex, Min(startIndex, count)) == a;
        }
        ReattachKeepsDrawing(st, base.drawn, base.CurrentLayout(), startIndex, newStartIndex, base.CurrentStage());
      }
      startIndex := newStartIndex;
    }

    /** MoveGraph: the base pans, then the displayed range is updated; ok
        is false where the as-written update runs off the point cache. */
    method MoveGraph(offsetLeft: int, offsetTop: int) returns (ok: bool)
      requires Valid()
      modifies base`left, base`top, base.container`pointCanvasPosition, base.container`positions
      modifies base.container`attached, this`startIndex
      ensures base.left == old(base.left) + offsetLeft && base.top == old(base.top) + offsetTop
      ensures var m := |base.cache.pointDrawers|;
        var s' := StartPointIndex();
        (ok <==> old(startIndex) == s' || (old(startIndex) <= m && s' <= m)) &&
        startIndex == (if ok then s' else old(startIndex))
      ensures base.Valid() && (ok ==> Valid())
    {
      base.MoveGraph(offsetLeft, offsetTop);
      ok := UpdateDisplayingIndex();
    }

    /** MoveGraph over the bounded update: the start index always follows the pan. */
    method MoveGraphClamped(offsetLeft: int, offsetTop: int)
      requires Valid()
      modifies base`left, base`top, base.container`pointCanvasPosition, base.container`positions
      modifies base.container`attached, this`startIndex
      ensures base.left == old(base.left) + offsetLeft && base.top == old(base.top) + offsetTop
      ensures startIndex == StartPointIndex() && endIndex == old(endIndex)
      ensures Valid()
    {
      base.MoveGraph(offsetLeft, offsetTop);
      UpdateDisplayingIndexClamped();
    }

    /** ShowGraph: the base builds every sample; the window is then taken
        from the current pan, although nothing left of it is detached. */
    method ShowGraph(valueList: seq<PointValue>)
      requires LayoutOk(base.CurrentLayout()) && base.pointOffsetCount >= 0
      modifies base`series, base`drawn, base.cache, base.container`attached, base.container`positions
      modifies base.container`spans, this`startIndex, this`endIndex
      ensures base.series == Some(valueList) && base.drawn == StridedSamples(valueList, base.pointOffsetCount + 1)
      ensures startIndex == StartPointIndex()
      ensures endIndex == LegacyEndPointIndex(base.left, base.xPointDistance, base.container.graphWidth)
      ensures AllAttached(base.container.attached, |base.drawn|) && Valid()
    {
      base.ShowGraph(valueList);
      startIndex := StartPointIndex();
      endIndex := LegacyEndPointIndex(base.left, base.xPointDistance, base.container.graphWidth);
      AllAttachedIsVisible(base.container.attached, startIndex, |base.drawn|);
    }

    /** AddPointValue, inherited: the new point is attached wherever it lands. */
    method AddPointValue(newValue: PointValue)
      requires Valid()
      modifies base`series, base`drawn, base.cache, base.container`attached, base.container`positions, base.container`spans
      ensures base.series == Some(old(base.Values()) + [newValue]) && base.drawn == old(base.drawn) + [newValue]
      ensures startIndex == old(startIndex) && Valid()
    {
      base.AddPointValue(newValue);
    }

    /** ChangeYMax, inherited: a shown series is built again through this ShowGraph. */
    method ChangeYMax(offset: real)
      requires Valid() && offset != 0.0
      modifies base`yMax, base`series, base`drawn, base.cache, base.container`attached, base.container`positions
      modifies base.container`spans, this`startIndex, this`endIndex
      ensures base.yMax == offset && base.series == old(base.series) && Valid()
      ensures old(base.series).Some? ==>
        base.drawn == StridedSamples(base.series.value, base.pointOffsetCount + 1) &&
        AllAttached(base.container.attached, |base.drawn|) &&
        startIndex == StartPointIndex() &&
        endIndex == LegacyEndPointIndex(base.left, base.xPointDistance, base.container.graphWidth)
      ensures old(base.series).None? ==>
        startIndex == old(startIndex) && endIndex == old(endIndex) &&
        base.drawn == old(base.drawn) && base.CurrentStage() == old(base.CurrentStage())
    {
      base.yMax := offset;
      if base.series.Some? {
        ShowGraph(base.series.value);
      }
    }

    /** ChangeXDistance, inherited: spacing below 20 is raised to 20, and a
        shown series with a changed spacing is built again through this ShowGraph. */
    method ChangeXDistance(distance: int)
      requires Valid()
      modifies base`xPointDistance, base`series, base`drawn, base.cache, base.container`attached
      modifies base.container`positions, base.container`spans, this`startIndex, this`endIndex
      ensures base.series == old(base.series) && Valid()
      ensures var newDistance := if distance < XPointDistanceMin then XPointDistanceMin else distance;
        if old(base.series).Some? && old(base.xPointDistance) != newDistance then
          base.xPointDistance == newDistance &&
          base.drawn == StridedSamples(base.series.value, base.pointOffsetCount + 1) &&
          AllAttached(base.container.attached, |base.drawn|) &&
          startIndex == StartPointIndex() &&
          endIndex == LegacyEndPointIndex(base.left, base.xPointDistance, base.container.graphWidth)
        else
          base.xPointDistance == old(base.xPointDistance) && startIndex == old(startIndex) && endIndex == old(endIndex) &&
          base.drawn == old(base.drawn) && base.CurrentStage() == old(base.CurrentStage())
    {
      var newDistance := if distance < XPointDistanceMin then XPointDistanceMin else distance;
      if base.series.Some? && base.xPointDistance != newDistance {
        base.xPointDistance := newDistance;
        ShowGraph(base.series.value);
      }
    }
  }

  /** At the default spacing, a pan of 400 pixels to the left puts the
      first on-screen sample at 7. */
  lemma PanOf400StartsAt7()
    ensures LegacyStartPointIndex(0 + -400, XPointDistanceDef) == 7
  {
    assert CeilDiv(320, 50) == 7;
  }

  /** Three samples at the default spacing, panned 400 pixels left: the first
      on-screen sample is 7, past the 3 cached points, so the as-written
      update runs off the point cache. */
  method PanPastTheSeries() returns (ok: bool)
    ensures !ok
  {
    var vals := [PointValue(10, None), PointValue(20, None), PointValue(30, None)];
    StrideOneShowsEverySample(vals);
    var container := new LegacyContainer(600, 400.0);
    var holder := new VirtualizingGraphHolder(container);
    holder.ShowGraph(vals);
    PanOf400StartsAt7();
    ok := holder.MoveGraph(-400, 0);
  }

  /** The same pan over the bounded update: the start index follows it to 7. */
  method PanPastTheSeriesClamped() returns (start: int)
    ensures start == 7
  {
    var vals := [PointValue(10, None), PointValue(20, None), PointValue(30, None)];
    var container := new LegacyContainer(600, 400.0);
    var holder := new VirtualizingGraphHolder(container);
    holder.ShowGraph(vals);
    PanOf400StartsAt7();
    holder.MoveGraphClamped(-400, 0);
    start := holder.startIndex;
  }
}
