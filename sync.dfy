/** What "the caches are in step with the window" means, stated on values:
    the point cache, the label cache and the polyline hold one entry per
    in-window sample, in ascending sample order, and exactly the decimated
    samples are attached to the host canvases. Each edit the engine makes to
    the caches is a lemma here that takes one such state to the next. */
module Sync {
  import opened Geometry
  import opened Window
  import opened Canvas
  import opened PolyLine

  /** Everything a drawn position depends on besides the sample itself. */
  datatype Scale = Scale(d: int, yMax: real, graphHeight: real, lineHeight: real)

  predicate ScaleOk(sc: Scale)
  {
    sc.d >= 1 && sc.yMax != 0.0
  }

  /** Where the point of sample i sits inside the point canvas. */
  function PointPosition(vals: seq<PointValue>, i: int, sc: Scale): Vec
    requires ScaleOk(sc) && 0 <= i < |vals|
  {
    Vec(XPosForPoint(i, sc.d), YPosForValue(vals[i].yValue, sc.yMax, sc.graphHeight))
  }

  /** The polyline vertex of sample i, stored flipped. */
  function Vertex(vals: seq<PointValue>, i: int, sc: Scale): Vec
    requires ScaleOk(sc) && 0 <= i < |vals|
  {
    ReversePos(PointPosition(vals, i, sc), sc.lineHeight)
  }

  /** The part of the engine's state the window governs. `vertices` is None
      while there is no polyline. */
  datatype Scene = Scene(points: seq<Child>, labels: seq<Child>, vertices: Option<seq<Vec>>,
                         pointCanvas: set<Child>, labelCanvas: set<Child>)

  /** min(e, n - 1): the last in-window sample that exists. */
  function Hi(e: int, n: int): int
  {
    if e < n - 1 then e else n - 1
  }

  /** Number of samples in [s, e] that exist in a series of n samples. */
  function ExpectedCount(s: int, e: int, n: int): (c: int)
    ensures c >= 0
  {
    if Hi(e, n) >= s then Hi(e, n) - s + 1 else 0
  }

  /** The count the engine's own assert() demands of the point cache. */
  function DebugAssertCount(s: int, e: int, n: int): int
  {
    if e < n then e - s + 1 else if s < n then n - s else 0
  }

  lemma ExpectedCountIsDebugAssertCount(s: int, e: int, n: int)
    requires 0 <= s <= e + 1 && n >= 0
    ensures ExpectedCount(s, e, n) == DebugAssertCount(s, e, n)
  {
  }

  /** The cached run [s, s + count) is exactly the in-window samples that exist. */
  lemma ExpectedCountMeaning(s: int, e: int, n: int, i: int)
    requires s >= 0
    ensures s <= i < s + ExpectedCount(s, e, n) <==> s <= i <= e && i < n
  {
  }

  ghost predicate PointRun(s: seq<Child>, lo: int, c: int)
  {
    |s| == c && forall k :: 0 <= k < c ==> s[k] == PointChild(lo + k)
  }

  ghost predicate LabelRun(s: seq<Child>, lo: int, c: int)
  {
    |s| == c && forall k :: 0 <= k < c ==> s[k] == LabelXChild(lo + k)
  }

  ghost predicate VertexRun(v: seq<Vec>, vals: seq<PointValue>, sc: Scale, lo: int, c: int)
    requires ScaleOk(sc) && 0 <= lo && (c <= 0 || lo + c <= |vals|)
  {
    |v| == c && forall k :: 0 <= k < c ==> v[k] == Vertex(vals, lo + k, sc)
  }

  ghost predicate PointsAttached(canvas: set<Child>, lo: int, c: int, d: int)
    requires d >= 1
  {
    (forall i :: PointChild(i) in canvas <==> lo <= i < lo + c && IsShown(i, d)) &&
    (forall ch :: ch in canvas ==> !ch.LabelXChild?)
  }

  ghost predicate LabelsAttached(canvas: set<Child>, lo: int, c: int, d: int)
    requires d >= 1
  {
    (forall i :: LabelXChild(i) in canvas <==> lo <= i < lo + c && IsShown(i, d)) &&
    (forall ch :: ch in canvas ==> ch.LabelXChild?)
  }

  /** The scene shows samples [lo, lo + c) of `vals` at scale `sc`. */
  ghost predicate Shows(scene: Scene, vals: seq<PointValue>, sc: Scale, lo: int, c: int)
  {
    ScaleOk(sc) && 0 <= lo && 0 <= c && (c == 0 || lo + c <= |vals|) &&
    PointRun(scene.points, lo, c) && LabelRun(scene.labels, lo, c) &&
    (c > 0 ==> scene.vertices.Some?) &&
    (scene.vertices.Some? ==> VertexRun(scene.vertices.value, vals, sc, lo, c)) &&
    PointsAttached(scene.pointCanvas, lo, c, sc.d) &&
    LabelsAttached(scene.labelCanvas, lo, c, sc.d)
  }

  /** An empty run does not care where it starts. */
  lemma ShowsEmptyAnywhere(scene: Scene, vals: seq<PointValue>, sc: Scale, lo: int, lo': int)
    requires Shows(scene, vals, sc, lo, 0) && lo' >= 0
    ensures Shows(scene, vals, sc, lo', 0)
  {
  }

  /** A run may be restated with the same bounds, and an empty one anywhere. */
  lemma ShowsReindex(scene: Scene, vals: seq<PointValue>, sc: Scale, lo: int, c: int, lo': int, c': int)
    requires Shows(scene, vals, sc, lo, c) && lo' >= 0
    requires (c == 0 && c' == 0) || (lo == lo' && c == c')
    ensures Shows(scene, vals, sc, lo', c')
  {
  }

  /** Appending a sample to the series never disturbs what is shown. */
  lemma ShowsAppendValue(scene: Scene, vals: seq<PointValue>, v: PointValue, sc: Scale, lo: int, c: int)
    requires Shows(scene, vals, sc, lo, c)
    ensures Shows(scene, vals + [v], sc, lo, c)
  {
    if scene.vertices.Some? {
      forall k | 0 <= k < c
        ensures scene.vertices.value[k] == Vertex(vals + [v], lo + k, sc)
      {
        assert (vals + [v])[lo + k] == vals[lo + k];
      }
    }
  }

  /** The vertices of a run have pairwise distinct x, so a by-value lookup
      of the vertex of sample lo + j finds slot j. */
  lemma {:induction false} VertexLookupHitsOwnSlot(v: seq<Vec>, vals: seq<PointValue>, sc: Scale, lo: int, c: int, j: int)
    requires ScaleOk(sc) && 0 <= lo && lo + c <= |vals|
    requires VertexRun(v, vals, sc, lo, c) && 0 <= j < c
    ensures FirstIndexOf(v, Vertex(vals, lo + j, sc)) == j
  {
    forall k | 0 <= k < |v| && k != j
      ensures v[k].x != Vertex(vals, lo + j, sc).x
    {
      if k < j {
        XPosForPointStrictlyIncreasing(lo + k, lo + j, sc.d);
      } else {
        XPosForPointStrictlyIncreasing(lo + j, lo + k, sc.d);
      }
    }
    FirstIndexOfUniqueX(v, j, Vertex(vals, lo + j, sc));
  }

  /** The scene after generating sample i at the back (toLast) or at the
      front: its proxies are cached, its vertex added, and both proxies put on
      the host when the sample is decimated in. */
  function Admitted(scene: Scene, vals: seq<PointValue>, sc: Scale, i: int, toLast: bool): Scene
    requires ScaleOk(sc) && 0 <= i < |vals| && scene.vertices.Some?
  {
    var shown := IsShown(i, sc.d);
    Scene(if toLast then scene.points + [PointChild(i)] else [PointChild(i)] + scene.points,
          if toLast then scene.labels + [LabelXChild(i)] else [LabelXChild(i)] + scene.labels,
          Some(if toLast then scene.vertices.value + [Vertex(vals, i, sc)] else [Vertex(vals, i, sc)] + scene.vertices.value),
          if shown then scene.pointCanvas + {PointChild(i)} else scene.pointCanvas,
          if shown then scene.labelCanvas + {LabelXChild(i)} else scene.labelCanvas)
  }

  /** Generating sample lo + c at the back extends the run by one. */
  lemma ShowsPushBack(scene: Scene, vals: seq<PointValue>, sc: Scale, lo: int, c: int)
    requires Shows(scene, vals, sc, lo, c) && lo + c < |vals| && scene.vertices.Some?
    ensures Shows(Admitted(scene, vals, sc, lo + c, true), vals, sc, lo, c + 1)
  {
    var i := lo + c;
    var after := Admitted(scene, vals, sc, i, true);
    assert after.points == scene.points + [PointChild(i)];
    assert after.labels == scene.labels + [LabelXChild(i)];
    assert after.vertices.value == scene.vertices.value + [Vertex(vals, i, sc)];
  }

  /** The scene once a polyline exists: a missing one counts as empty. */
  function WithLine(scene: Scene): Scene
  {
    scene.(vertices := Some(if scene.vertices.Some? then scene.vertices.value else []))
  }

  /** Creating an empty polyline keeps a run shown: only an empty run can lack one. */
  lemma ShowsWithLine(scene: Scene, vals: seq<PointValue>, sc: Scale, lo: int, c: int)
    requires Shows(scene, vals, sc, lo, c)
    ensures Shows(WithLine(scene), vals, sc, lo, c)
  {
  }

  /** Creating the polyline when missing and then generating sample lo + c
      at the back extends the run by one; stated for a named successor scene. */
  lemma ShowsPushBackWithLineTo(scene: Scene, after: Scene, vals: seq<PointValue>, sc: Scale, lo: int, c: int)
    requires Shows(scene, vals, sc, lo, c) && lo + c < |vals|
    requires after == Admitted(WithLine(scene), vals, sc, lo + c, true)
    ensures Shows(after, vals, sc, lo, c + 1)
  {
    ShowsWithLine(scene, vals, sc, lo, c);
    ShowsPushBack(WithLine(scene), vals, sc, lo, c);
  }

  /** Generating sample lo - 1 at the front extends the run by one downwards. */
  lemma ShowsPushFront(scene: Scene, vals: seq<PointValue>, sc: Scale, lo: int, c: int)
    requires Shows(scene, vals, sc, lo, c) && 1 <= lo <= |vals| && scene.vertices.Some?
    ensures Shows(Admitted(scene, vals, sc, lo - 1, false), vals, sc, lo - 1, c + 1)
  {
    var v := scene.vertices.value;
    var v' := [Vertex(vals, lo - 1, sc)] + v;
    var after := Admitted(scene, vals, sc, lo - 1, false);
    assert after.points == [PointChild(lo - 1)] + scene.points;
    assert after.labels == [LabelXChild(lo - 1)] + scene.labels;
    assert after.vertices.value == v';
    forall k | 1 <= k < c + 1
      ensures v'[k] == Vertex(vals, lo - 1 + k, sc)
    {
      assert v'[k] == v[k - 1];
    }
  }

  /** The scene after evicting sample i from the front (fromFront) or the
      back: slot 0 or the last slot of both caches goes, both proxies leave
      the host, and the polyline becomes `v'`. */
  function Evicted(scene: Scene, i: int, v': seq<Vec>, fromFront: bool): Scene
    requires |scene.points| > 0 && |scene.labels| > 0
  {
    Scene(if fromFront then scene.points[1..] else scene.points[..|scene.points| - 1],
          if fromFront then scene.labels[1..] else scene.labels[..|scene.labels| - 1],
          Some(v'),
          scene.pointCanvas - {PointChild(i)}, scene.labelCanvas - {LabelXChild(i)})
  }

  /** Evicting the front sample: its by-value vertex lookup removes slot 0,
      and the run starts one later. */
  lemma ShowsPopFront(scene: Scene, vals: seq<PointValue>, sc: Scale, lo: int, c: int)
    requires Shows(scene, vals, sc, lo, c) && c > 0
    ensures RemoveFirst(scene.vertices.value, Vertex(vals, lo, sc)) == scene.vertices.value[1..]
    ensures Shows(Evicted(scene, lo, scene.vertices.value[1..], true), vals, sc, lo + 1, c - 1)
  {
    VertexLookupHitsOwnSlot(scene.vertices.value, vals, sc, lo, c, 0);
    var after := Evicted(scene, lo, scene.vertices.value[1..], true);
    assert after.points == scene.points[1..] && after.labels == scene.labels[1..];
  }

  /** Evicting the back sample: its by-value vertex lookup removes the last
      slot, and the run ends one earlier. */
  lemma ShowsPopBack(scene: Scene, vals: seq<PointValue>, sc: Scale, lo: int, c: int)
    requires Shows(scene, vals, sc, lo, c) && c > 0
    ensures RemoveFirst(scene.vertices.value, Vertex(vals, lo + c - 1, sc)) == scene.vertices.value[..c - 1]
    ensures Shows(Evicted(scene, lo + c - 1, scene.vertices.value[..c - 1], false), vals, sc, lo, c - 1)
  {
    var v := scene.vertices.value;
    VertexLookupHitsOwnSlot(v, vals, sc, lo, c, c - 1);
    assert v[..c - 1] + v[c..] == v[..c - 1];
    ShowsTrimBack(scene, vals, sc, lo, c);
  }

  lemma ShowsTrimBack(scene: Scene, vals: seq<PointValue>, sc: Scale, lo: int, c: int)
    requires Shows(scene, vals, sc, lo, c) && c > 0
    ensures Shows(Evicted(scene, lo + c - 1, scene.vertices.value[..c - 1], false), vals, sc, lo, c - 1)
  {
    var after := Evicted(scene, lo + c - 1, scene.vertices.value[..c - 1], false);
    assert after.points == scene.points[..c - 1] && after.labels == scene.labels[..c - 1];
    assert VertexRun(after.vertices.value, vals, sc, lo, c - 1);
  }

  /** A rescale in Y keeps everything but the vertices, which follow the new yMax. */
  lemma ShowsRescaled(scene: Scene, vals: seq<PointValue>, sc: Scale, yMax': real, v': seq<Vec>, lo: int, c: int)
    requires Shows(scene, vals, sc, lo, c) && yMax' != 0.0 && scene.vertices.Some?
    requires VertexRun(v', vals, sc.(yMax := yMax'), lo, c)
    ensures Shows(scene.(vertices := Some(v')), vals, sc.(yMax := yMax'), lo, c)
  {
  }

  /** Rearranging in ascending order: slots [0, j) of the vertex list hold
      the run at the new yMax, slots [j, c) still hold it at the old scale. */
  ghost predicate MixedRun(v: seq<Vec>, vals: seq<PointValue>, sc: Scale, yMax': real, lo: int, c: int, j: int)
    requires ScaleOk(sc) && yMax' != 0.0 && 0 <= lo && (c <= 0 || lo + c <= |vals|)
  {
    |v| == c && 0 <= j <= c &&
    (forall k :: 0 <= k < j ==> v[k] == Vertex(vals, lo + k, sc.(yMax := yMax'))) &&
    (forall k :: j <= k < c ==> v[k] == Vertex(vals, lo + k, sc))
  }

  /** One rearrange step: the by-value lookup of the old vertex of sample
      lo + j finds slot j, and overwriting it advances the mixed run. */
  lemma {:induction false} MixedRunStep(v: seq<Vec>, vals: seq<PointValue>, sc: Scale, yMax': real, lo: int, c: int, j: int)
    requires ScaleOk(sc) && yMax' != 0.0 && 0 <= lo && lo + c <= |vals| && j < c
    requires MixedRun(v, vals, sc, yMax', lo, c, j)
    ensures FirstIndexOf(v, Vertex(vals, lo + j, sc)) == j
    ensures MixedRun(v[j := Vertex(vals, lo + j, sc.(yMax := yMax'))], vals, sc, yMax', lo, c, j + 1)
  {
    forall k | 0 <= k < |v| && k != j
      ensures v[k].x != Vertex(vals, lo + j, sc).x
    {
      if k < j {
        assert v[k].x == XPosForPoint(lo + k, sc.d);
        XPosForPointStrictlyIncreasing(lo + k, lo + j, sc.d);
      } else {
        XPosForPointStrictlyIncreasing(lo + j, lo + k, sc.d);
      }
    }
    FirstIndexOfUniqueX(v, j, Vertex(vals, lo + j, sc));
  }
}
