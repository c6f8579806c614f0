/** GraphPolyLineImpl: the WPF polyline that connects the drawn points, reduced
    to its vertex list. Vertices are stored flipped, as (x, H - y). */
module PolyLine {
  import opened Geometry

  /** List<Point>.IndexOf: the first slot holding `x`, or -1. */
  function FirstIndexOf<T(==)>(s: seq<T>, x: T): (r: int)
    ensures -1 <= r < |s|
    ensures r == -1 <==> x !in s
    ensures r >= 0 ==> s[r] == x && x !in s[..r]
  {
    if |s| == 0 then -1
    else if s[0] == x then 0
    else
      var r := FirstIndexOf(s[1..], x);
      assert s[1..][..if r < 0 then 0 else r] == s[1..if r < 0 then 1 else r + 1];
      if r < 0 then -1 else r + 1
  }

  /** List<Point>.Remove: drop the first occurrence of `x`, if any. */
  function RemoveFirst<T(==)>(s: seq<T>, x: T): (r: seq<T>)
  {
    var j := FirstIndexOf(s, x);
    if j < 0 then s else s[..j] + s[j + 1..]
  }

  lemma RemoveFirstShrinksByOne<T>(s: seq<T>, x: T)
    ensures x in s ==> |RemoveFirst(s, x)| == |s| - 1
    ensures x in s ==> multiset(RemoveFirst(s, x)) == multiset(s) - multiset{x}
    ensures x !in s ==> RemoveFirst(s, x) == s
  {
    var j := FirstIndexOf(s, x);
    if j >= 0 {
      assert s == s[..j] + [s[j]] + s[j + 1..];
    }
  }

  /** Removing a vertex that was just appended, and occurs nowhere else, undoes the append. */
  lemma RemoveFirstUndoesAppend<T>(s: seq<T>, x: T)
    requires x !in s
    ensures RemoveFirst(s + [x], x) == s
  {
    assert (s + [x])[..|s|] == s;
  }

  /** ...and likewise for a vertex that was just prepended. */
  lemma RemoveFirstUndoesPrepend<T>(s: seq<T>, x: T)
    ensures RemoveFirst([x] + s, x) == s
  {
    assert ([x] + s)[1..] == s;
  }

  class PolyLine {
    var points: seq<Vec>
    /** Height of the container canvas used by GetReversePosForPoint. */
    const canvasHeight: real

    constructor(canvasHeight: real)
      ensures this.canvasHeight == canvasHeight
      ensures points == []
    {
      this.canvasHeight := canvasHeight;
      points := [];
    }

    /** AddNewPoint: append or prepend the flipped point; returns the slot it went to. */
    method AddNewPoint(p: Vec, toLast: bool) returns (index: int)
      modifies this
      ensures toLast ==> points == old(points) + [ReversePos(p, canvasHeight)]
      ensures !toLast ==> points == [ReversePos(p, canvasHeight)] + old(points)
      ensures 0 <= index < |points| && points[index] == ReversePos(p, canvasHeight)
      ensures index == (if toLast then |old(points)| else 0)
    {
      var reversed := ReversePos(p, canvasHeight);
      if toLast {
        points := points + [reversed];
        index := |points| - 1;
      } else {
        points := [reversed] + points;
        index := 0;
      }
    }

    /** ChangePointPosition(oldPos, newPos): overwrite the first vertex equal to
        the flipped old position; an absent vertex makes the write throw. */
    method ChangePointPositionByValue(oldPos: Vec, newPos: Vec) returns (ok: bool)
      modifies this
      ensures ok <==> ReversePos(oldPos, canvasHeight) in old(points)
      ensures ok ==> points == old(points)[FirstIndexOf(old(points), ReversePos(oldPos, canvasHeight)) := ReversePos(newPos, canvasHeight)]
      ensures !ok ==> points == old(points)
    {
      var oldPointIndex := FirstIndexOf(points, ReversePos(oldPos, canvasHeight));
      if oldPointIndex < 0 {
        ok := false;
        return;
      }
      points := points[oldPointIndex := ReversePos(newPos, canvasHeight)];
      ok := true;
    }

    /** ChangePointPosition(pointIndex, newPos): overwrite one slot; out of range throws. */
    method ChangePointPositionAt(pointIndex: int, newPos: Vec) returns (ok: bool)
      modifies this
      ensures ok <==> 0 <= pointIndex < |old(points)|
      ensures ok ==> points == old(points)[pointIndex := ReversePos(newPos, canvasHeight)]
      ensures !ok ==> points == old(points)
    {
      if !(0 <= pointIndex < |points|) {
        ok := false;
        return;
      }
      points := points[pointIndex := ReversePos(newPos, canvasHeight)];
      ok := true;
    }

    /** RemovePoint(int): remove one slot; out of range throws. */
    method RemovePointAt(pointIndex: int) returns (ok: bool)
      modifies this
      ensures ok <==> 0 <= pointIndex < |old(points)|
      ensures ok ==> points == old(points)[..pointIndex] + old(points)[pointIndex + 1..]
      ensures !ok ==> points == old(points)
    {
      if !(0 <= pointIndex < |points|) {
        ok := false;
        return;
      }
      points := points[..pointIndex] + points[pointIndex + 1..];
      ok := true;
    }

    /** RemovePoint(Vector2): remove the first vertex equal to the flipped point;
        reports whether there was one. */
    method RemovePointByValue(p: Vec) returns (removed: bool)
      modifies this
      ensures removed <==> ReversePos(p, canvasHeight) in old(points)
      ensures points == RemoveFirst(old(points), ReversePos(p, canvasHeight))
      ensures |points| == |old(points)| - (if removed then 1 else 0)
    {
      var reversed := ReversePos(p, canvasHeight);
      RemoveFirstShrinksByOne(points, reversed);
      removed := reversed in points;
      points := RemoveFirst(points, reversed);
    }
  }

  /** The by-value overwrite hits slot `j` when the vertex there is the only one
      with its x-coordinate (the engine's vertices have pairwise distinct x). */
  lemma FirstIndexOfUniqueX(s: seq<Vec>, j: int, v: Vec)
    requires 0 <= j < |s| && s[j] == v
    requires forall k :: 0 <= k < |s| && k != j ==> s[k].x != v.x
    ensures FirstIndexOf(s, v) == j
  {
    var r := FirstIndexOf(s, v);
    assert r >= 0 && s[r] == v;
  }
}
