/** CanvasHolderImpl and GraphContainerImpl: a host canvas reduced to the set
    of children on it, plus the set the holder tracks beside the canvas. */
module Canvas {
  import opened Geometry

  /** The host children the engine creates. Point and label proxies are named
      by the sample index they draw; the polyline is a single child. */
  datatype Child = PointChild(index: int) | LabelXChild(index: int) | PolyLineChild

  class CanvasHolder<C(==)> {
    /** mChildCanvas.Children: what is on screen. */
    var children: set<C>
    /** mChildrens: the HashSet the holder keeps beside the canvas. */
    var tracked: set<C>
    /** Last position given to SetCanvasPosition. */
    var position: Vec

    /** Every child on the canvas is tracked. */
    ghost predicate Valid()
      reads this
    {
      children <= tracked
    }

    constructor()
      ensures children == {} && tracked == {} && position == Vec(0.0, 0.0)
      ensures Valid()
    {
      children := {};
      tracked := {};
      position := Vec(0.0, 0.0);
    }

    /** AddChild: refuses a child already on the canvas, otherwise puts it on
        the canvas and in the tracked set. */
    method AddChild(c: C) returns (added: bool)
      modifies this
      ensures added <==> c !in old(children)
      ensures children == old(children) + {c}
      ensures tracked == if added then old(tracked) + {c} else old(tracked)
      ensures position == old(position)
      ensures old(Valid()) ==> Valid()
    {
      if c !in children {
        children := children + {c};
        tracked := tracked + {c};
        added := true;
      } else {
        added := false;
      }
    }

    /** RemoveChild: the mirror image of AddChild. */
    method RemoveChild(c: C) returns (removed: bool)
      modifies this
      ensures removed <==> c in old(children)
      ensures children == old(children) - {c}
      ensures tracked == if removed then old(tracked) - {c} else old(tracked)
      ensures position == old(position)
      ensures old(Valid()) ==> Valid()
    {
      if c in children {
        children := children - {c};
        tracked := tracked - {c};
        removed := true;
      } else {
        removed := false;
      }
    }

    /** Clear, as written: empties the canvas and returns the tracked set
        without emptying it, so children cleared earlier are reported again. */
    method Clear() returns (cleared: set<C>)
      modifies this
      ensures children == {}
      ensures tracked == old(tracked) && cleared == old(tracked)
      ensures position == old(position)
      ensures Valid()
    {
      children := {};
      cleared := tracked;
    }

    /** Clear as the interface documents it: returns exactly the children it
        took off the canvas, and forgets them. */
    method ClearReturningRemoved() returns (cleared: set<C>)
      modifies this
      ensures cleared == old(children)
      ensures children == {} && tracked == {}
      ensures position == old(position)
      ensures Valid()
    {
      cleared := children;
      children := {};
      tracked := {};
    }

    method SetCanvasPosition(p: Vec)
      modifies this
      ensures position == p
      ensures children == old(children) && tracked == old(tracked)
    {
      position := p;
    }
  }

  /** A child put on a holder and cleared once is still reported by a second
      Clear, although the canvas was already empty. */
  method ClearTwiceReportsStaleChild() returns (first: set<int>, second: set<int>, onCanvasBefore: set<int>)
    ensures first == {7}
    ensures onCanvasBefore == {}
    ensures second == {7}
  {
    var holder := new CanvasHolder<int>();
    var added := holder.AddChild(7);
    first := holder.Clear();
    onCanvasBefore := holder.children;
    second := holder.Clear();
  }

  /** The documented Clear reports nothing on the second call. */
  method ClearReturningRemovedTwice() returns (first: set<int>, second: set<int>)
    ensures first == {7}
    ensures second == {}
  {
    var holder := new CanvasHolder<int>();
    var added := holder.AddChild(7);
    first := holder.ClearReturningRemoved();
    second := holder.ClearReturningRemoved();
  }

  /** GraphContainerImpl: six holders over one container canvas of fixed size. */
  class GraphContainer {
    const pointAndLine: CanvasHolder<Child>
    const labelX: CanvasHolder<Child>
    const labelY: CanvasHolder<Child>
    const axis: CanvasHolder<Child>
    const gridDash: CanvasHolder<Child>
    const popup: CanvasHolder<Child>
    const graphWidth: int
    const graphHeight: real

    ghost predicate Distinct()
    {
      pointAndLine != labelX && pointAndLine != labelY && pointAndLine != axis &&
      pointAndLine != gridDash && pointAndLine != popup &&
      labelX != labelY && labelX != axis && labelX != gridDash && labelX != popup &&
      labelY != axis && labelY != gridDash && labelY != popup &&
      axis != gridDash && axis != popup && gridDash != popup
    }

    ghost function Holders(): set<object>
    {
      {pointAndLine, labelX, labelY, axis, gridDash, popup}
    }

    constructor(graphWidth: int, graphHeight: real)
      ensures this.graphWidth == graphWidth && this.graphHeight == graphHeight
      ensures Distinct() && fresh(Holders())
      ensures pointAndLine.children == {} && labelX.children == {} && labelY.children == {}
      ensures axis.children == {} && gridDash.children == {} && popup.children == {}
      ensures forall h :: h in Holders() ==> h is CanvasHolder<Child> && (h as CanvasHolder<Child>).Valid()
    {
      this.graphWidth := graphWidth;
      this.graphHeight := graphHeight;
      pointAndLine := new CanvasHolder<Child>();
      labelX := new CanvasHolder<Child>();
      labelY := new CanvasHolder<Child>();
      axis := new CanvasHolder<Child>();
      gridDash := new CanvasHolder<Child>();
      popup := new CanvasHolder<Child>();
    }

    /** IGraphContainer.Clear: clears five holders; the popup holder is kept. */
    method Clear()
      requires Distinct()
      modifies pointAndLine, labelX, labelY, axis, gridDash
      ensures pointAndLine.children == {} && labelX.children == {} && labelY.children == {}
      ensures axis.children == {} && gridDash.children == {}
      ensures pointAndLine.position == old(pointAndLine.position) && labelX.position == old(labelX.position)
      ensures labelY.position == old(labelY.position) && axis.position == old(axis.position) && gridDash.position == old(gridDash.position)
    {
      var cleared := pointAndLine.ClearReturningRemoved();
      cleared := labelX.ClearReturningRemoved();
      cleared := labelY.ClearReturningRemoved();
      cleared := axis.ClearReturningRemoved();
      cleared := gridDash.ClearReturningRemoved();
    }
  }
}
