/** CanvasHolderProxy: attach, detach and clear a holder's children while
    keeping each child's IsAttachedToParent flag in step. A child's status
    record is the entry `cache.states[child]` of the cache that owns it. */
module CanvasProxy {
  import opened Geometry
  import opened Canvas
  import opened ElementCache

  /** AddCanvasChildAndAssignNewState: AddChild, then set the flag, whatever AddChild returned. */
  method AddCanvasChildAndAssignNewState<C(==)>(holder: CanvasHolder<C>, cache: ElementCacheCollection<C>, child: C)
    requires child in cache.states
    modifies holder, cache
    ensures holder.children == old(holder.children) + {child}
    ensures holder.tracked == if child in old(holder.children) then old(holder.tracked) else old(holder.tracked) + {child}
    ensures holder.position == old(holder.position)
    ensures cache.states == old(cache.states)[child := true]
    ensures cache.elements == old(cache.elements)
  {
    var added := holder.AddChild(child);
    cache.SetAttached(child, true);
  }

  /** RemoveCanvasChildAndAssignNewState: RemoveChild, then clear the flag, whatever RemoveChild returned. */
  method RemoveCanvasChildAndAssignNewState<C(==)>(holder: CanvasHolder<C>, cache: ElementCacheCollection<C>, child: C)
    requires child in cache.states
    modifies holder, cache
    ensures holder.children == old(holder.children) - {child}
    ensures holder.tracked == if child in old(holder.children) then old(holder.tracked) - {child} else old(holder.tracked)
    ensures holder.position == old(holder.position)
    ensures cache.states == old(cache.states)[child := false]
    ensures cache.elements == old(cache.elements)
  {
    var removed := holder.RemoveChild(child);
    cache.SetAttached(child, false);
  }

  /** ClearAllChildAndAssignNewState: clear the holder and clear the flag of
      every child it reports; a reported child without a status record makes
      the dictionary lookup throw part-way. */
  method ClearAllChildAndAssignNewState<C(==)>(holder: CanvasHolder<C>, cache: ElementCacheCollection<C>) returns (ok: bool)
    modifies holder, cache
    ensures holder.children == {} && holder.tracked == {}
    ensures holder.position == old(holder.position)
    ensures ok <==> old(holder.children) <= old(cache.states).Keys
    ensures cache.elements == old(cache.elements)
    ensures cache.states.Keys == old(cache.states).Keys
    ensures ok ==> forall e :: e in cache.states ==>
      cache.states[e] == (if e in old(holder.children) then false else old(cache.states)[e])
    ensures !ok ==> forall e :: e in cache.states ==>
      cache.states[e] == old(cache.states)[e] || (e in old(holder.children) && !cache.states[e])
  {
    var cleared := holder.ClearReturningRemoved();
    var rest := cleared;
    while rest != {}
      invariant rest <= cleared
      invariant cleared - rest <= old(cache.states).Keys
      invariant cache.elements == old(cache.elements)
      invariant cache.states.Keys == old(cache.states).Keys
      invariant forall e :: e in cache.states ==>
        cache.states[e] == (if e in cleared - rest then false else old(cache.states)[e])
      invariant holder.children == {} && holder.tracked == {} && holder.position == old(holder.position)
      decreases rest
    {
      var child :| child in rest;
      var status := cache.GetElementStat(child);
      if status.None? {
        ok := false;
        return;
      }
      cache.SetAttached(child, false);
      rest := rest - {child};
    }
    ok := true;
  }
}
