/** ElementCacheCollection and GraphElementCache: the ordered lists of live
    proxies the engine keeps, each element with a status record. */
module ElementCache {
  import opened Geometry
  import opened Canvas
  import opened PolyLine

  /** The elements of a list, as a set. */
  ghost function Elements<E>(s: seq<E>): set<E>
  {
    set e | e in s
  }

  /** No element is listed twice. */
  ghost predicate Distinct<E>(s: seq<E>)
  {
    forall i, j :: 0 <= i < j < |s| ==> s[i] != s[j]
  }

  /** A list plus a dictionary from each element to its CanvasChildStatus.
      The status object is modelled by its one flag, IsAttachedToParent,
      stored under the element it belongs to. */
  class ElementCacheCollection<E(==)> {
    var elements: seq<E>
    var states: map<E, bool>

    /** The dictionary has an entry for exactly the listed elements. */
    ghost predicate Keyed()
      reads this
    {
      states.Keys == Elements(elements)
    }

    /** Keyed, and no element is listed twice. */
    ghost predicate Valid()
      reads this
    {
      Distinct(elements) && Keyed()
    }

    constructor()
      ensures elements == [] && states == map[]
      ensures Valid()
    {
      elements := [];
      states := map[];
    }

    /** AddElementToCache: append (or insert at slot 0) and store a fresh
        status, whose flag starts false. */
    method AddElementToCache(e: E, toLast: bool)
      modifies this
      ensures elements == if toLast then old(elements) + [e] else [e] + old(elements)
      ensures states == old(states)[e := false]
      ensures GetElementStat(e) == Some(false)
      ensures old(Keyed()) ==> Keyed()
      ensures old(Valid()) && e !in old(elements) ==> Valid()
    {
      if toLast {
        elements := elements + [e];
      } else {
        elements := [e] + elements;
      }
      states := states[e := false];
    }

    /** GetElementStat: the dictionary indexer, which throws on a missing key.
        While the dictionary is keyed by the list, exactly the listed
        elements have a status. */
    function GetElementStat(e: E): (r: Option<bool>)
      reads this
      ensures Keyed() ==> (r.Some? <==> e in elements)
    {
      if e in states then Some(states[e]) else None
    }

    /** Sets the flag of a listed element's status record. */
    method SetAttached(e: E, attached: bool)
      requires e in states
      modifies this
      ensures states == old(states)[e := attached]
      ensures GetElementStat(e) == Some(attached)
      ensures elements == old(elements)
      ensures old(Keyed()) ==> Keyed()
      ensures old(Valid()) ==> Valid()
    {
      states := states[e := attached];
    }

    /** RemoveElementAt: drop the dictionary entry of slot i, then slot i;
        out of range throws. */
    method RemoveElementAt(i: int) returns (ok: bool)
      modifies this
      ensures ok <==> 0 <= i < |old(elements)|
      ensures ok ==> elements == old(elements)[..i] + old(elements)[i + 1..]
      ensures ok ==> states == old(states) - {old(elements)[i]}
      ensures !ok ==> elements == old(elements) && states == old(states)
      ensures old(Valid()) ==> Valid()
    {
      if !(0 <= i < |elements|) {
        ok := false;
        return;
      }
      ghost var before := elements;
      states := states - {elements[i]};
      elements := elements[..i] + elements[i + 1..];
      ok := true;
      if old(Valid()) {
        RemoveKeepsValid(before, i);
      }
    }

    method ClearCache()
      modifies this
      ensures elements == [] && states == map[]
      ensures Valid()
    {
      elements := [];
      states := map[];
    }
  }

  /** Removing slot i of a duplicate-free list removes exactly that element. */
  lemma {:induction false} RemoveKeepsValid<E>(s: seq<E>, i: int)
    requires 0 <= i < |s| && Distinct(s)
    ensures Distinct(s[..i] + s[i + 1..])
    ensures Elements(s[..i] + s[i + 1..]) == Elements(s) - {s[i]}
  {
    var t := s[..i] + s[i + 1..];
    assert forall k :: 0 <= k < |t| ==> t[k] == if k < i then s[k] else s[k + 1];
    forall x | x in Elements(t)
      ensures x in Elements(s) - {s[i]}
    {
      var k :| 0 <= k < |t| && t[k] == x;
    }
    forall x | x in Elements(s) - {s[i]}
      ensures x in Elements(t)
    {
      var k :| 0 <= k < |s| && s[k] == x;
      if k < i { assert t[k] == x; } else { assert t[k - 1] == x; }
    }
  }

  /** GraphElementCache: the polyline, the three proxy caches and the popup
      cache of one graph. The semaphore is not part of this model. */
  class GraphElementCache {
    var lineConnectionDrawer: PolyLine?
    const labelXDrawers: ElementCacheCollection<Child>
    const labelYDrawers: ElementCacheCollection<Child>
    const pointDrawers: ElementCacheCollection<Child>
    var pointDetailLabelCache: Option<Child>
    var pointDetailMousePos: Vec

    ghost predicate Distinct3()
    {
      labelXDrawers != labelYDrawers && labelXDrawers != pointDrawers && labelYDrawers != pointDrawers
    }

    constructor()
      ensures lineConnectionDrawer == null
      ensures Distinct3() && fresh(labelXDrawers) && fresh(labelYDrawers) && fresh(pointDrawers)
      ensures labelXDrawers.elements == [] && labelXDrawers.states == map[]
      ensures labelYDrawers.elements == [] && labelYDrawers.states == map[]
      ensures pointDrawers.elements == [] && pointDrawers.states == map[]
      ensures pointDetailLabelCache == None && pointDetailMousePos == Vec(0.0, 0.0)
    {
      lineConnectionDrawer := null;
      labelXDrawers := new ElementCacheCollection<Child>();
      labelYDrawers := new ElementCacheCollection<Child>();
      pointDrawers := new ElementCacheCollection<Child>();
      pointDetailLabelCache := None;
      pointDetailMousePos := Vec(0.0, 0.0);
    }

    /** Clear: drops the polyline, empties the three caches, resets the popup cache. */
    method Clear()
      requires Distinct3()
      modifies this, labelXDrawers, labelYDrawers, pointDrawers
      ensures lineConnectionDrawer == null
      ensures labelXDrawers.elements == [] && labelXDrawers.states == map[]
      ensures labelYDrawers.elements == [] && labelYDrawers.states == map[]
      ensures pointDrawers.elements == [] && pointDrawers.states == map[]
      ensures pointDetailLabelCache == None && pointDetailMousePos == Vec(0.0, 0.0)
    {
      lineConnectionDrawer := null;
      pointDrawers.ClearCache();
      labelXDrawers.ClearCache();
      labelYDrawers.ClearCache();
      pointDetailLabelCache := None;
      pointDetailMousePos := Vec(0.0, 0.0);
    }
  }
}
