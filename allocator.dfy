/** The unit-identifier allocator: the pair (unit mapping, pool of released
    units) and the three ways the pipeline changes it — drawing a unit
    (`get_next_unit_id`), the per-incident allocate-or-release rule of
    `process_center_data`, and the re-assignment step of `main`. The state
    lives in `CenterProcessor.RunState`; the functions here say what each
    step does to it, and the lemmas what the steps preserve. */
module Allocator {
  import opened Values
  import opened UnitNames

  /** incidentId -> unitId, and the FIFO pool of released unit ids. */
  datatype Allocation = Allocation(mapping: map<Value, string>, pool: seq<string>)

  predicate Injective(m: map<Value, string>)
  {
    forall a, b :: a in m && b in m && a != b ==> m[a] != m[b]
  }

  predicate Distinct(s: seq<string>)
  {
    forall i, j :: 0 <= i < j < |s| ==> s[i] != s[j]
  }

  /** No unit is held by two incidents, queued twice, or both held and queued. */
  predicate Valid(a: Allocation)
  {
    && Injective(a.mapping)
    && Distinct(a.pool)
    && forall i :: 0 <= i < |a.pool| ==> a.pool[i] !in a.mapping.Values
  }

  /** No incident holds, and the pool does not offer, the empty unit id
      (which `main` treats as "no unit"). */
  predicate Nonblank(a: Allocation)
  {
    "" !in a.mapping.Values && "" !in a.pool
  }

  /** The least i >= from whose name FixedUnit(i) is not in `used`, given that
      all names below `from` are. */
  function LeastFreeIndex(used: set<string>, from: nat): (i: nat)
    requires 1 <= from
    requires forall j :: 1 <= j < from ==> FixedUnit(j) in used
    ensures from <= i && FixedUnit(i) !in used
    ensures forall j :: 1 <= j < i ==> FixedUnit(j) in used
    decreases |used| + 1 - from
  {
    if FixedUnit(from) !in used then from
    else
      MintBound(used, from);
      LeastFreeIndex(used, from + 1)
  }

  /** The scan of `get_next_unit_id` when the pool is empty: try FixedUnit1,
      FixedUnit2, ... until a name not in `used` turns up. */
  method MintUnitId(used: set<string>) returns (u: string)
    ensures u == FixedUnit(LeastFreeIndex(used, 1))
  {
    var i := 1;
    while FixedUnit(i) in used
      invariant 1 <= i
      invariant forall j :: 1 <= j < i ==> FixedUnit(j) in used
      invariant LeastFreeIndex(used, i) == LeastFreeIndex(used, 1)
      decreases |used| + 1 - i
    {
      MintBound(used, i);
      i := i + 1;
    }
    u := FixedUnit(i);
  }

  /** What `get_next_unit_id` returns, and the pool it leaves. */
  datatype Draw = Draw(unit: string, rest: seq<string>)

  function NextUnit(a: Allocation): Draw
  {
    if a.pool != [] then Draw(a.pool[0], a.pool[1..])
    else Draw(FixedUnit(LeastFreeIndex(a.mapping.Values, 1)), [])
  }

  /** Pool first, in FIFO order; otherwise the least-indexed FixedUnit name
      that no incident holds. */
  lemma NextUnitChoice(a: Allocation)
    ensures a.pool != [] ==> NextUnit(a) == Draw(a.pool[0], a.pool[1..])
    ensures a.pool == [] ==>
      && NextUnit(a).rest == []
      && exists i :: 1 <= i && NextUnit(a).unit == FixedUnit(i) &&
           FixedUnit(i) !in a.mapping.Values &&
           forall j :: 1 <= j < i ==> FixedUnit(j) in a.mapping.Values
  {
    if a.pool == [] {
      var i := LeastFreeIndex(a.mapping.Values, 1);
      assert NextUnit(a).unit == FixedUnit(i);
    }
  }

  /** The drawn unit is held by no incident and is no longer in the pool, and
      the state minus that unit is still valid. */
  lemma NextUnitFresh(a: Allocation)
    requires Valid(a)
    ensures NextUnit(a).unit !in a.mapping.Values
    ensures NextUnit(a).unit !in NextUnit(a).rest
    ensures Valid(Allocation(a.mapping, NextUnit(a).rest))
    ensures Nonblank(a) ==> NextUnit(a).unit != "" && Nonblank(Allocation(a.mapping, NextUnit(a).rest))
  {
    if a.pool != [] {
      assert a.pool[0] in a.pool;
      forall k | 0 <= k < |a.pool| - 1
        ensures a.pool[1..][k] != a.pool[0]
      {
        assert a.pool[1..][k] == a.pool[k + 1];
      }
    }
  }

  /** The rule of `process_center_data` for one surviving incident: an unmapped
      incident is given a unit (whether or not it has cleared); a mapped one
      with a clear time gives its unit back to the tail of the pool; any other
      is left alone. */
  function UpdateUnits(a: Allocation, id: Value, cleared: bool): Allocation
  {
    if id !in a.mapping then
      var d := NextUnit(a);
      Allocation(a.mapping[id := d.unit], d.rest)
    else if cleared then
      Allocation(a.mapping - {id}, a.pool + [a.mapping[id]])
    else
      a
  }

  lemma UpdateUnitsOutcome(a: Allocation, id: Value, cleared: bool)
    ensures var r := UpdateUnits(a, id, cleared);
      && (id !in a.mapping ==> id in r.mapping && r.mapping[id] == NextUnit(a).unit)
      && (id in a.mapping && cleared ==>
            id !in r.mapping && r.pool != [] && r.pool[|r.pool| - 1] == a.mapping[id] &&
            r.pool[..|r.pool| - 1] == a.pool)
      && (id !in a.mapping ==> r.pool == NextUnit(a).rest)
      && (id in a.mapping && !cleared ==> r == a)
      && (forall other :: other != id ==> (other in r.mapping <==> other in a.mapping))
      && forall other :: other in a.mapping && other != id ==> other in r.mapping && r.mapping[other] == a.mapping[other]
  {
  }

  /** Releasing a unit keeps the state valid: the unit was held only by `id`. */
  lemma ReleasePreservesValid(a: Allocation, id: Value)
    requires Valid(a) && id in a.mapping
    ensures Valid(Allocation(a.mapping - {id}, a.pool + [a.mapping[id]]))
    ensures Nonblank(a) ==> Nonblank(Allocation(a.mapping - {id}, a.pool + [a.mapping[id]]))
  {
    var u := a.mapping[id];
    var m := a.mapping - {id};
    var p := a.pool + [u];
    assert u !in m.Values by {
      forall other | other in m
        ensures m[other] != u
      {
        assert other != id;
      }
    }
    forall k | 0 <= k < |p|
      ensures p[k] !in m.Values
    {
      if k < |a.pool| {
        assert p[k] == a.pool[k];
        assert m.Values <= a.mapping.Values;
      }
    }
    forall i, j | 0 <= i < j < |p|
      ensures p[i] != p[j]
    {
      if j == |a.pool| {
        assert p[i] == a.pool[i];
        assert a.pool[i] !in a.mapping.Values;
      }
    }
  }

  /** Binding a fresh unit to an incident keeps the state valid. */
  lemma BindPreservesValid(a: Allocation, id: Value)
    requires Valid(a)
    ensures Valid(Allocation(a.mapping[id := NextUnit(a).unit], NextUnit(a).rest))
    ensures Nonblank(a) ==> Nonblank(Allocation(a.mapping[id := NextUnit(a).unit], NextUnit(a).rest))
  {
    var d := NextUnit(a);
    NextUnitFresh(a);
    var m := a.mapping[id := d.unit];
    forall x, y | x in m && y in m && x != y
      ensures m[x] != m[y]
    {
      if x != id && y != id {
        assert m[x] == a.mapping[x] && m[y] == a.mapping[y];
      } else if x == id {
        assert m[y] == a.mapping[y] && a.mapping[y] in a.mapping.Values;
      } else {
        assert m[x] == a.mapping[x] && a.mapping[x] in a.mapping.Values;
      }
    }
    forall k | 0 <= k < |d.rest|
      ensures d.rest[k] !in m.Values
    {
      assert d.rest[k] in d.rest;
      assert m.Values <= a.mapping.Values + {d.unit};
    }
  }

  /** The invariant is preserved by the per-incident rule. */
  lemma UpdateUnitsPreservesValid(a: Allocation, id: Value, cleared: bool)
    requires Valid(a)
    ensures Valid(UpdateUnits(a, id, cleared))
    ensures Nonblank(a) ==> Nonblank(UpdateUnits(a, id, cleared))
  {
    if id !in a.mapping {
      BindPreservesValid(a, id);
    } else if cleared {
      ReleasePreservesValid(a, id);
    }
  }

  /** Processing an incident that is still mapped and has not cleared changes
      nothing, however often it is repeated. */
  lemma UpdateUnitsIdempotent(a: Allocation, id: Value, cleared: bool)
    ensures var once := UpdateUnits(a, id, cleared);
      !cleared ==> UpdateUnits(once, id, false) == once && once.pool == a.pool[|a.pool| - |once.pool|..]
  {
    if !cleared && id !in a.mapping && a.pool != [] {
      assert a.pool[1..] == a.pool[|a.pool| - |a.pool[1..]|..];
    }
  }

  /** Release then allocate: with an otherwise empty pool, the next unmapped
      incident receives exactly the unit the cleared incident gave back. */
  lemma ReleaseThenAllocateReuses(a: Allocation, x: Value, y: Value, cleared: bool)
    requires a.pool == [] && x in a.mapping && y !in a.mapping
    ensures var r := UpdateUnits(UpdateUnits(a, x, true), y, cleared);
      y in r.mapping && r.mapping[y] == a.mapping[x] && x !in r.mapping && r.pool == []
  {
    var released := UpdateUnits(a, x, true);
    assert released.pool == [a.mapping[x]];
  }

  /** The step of `main` for one current incident: unless it holds a non-empty
      unit id, it is given `get_next_unit_id()`. */
  function AssignStep(a: Allocation, id: Value): Allocation
  {
    if id in a.mapping && a.mapping[id] != "" then a
    else
      var d := NextUnit(a);
      Allocation(a.mapping[id := d.unit], d.rest)
  }

  /** The step binds `id` to the next unit unless it holds a non-empty one,
      and leaves every other binding as it was. */
  lemma AssignStepOutcome(a: Allocation, id: Value)
    ensures var r := AssignStep(a, id);
      && id in r.mapping
      && (id in a.mapping && a.mapping[id] != "" ==> r == a)
      && (!(id in a.mapping && a.mapping[id] != "") ==> r.mapping[id] == NextUnit(a).unit && r.pool == NextUnit(a).rest)
      && forall x :: x in a.mapping && x != id ==> x in r.mapping && r.mapping[x] == a.mapping[x]
  {
  }

  lemma AssignStepPreservesValid(a: Allocation, id: Value)
    requires Valid(a)
    ensures Valid(AssignStep(a, id))
    ensures Nonblank(a) ==> Nonblank(AssignStep(a, id))
  {
    if !(id in a.mapping && a.mapping[id] != "") {
      BindPreservesValid(a, id);
    }
  }

  /** `main`'s steps in the order the ids are visited. */
  function AssignAll(a: Allocation, order: seq<Value>): Allocation
    decreases |order|
  {
    if order == [] then a else AssignStep(AssignAll(a, order[..|order| - 1]), order[|order| - 1])
  }

  /** After the re-assignment loop every visited incident holds a unit, no
      incident that held one lost it, and the invariant still holds. */
  lemma {:induction false} AssignAllCovers(a: Allocation, order: seq<Value>)
    requires Valid(a) && Nonblank(a)
    ensures var r := AssignAll(a, order);
      && Valid(r) && Nonblank(r)
      && (forall k :: 0 <= k < |order| ==> order[k] in r.mapping)
      && (forall id :: id in a.mapping ==> id in r.mapping && (a.mapping[id] != "" ==> r.mapping[id] == a.mapping[id]))
    decreases |order|
  {
    if order != [] {
      var init := order[..|order| - 1];
      AssignAllCovers(a, init);
      var mid := AssignAll(a, init);
      AssignStepPreservesValid(mid, order[|order| - 1]);
      forall k | 0 <= k < |order| - 1
        ensures order[k] in AssignAll(a, order).mapping
      {
        assert order[k] == init[k];
      }
    }
  }
}
