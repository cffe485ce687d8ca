/** The per-platform tracking dictionaries that the setup routines keep in the
    config entry's data: `data[platform][vehicle_id][key] = entity`. */
module Registry {
  import opened Json

  /** vehicle id -> (entity key -> entity) */
  type Table<E> = map<string, map<string, E>>

  /** One assignment `table[vehicleId][key] = entity`. */
  datatype Entry<E> = Entry(vehicleId: string, key: string, entity: E)

  /** The slot `data[platform]` of the entry's data dict; `table` is None while the
      key is absent. Setup routines fill it in place. */
  class Tracking<E> {
    var table: Option<Table<E>>

    constructor (initial: Option<Table<E>>)
      ensures table == initial
    {
      table := initial;
    }
  }

  /** The tracking dict, or a fresh empty one when it was not there yet. */
  function TableOrEmpty<E>(t: Option<Table<E>>): Table<E>
  {
    if t.Some? then t.value else map[]
  }

  /** `if vehicle_id not in table: table[vehicle_id] = {}` */
  function EnsureVehicle<E>(t: Table<E>, vehicleId: string): Table<E>
  {
    if vehicleId in t then t else t[vehicleId := map[]]
  }

  /** EnsureVehicle for each id in turn. */
  function EnsureVehicles<E>(t: Table<E>, ids: seq<string>): Table<E>
  {
    if ids == [] then t else EnsureVehicle(EnsureVehicles(t, ids[..|ids| - 1]), ids[|ids| - 1])
  }

  /** `table[vehicle_id][key] = entity` */
  function Put<E>(t: Table<E>, e: Entry<E>): Table<E>
  {
    var inner := if e.vehicleId in t then t[e.vehicleId] else map[];
    t[e.vehicleId := inner[e.key := e.entity]]
  }

  /** One assignment fills its own slot, may add its vehicle's map, and leaves
      every other slot as it was. */
  lemma PutLookup<E>(t: Table<E>, e: Entry<E>, vehicleId: string, key: string)
    ensures Put(t, e).Keys == t.Keys + {e.vehicleId}
    ensures Lookup(Put(t, e), vehicleId, key)
         == if vehicleId == e.vehicleId && key == e.key then Some(e.entity) else Lookup(t, vehicleId, key)
  {
  }

  /** Creating a vehicle's map adds its id, keeps every existing map, and a new
      map is empty. */
  lemma EnsureVehicleKeeps<E>(t: Table<E>, vehicleId: string)
    ensures EnsureVehicle(t, vehicleId).Keys == t.Keys + {vehicleId}
    ensures forall id | id in t :: EnsureVehicle(t, vehicleId)[id] == t[id]
    ensures vehicleId !in t ==> EnsureVehicle(t, vehicleId)[vehicleId] == map[]
  {
  }

  /** The assignments of `es`, in order. */
  function PutAll<E>(t: Table<E>, es: seq<Entry<E>>): Table<E>
  {
    if es == [] then t else Put(PutAll(t, es[..|es| - 1]), es[|es| - 1])
  }

  function Lookup<E>(t: Table<E>, vehicleId: string, key: string): Option<E>
  {
    if vehicleId in t && key in t[vehicleId] then Some(t[vehicleId][key]) else None
  }

  /** The entity of the last assignment to (vehicleId, key) in `es`, if any. */
  function LastAssigned<E>(es: seq<Entry<E>>, vehicleId: string, key: string): Option<E>
  {
    if es == [] then None
    else if es[|es| - 1].vehicleId == vehicleId && es[|es| - 1].key == key then Some(es[|es| - 1].entity)
    else LastAssigned(es[..|es| - 1], vehicleId, key)
  }

  function VehicleIds<E>(es: seq<Entry<E>>): set<string>
  {
    set i | 0 <= i < |es| :: es[i].vehicleId
  }

  lemma PutAllSnoc<E>(t: Table<E>, es: seq<Entry<E>>, e: Entry<E>)
    ensures PutAll(t, es + [e]) == Put(PutAll(t, es), e)
  {
    assert (es + [e])[..|es|] == es;
  }

  lemma EnsureVehiclesSnoc<E>(t: Table<E>, ids: seq<string>, id: string)
    ensures EnsureVehicles(t, ids + [id]) == EnsureVehicle(EnsureVehicles(t, ids), id)
  {
    assert (ids + [id])[..|ids|] == ids;
  }

  /** After the assignments, (vehicleId, key) holds the last entity assigned to it;
      when nothing was assigned to it, what it held before is kept. */
  lemma {:induction false} PutAllLookup<E>(t: Table<E>, es: seq<Entry<E>>, vehicleId: string, key: string)
    ensures Lookup(PutAll(t, es), vehicleId, key)
         == if LastAssigned(es, vehicleId, key).Some? then LastAssigned(es, vehicleId, key) else Lookup(t, vehicleId, key)
  {
    if es != [] {
      PutAllLookup(t, es[..|es| - 1], vehicleId, key);
    }
  }

  /** Assignments never remove a vehicle: the vehicles afterwards are those before
      plus the vehicles assigned to. */
  lemma {:induction false} PutAllKeys<E>(t: Table<E>, es: seq<Entry<E>>)
    ensures PutAll(t, es).Keys == t.Keys + VehicleIds(es)
  {
    if es != [] {
      var init := es[..|es| - 1];
      PutAllKeys(t, init);
      assert VehicleIds(es) == VehicleIds(init) + {es[|es| - 1].vehicleId} by {
        forall x | x in VehicleIds(es) ensures x in VehicleIds(init) + {es[|es| - 1].vehicleId} {
          var i :| 0 <= i < |es| && es[i].vehicleId == x;
          if i < |es| - 1 { assert init[i] == es[i]; }
        }
        forall x | x in VehicleIds(init) ensures x in VehicleIds(es) {
          var i :| 0 <= i < |init| && init[i].vehicleId == x;
          assert es[i] == init[i];
        }
      }
    }
  }

  /** Creating a vehicle's empty map never changes a lookup, and adds exactly the
      ids that were missing. */
  lemma {:induction false} EnsureVehiclesFacts<E>(t: Table<E>, ids: seq<string>)
    ensures EnsureVehicles(t, ids).Keys == t.Keys + set id | id in ids
    ensures forall vid :: vid in t ==> EnsureVehicles(t, ids)[vid] == t[vid]
    ensures forall vid, key :: Lookup(EnsureVehicles(t, ids), vid, key) == Lookup(t, vid, key)
  {
    if ids != [] {
      var init := ids[..|ids| - 1];
      EnsureVehiclesFacts(t, init);
      assert ids == init + [ids[|ids| - 1]];
    }
  }

  /** Creating a vehicle's empty map commutes with an assignment. */
  lemma EnsureVehicleCommutesWithPut<E>(t: Table<E>, vehicleId: string, e: Entry<E>)
    ensures Put(EnsureVehicle(t, vehicleId), e) == EnsureVehicle(Put(t, e), vehicleId)
  {
    if e.vehicleId == vehicleId {
      var inner := if vehicleId in t then t[vehicleId] else map[];
      assert Put(EnsureVehicle(t, vehicleId), e) == t[vehicleId := inner[e.key := e.entity]];
    } else if vehicleId !in t {
      var inner := if e.vehicleId in t then t[e.vehicleId] else map[];
      assert Put(EnsureVehicle(t, vehicleId), e) == t[vehicleId := map[]][e.vehicleId := inner[e.key := e.entity]];
      assert EnsureVehicle(Put(t, e), vehicleId) == t[e.vehicleId := inner[e.key := e.entity]][vehicleId := map[]];
    }
  }

  /** ... and so with any sequence of assignments: creating the per-vehicle maps of
      later vehicles first gives the same table. */
  lemma {:induction false} EnsureVehicleCommutesWithPutAll<E>(t: Table<E>, vehicleId: string, es: seq<Entry<E>>)
    ensures PutAll(EnsureVehicle(t, vehicleId), es) == EnsureVehicle(PutAll(t, es), vehicleId)
  {
    if es != [] {
      var init := es[..|es| - 1];
      EnsureVehicleCommutesWithPutAll(t, vehicleId, init);
      EnsureVehicleCommutesWithPut(PutAll(t, init), vehicleId, es[|es| - 1]);
    }
  }

  /** The step a setup loop takes at each vehicle keeps the table equal to "create
      every seen vehicle's map, then make every assignment so far". */
  lemma SetupStepVehicle<E>(t: Table<E>, ids: seq<string>, es: seq<Entry<E>>, id: string)
    ensures EnsureVehicle(PutAll(EnsureVehicles(t, ids), es), id) == PutAll(EnsureVehicles(t, ids + [id]), es)
  {
    EnsureVehiclesSnoc(t, ids, id);
    EnsureVehicleCommutesWithPutAll(EnsureVehicles(t, ids), id, es);
  }

  /** Making the assignments of `a + b` is making those of `a`, then those of `b`. */
  lemma {:induction false} PutAllAppend<E>(t: Table<E>, a: seq<Entry<E>>, b: seq<Entry<E>>)
    ensures PutAll(t, a + b) == PutAll(PutAll(t, a), b)
  {
    if b == [] {
      assert a + b == a;
    } else {
      var init := b[..|b| - 1];
      PutAllAppend(t, a, init);
      assert (a + b)[..|a + b| - 1] == a + init;
    }
  }

  /** One vehicle's step of a setup loop: create the vehicle's map, then make its
      assignments. */
  lemma SetupStep<E>(t: Table<E>, ids: seq<string>, es: seq<Entry<E>>, id: string, cs: seq<Entry<E>>)
    ensures PutAll(EnsureVehicle(PutAll(EnsureVehicles(t, ids), es), id), cs) == PutAll(EnsureVehicles(t, ids + [id]), es + cs)
  {
    SetupStepVehicle(t, ids, es, id);
    PutAllAppend(EnsureVehicles(t, ids + [id]), es, cs);
  }

  /** No two assignments target the same (vehicle, key). */
  predicate DistinctTargets<E>(es: seq<Entry<E>>)
  {
    forall i, j | 0 <= i < j < |es| :: (es[i].vehicleId, es[i].key) != (es[j].vehicleId, es[j].key)
  }

  /** With distinct targets, every assignment is the last one to its target. */
  lemma {:induction false} LastAssignedDistinct<E>(es: seq<Entry<E>>, k: nat)
    requires DistinctTargets(es) && k < |es|
    ensures LastAssigned(es, es[k].vehicleId, es[k].key) == Some(es[k].entity)
  {
    var n := |es| - 1;
    if k < n {
      assert (es[k].vehicleId, es[k].key) != (es[n].vehicleId, es[n].key);
      assert es[..n][k] == es[k];
      LastAssignedDistinct(es[..n], k);
    }
  }

  /** With distinct targets, after the assignments each target holds its entity. */
  lemma PutAllFindsEach<E>(t: Table<E>, es: seq<Entry<E>>, k: nat)
    requires DistinctTargets(es) && k < |es|
    ensures Lookup(PutAll(t, es), es[k].vehicleId, es[k].key) == Some(es[k].entity)
  {
    LastAssignedDistinct(es, k);
    PutAllLookup(t, es, es[k].vehicleId, es[k].key);
  }
}
