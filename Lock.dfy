/** The door lock: one per vehicle, with a lock state that is unknown until the
    first successful lock or unlock call. */
module Lock {
  import opened Json
  import opened Vehicles

  class NissanDoorLockEntity {
    const vehicle: Vehicle
    const entryId: string
    const name: string
    const uniqueId: string
    /** `_is_locked`: None while unknown. */
    var isLocked: Option<bool>
    /** Number of `async_write_ha_state` calls. */
    var stateWrites: nat

    constructor (vehicle: Vehicle, entryId: string)
      ensures this.vehicle == vehicle && this.entryId == entryId
      ensures name == EntityName(vehicle, "Door Lock")
      ensures uniqueId == UniqueId(vehicle.vin, "door_lock")
      ensures isLocked == None && stateWrites == 0
    {
      this.vehicle := vehicle;
      this.entryId := entryId;
      name := EntityName(vehicle, "Door Lock");
      uniqueId := UniqueId(vehicle.vin, "door_lock");
      isLocked := None;
      stateWrites := 0;
    }

    function Info(): DeviceInfo
    {
      DeviceInfo({(Domain, vehicle.vin)}, Some((Domain, entryId)))
    }

    /** `async_lock`: calls `lock_doors` with the provider's vehicle id (not the
        VIN). Only when the call returns is the door locked and the state written;
        an exception from the call leaves everything as it was and propagates. */
    method LockDoors(outcome: Outcome<()>) returns (call: ClientCall)
      modifies this
      ensures call == Vehicles.LockDoors(vehicle.id)
      ensures outcome.Returns? ==> isLocked == Some(true) && stateWrites == old(stateWrites) + 1
      ensures outcome.Raises? ==> isLocked == old(isLocked) && stateWrites == old(stateWrites)
    {
      call := Vehicles.LockDoors(vehicle.id);
      if outcome.Raises? {
        return;
      }
      isLocked := Some(true);
      stateWrites := stateWrites + 1;
    }

    /** `async_unlock`: the same with `unlock_doors`, leaving the door unlocked. */
    method UnlockDoors(outcome: Outcome<()>) returns (call: ClientCall)
      modifies this
      ensures call == Vehicles.UnlockDoors(vehicle.id)
      ensures outcome.Returns? ==> isLocked == Some(false) && stateWrites == old(stateWrites) + 1
      ensures outcome.Raises? ==> isLocked == old(isLocked) && stateWrites == old(stateWrites)
    {
      call := Vehicles.UnlockDoors(vehicle.id);
      if outcome.Raises? {
        return;
      }
      isLocked := Some(false);
      stateWrites := stateWrites + 1;
    }
  }

  /** `async_setup_entry`: one lock per vehicle, in vehicle order. */
  method SetupEntry(vehicles: seq<Vehicle>, entryId: string) returns (entities: seq<NissanDoorLockEntity>)
    ensures |entities| == |vehicles|
    ensures forall k | 0 <= k < |entities| ::
      fresh(entities[k]) && entities[k].vehicle == vehicles[k] && entities[k].entryId == entryId
      && entities[k].isLocked == None
  {
    entities := [];
    var i := 0;
    while i < |vehicles|
      invariant 0 <= i <= |vehicles| && |entities| == i
      invariant forall k | 0 <= k < i ::
        fresh(entities[k]) && entities[k].vehicle == vehicles[k] && entities[k].entryId == entryId
        && entities[k].isLocked == None
    {
      var lock := new NissanDoorLockEntity(vehicles[i], entryId);
      entities := entities + [lock];
      i := i + 1;
    }
  }
}
