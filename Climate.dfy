/** Climate control: one entity per vehicle whose HVAC mode starts OFF and follows
    each request whose start or stop call returns. */
module Climate {
  import opened Json
  import opened Vehicles

  /** The host's HVAC modes. */
  datatype HvacMode = Off | Heat | Cool | Auto | HeatCool | Dry | FanOnly

  /** `_attr_hvac_modes` */
  const OfferedModes: seq<HvacMode> := [Off, Heat, Cool, Auto]

  /** f"{vehicle.nickname or vehicle.vin} Climate": unlike the other entities,
      there is no year/make/model fallback. */
  function ClimateName(v: Vehicle): (r: string)
    ensures StrTruthy(v.nickname) ==> r == EntityName(v, "Climate")
    ensures !StrTruthy(v.nickname) ==> r == v.vin + " Climate"
  {
    (if StrTruthy(v.nickname) then v.nickname.value else v.vin) + " Climate"
  }

  /** Without a nickname the climate name uses the VIN even where the other
      entities would use "year make model". */
  lemma ClimateNameDiffersFromDisplayName(v: Vehicle)
    requires !StrTruthy(v.nickname) && HasYearMakeModel(v) && v.vin != YearMakeModel(v)
    ensures ClimateName(v) != EntityName(v, "Climate")
  {
    assert EntityName(v, "Climate") == YearMakeModel(v) + " Climate";
    SameSuffix(v.vin, YearMakeModel(v), " Climate");
  }

  /** Two strings with the same suffix appended are equal only if they were. */
  lemma SameSuffix(x: string, y: string, s: string)
    ensures x + s == y + s <==> x == y
  {
    if x + s == y + s {
      assert x == (x + s)[..|x|] && y == (y + s)[..|y|];
    }
  }

  /** The call a mode request makes: OFF stops the climate, every other mode
      starts it. Both take the VIN. */
  function CallFor(mode: HvacMode, vin: string): (call: ClientCall)
    ensures call == StopClimate(vin) <==> mode == Off
    ensures call == StartClimate(vin) <==> mode != Off
  {
    if mode == Off then StopClimate(vin) else StartClimate(vin)
  }

  class NissanClimateEntity {
    const vehicle: Vehicle
    const name: string
    const uniqueId: string
    var hvacMode: HvacMode
    /** Number of `async_write_ha_state` calls. */
    var stateWrites: nat

    constructor (vehicle: Vehicle)
      ensures this.vehicle == vehicle
      ensures name == ClimateName(vehicle) && uniqueId == UniqueId(vehicle.vin, "climate")
      ensures hvacMode == Off && stateWrites == 0
    {
      this.vehicle := vehicle;
      name := ClimateName(vehicle);
      uniqueId := UniqueId(vehicle.vin, "climate");
      hvacMode := Off;
      stateWrites := 0;
    }

    /** `async_set_hvac_mode`: OFF calls `stop_climate`, anything else
        `start_climate`. When the call returns the mode is the requested one and
        the state is written; when it raises, nothing changes and the exception
        propagates. */
    method SetHvacMode(mode: HvacMode, outcome: Outcome<()>) returns (call: ClientCall)
      modifies this
      ensures call == CallFor(mode, vehicle.vin)
      ensures outcome.Returns? ==> hvacMode == mode && stateWrites == old(stateWrites) + 1
      ensures outcome.Raises? ==> hvacMode == old(hvacMode) && stateWrites == old(stateWrites)
    {
      if mode == Off {
        call := StopClimate(vehicle.vin);
      } else {
        call := StartClimate(vehicle.vin);
      }
      if outcome.Raises? {
        return;
      }
      hvacMode := mode;
      stateWrites := stateWrites + 1;
    }
  }

  /** `async_setup_entry`: one climate entity per vehicle, in vehicle order. */
  method SetupEntry(vehicles: seq<Vehicle>) returns (entities: seq<NissanClimateEntity>)
    ensures |entities| == |vehicles|
    ensures forall k | 0 <= k < |entities| ::
      fresh(entities[k]) && entities[k].vehicle == vehicles[k] && entities[k].hvacMode == Off
  {
    entities := [];
    var i := 0;
    while i < |vehicles|
      invariant 0 <= i <= |vehicles| && |entities| == i
      invariant forall k | 0 <= k < i ::
        fresh(entities[k]) && entities[k].vehicle == vehicles[k] && entities[k].hvacMode == Off
    {
      var climate := new NissanClimateEntity(vehicles[i]);
      entities := entities + [climate];
      i := i + 1;
    }
  }
}
