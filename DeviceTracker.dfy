/** The GPS tracker: one per vehicle, reading latitude and longitude from the
    `location` entry of the status dict it was built with. */
module DeviceTracker {
  import opened Json
  import opened Vehicles
  import Sensor
  import Text

  /** A `NissanVehicleTracker`. */
  datatype Tracker = Tracker(vehicle: Vehicle, status: map<string, Json>)
  {
    function Name(): string
    {
      EntityName(vehicle, "Location")
    }

    function UniqueId(): string
    {
      Vehicles.UniqueId(vehicle.vin, "location")
    }

    /** `latitude` */
    function Latitude(): (r: Outcome<Json>)
      ensures !Truthy(Get(status, "location")) ==> r == Returns(Null)
      ensures Truthy(Get(status, "location")) && status["location"].Obj? ==> r == Returns(Get(status["location"].fields, "lat"))
      ensures Truthy(Get(status, "location")) && !status["location"].Obj? ==> r.Raises?
    {
      Coordinate(status, "lat")
    }

    /** `longitude` */
    function Longitude(): (r: Outcome<Json>)
      ensures !Truthy(Get(status, "location")) ==> r == Returns(Null)
      ensures Truthy(Get(status, "location")) && status["location"].Obj? ==> r == Returns(Get(status["location"].fields, "lon"))
      ensures Truthy(Get(status, "location")) && !status["location"].Obj? ==> r.Raises?
    {
      Coordinate(status, "lon")
    }
  }

  /** `loc.get(field) if loc else None` with `loc = status.get("location")`: None
      for a missing or falsy location, the field (None when absent) of a location
      dict, and an AttributeError for a truthy location that is not a dict. */
  function Coordinate(status: map<string, Json>, field: string): (r: Outcome<Json>)
    ensures !Truthy(Get(status, "location")) ==> r == Returns(Null)
    ensures Truthy(Get(status, "location")) && status["location"].Obj? ==>
      r == Returns(Get(status["location"].fields, field))
    ensures Truthy(Get(status, "location")) && !status["location"].Obj? ==> r.Raises?
  {
    var loc := Get(status, "location");
    if Truthy(loc) then
      if loc.Obj? then Returns(Get(loc.fields, field)) else Raises
    else Returns(Null)
  }

  /** `async_setup_entry`: one tracker per vehicle, in vehicle order, each with
      its own vehicle's status. */
  function SetupTrackers(vehicles: seq<Vehicle>, statuses: seq<map<string, Json>>): (ts: seq<Tracker>)
    requires |statuses| == |vehicles|
    ensures |ts| == |vehicles|
    ensures forall k | 0 <= k < |ts| :: ts[k].vehicle == vehicles[k] && ts[k].status == statuses[k]
  {
    if vehicles == [] then []
    else SetupTrackers(vehicles[..|vehicles| - 1], statuses[..|statuses| - 1])
         + [Tracker(vehicles[|vehicles| - 1], statuses[|statuses| - 1])]
  }

  /** For the same vehicle and status, the location sensor shows "lat,lon" exactly
      when the tracker has both coordinates truthy, and then shows those two. */
  lemma SensorAgreesWithTracker(v: Vehicle, status: map<string, Json>, entryId: string, formatNumber: Json -> string)
    requires "location" in status && status["location"].Obj?
    ensures var t := Tracker(v, status);
      var s := Sensor.NewSensor(v, status, Sensor.Definitions[10], entryId);
      t.Latitude().Returns? && t.Longitude().Returns?
      && (Sensor.State(s, formatNumber).Returns? && Sensor.State(s, formatNumber).value.Str?
          <==> Truthy(t.Latitude().value) && Truthy(t.Longitude().value))
      && (Truthy(t.Latitude().value) && Truthy(t.Longitude().value) ==>
          Sensor.State(s, formatNumber)
            == Returns(Str(Sensor.LatLon(t.Latitude().value, t.Longitude().value, formatNumber))))
  {
    var loc := status["location"];
    FalsyValues(loc);
    if !Truthy(loc) {
      assert loc.fields == map[];
    }
  }
}
