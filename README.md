# nissan_na — a Dafny model of the integration's decision logic

`nissan_na` is a Home Assistant integration that exposes Nissan vehicles, reached
through the Smartcar API, as Home Assistant entities. This project models the
deterministic logic under the host glue and proves what that logic promises:

- **Webhook receiver** (`Webhook.dfy`): the SC-Signature check (HMAC-SHA256 as in
  section 2 of RFC 2104, over SHA-256 as in section 6.2 of FIPS 180-4, as lower-case
  hex), the VERIFY challenge reply, and the early-return ladder. The ladder answers
  every request with 404, 400, 500, 401 or 200 and at most one dispatched update.
- **Entity-creation gating and setup** for binary sensors, the charge-limit number,
  the charging switch and the generic status sensors. Setup is one pass over the
  vehicles. The per-platform tracking dict `data[platform][vehicle_id][key]` is filled
  in place (`Registry.dfy`).
- **Per-entity state machines**:
  - the binary sensor's dotted-path webhook update;
  - the charge limit's clamp and latched availability;
  - the charging switch's two on/off rules;
  - the door lock's unknown → locked/unlocked;
  - the climate entity's HVAC mode;
  - value extraction in the sensor and the device tracker.
- **Unit conversion**: the five linear converters over reals, the `convert_value`
  dispatch and the display-unit map.
- **Diagnostics**: the webhook defaults and the vehicle and sensor counts.

The display-name rule (nickname, else "year make model", else VIN) is shared by six
entity kinds, so it is defined once, as `Vehicles.DisplayName`. The climate entity
follows its own rule (`Climate.ClimateName`).

How the model is built:

- Decoded JSON is a `Json` datatype with Python's truth values.
- A Python call that can raise yields an `Outcome` (`Returns(v)` or `Raises`).
- A client call made by an entity becomes an `Outcome<()>` parameter. The call the
  entity issues is returned as a `ClientCall` value.
- An entity whose fields change in place is a `class`: the binary sensor, number,
  switch, lock and climate entity. The count `stateWrites` records each
  `async_write_ha_state`.
- The generic sensor and the tracker only read the status dict they were built with,
  so they are datatypes.

Where the comments in the code and the code itself differ, the model follows the
code. The comments in binary sensor setup (binary_sensor.py:111-112) and sensor setup
(sensor.py:22-23) say that a failed capability query falls back to creating all
entities. This holds for the binary sensors: an empty or failed signals answer creates
all 25 (`BinarySensor.GatingIff`). In sensor setup a failed permissions call leaves
`permissions = []`, and `should_create` (sensor.py:48-55) then creates a permissioned
sensor only when the status holds a value other than None under its key
(`Sensor.PermissionedGating`). The charge-limit number and the charging switch require
"control_charge" (number.py:42-53, switch.py:42-53), so they are never created when the
permissions call fails (`Vehicles.ControlPlannedIff`).

Diagnostics counts the per-vehicle maps under `data["sensors"]` (diagnostics.py:38-39).
The platforms in this repository record their entities under "binary_sensors",
"numbers" and "switches" (binary_sensor.py:78-79, number.py:23-24, switch.py:23-24);
none writes "sensors". So with these platforms alone the reported sensor count is 0.
The model counts what the code counts (`Diagnostics.Counts`).

## Model

| member | source | states |
|---|---|---|
| `Json.PyFloat` | custom_components/nissan_na/number.py:157 | `float(x)`: a number is itself, a bool is 1.0 or 0.0, and None, a list or a dict raises |
| `Json.LookupPath` | custom_components/nissan_na/binary_sensor.py:222-228 | the empty path yields the payload itself; a non-empty path yields a value only from a dict holding its first key, so a missing key (KeyError) or a non-dict (TypeError) yields nothing |
| `Json.FalsyValues` | custom_components/nissan_na/binary_sensor.py:228 | `bool(x)` is false exactly for None, False, 0, "", [] and {} |
| `Json.LookupPathAppend` | custom_components/nissan_na/binary_sensor.py:224-226 | walking the path `p + q` is walking `p`, then `q` from where it ended; a failure anywhere fails the whole walk |
| `Json.LookupPathTwo` | custom_components/nissan_na/number.py:152-155 | `data["charge"]["limit"]` is found exactly when `data` is a dict with a dict under "charge" that has the key |
| `Json.LookupNest` | custom_components/nissan_na/binary_sensor.py:222-228 | a value nested under a dotted path is found again by walking that path |
| `Text.Split` | custom_components/nissan_na/binary_sensor.py:223 | `str.split(sep)` gives at least one part, and no part contains the separator |
| `Text.JoinSplit` | custom_components/nissan_na/binary_sensor.py:223 | joining the parts of a split with the separator gives the string back |
| `Text.SplitJoin` | custom_components/nissan_na/sensor.py:115 | splitting parts joined by a separator they lack gives the parts back |
| `Text.DecimalString` | custom_components/nissan_na/binary_sensor.py:188 | `str(year)` is non-empty and holds no space |
| `Text.JoinedIdInjective` | custom_components/nissan_na/binary_sensor.py:242 | `a + "_" + b` determines `a` and `b` when `a` holds no "_" |
| `Webhook.HexDigestIsAscii` | custom_components/nissan_na/webhook.py:43-45 | a SHA-256 hex digest is non-empty ASCII, so `compare_digest` accepts it |
| `Webhook.VerifySignature` | custom_components/nissan_na/webhook.py:28-48 | a missing or empty token or signature returns False; True only when the signature equals the HMAC of the body keyed by the UTF-8 token; a raise only when the signature or the digest is not ASCII |
| `Webhook.HashChallenge` | custom_components/nissan_na/webhook.py:51-63 | with a primitive that gives SHA-256 hex digests, the reply is 64 lower-case hex digits |
| `Webhook.VerifyRejectsMissing` | custom_components/nissan_na/webhook.py:39-40 | a missing or empty token or signature is rejected |
| `Webhook.VerifyIff` | custom_components/nissan_na/webhook.py:43-48 | with a token and an ASCII signature, the check returns, and accepts exactly when the signature is the HMAC of the body keyed by the token |
| `Webhook.VerifyAcceptsOwnSignature` | custom_components/nissan_na/webhook.py:43-48 | a body's own HMAC under the token is accepted as its signature |
| `Webhook.ChallengeHashIsSignature` | custom_components/nissan_na/webhook.py:61-63 | the challenge reply is the same HMAC: it verifies as the signature of the UTF-8 challenge |
| `Webhook.SignalNamesDistinct` | custom_components/nissan_na/webhook.py:155 | two vehicle ids give the same dispatcher signal only when they are equal |
| `Webhook.SignalName` | custom_components/nissan_na/webhook.py:155 | a signal name exists for a str, None or bool vehicle id; each begins with "nissan_na_webhook_data_", and for a str id the rest is the id itself |
| `Webhook.HandleWebhook` | custom_components/nissan_na/webhook.py:84-91 | 404 when no config entry has the webhook id; otherwise the answer is decided for the first entry that has it |
| `Webhook.Decide` | custom_components/nissan_na/webhook.py:93-173 | once an entry is found the answer is never 404, and a dispatch comes only with a bodiless 200 for a body that decoded |
| `Webhook.DecideVerify` | custom_components/nissan_na/webhook.py:110-126 | a VERIFY event never dispatches and answers 200, 400 or 500; a reply body comes only with 200 and a string token |
| `Webhook.DecideSigned` | custom_components/nissan_na/webhook.py:128-173 | any other event has no reply body and answers 200, 401 or 500; a dispatch comes only with 200, a VEHICLE_STATE event and a signature that verifies against the string token |
| `Webhook.DecideStatuses` | custom_components/nissan_na/webhook.py:89-173 | once an entry is found, every answer is 200, 400, 401 or 500 |
| `Webhook.MalformedBodyIsBadRequest` | custom_components/nissan_na/webhook.py:99-105 | a body that is not UTF-8 JSON gets 400, before any event-type logic |
| `Webhook.VerifyLadder` | custom_components/nissan_na/webhook.py:110-126 | VERIFY ignores the signature header and never dispatches. It is 500 without a token, 400 without a challenge, else 200 with `{"challenge": hash}` |
| `Webhook.SignedLadder` | custom_components/nissan_na/webhook.py:129-142 | other events check a missing header (401), then a missing token (500), then a signature that fails (401) |
| `Webhook.DispatchIffAuthenticatedVehicleState` | custom_components/nissan_na/webhook.py:147-155 | a dispatch happens iff the body is an authenticated VEHICLE_STATE dict. It is exactly one dispatch, with the payload's vehicle id and "data" (default {}), answered 200 |
| `Webhook.OtherEventsAcknowledged` | custom_components/nissan_na/webhook.py:157-168 | an authenticated VEHICLE_ERROR or unknown event gets 200 and dispatches nothing |
| `Webhook.SignedVehicleStateIsDispatched` | custom_components/nissan_na/webhook.py:140-155 | a VEHICLE_STATE body signed with the configured token is dispatched |
| `Vehicles.DisplayName` | custom_components/nissan_na/binary_sensor.py:180-190 | a truthy nickname, else "year make model" when all three are truthy, else the VIN; the same rule is in number.py, switch.py, sensor.py, lock.py and device_tracker.py |
| `Vehicles.DisplayNameNonEmpty` | custom_components/nissan_na/sensor.py:90-101 | the display name is non-empty whenever the VIN is |
| `Vehicles.DisplayNameIgnoresIdAndHiddenFields` | custom_components/nissan_na/lock.py:34-45 | the display name depends only on the attributes the rule reads; a truthy nickname hides the rest |
| `Vehicles.EntityNameLabelInjective` | custom_components/nissan_na/binary_sensor.py:192 | the suffix of f"{display_name} {name}" can be read back from the name |
| `Vehicles.UniqueIdInjective` | custom_components/nissan_na/sensor.py:121 | for VINs without "_", f"{vin}_{suffix}" determines the VIN and the suffix |
| `Vehicles.ControlStep` | custom_components/nissan_na/number.py:29-53 | a vehicle gets at most one charge-control entity; none when the permissions call failed; when the signals call failed, one exactly when "control_charge" is granted |
| `Vehicles.ControlPlannedWithin` | custom_components/nissan_na/switch.py:26-65 | the plan for the first `n` vehicles holds only those vehicles |
| `Vehicles.ControlPlannedIff` | custom_components/nissan_na/number.py:42-53 | a vehicle gets the entity iff (signal reported or no signals) and "control_charge" is granted; never when the permissions call failed |
| `Registry.PutAllLookup` | custom_components/nissan_na/binary_sensor.py:133 | after the assignments, a slot holds its last assignment, or what it held before |
| `Registry.PutAllKeys` | custom_components/nissan_na/binary_sensor.py:133 | assignments only add vehicles to the tracking dict, never remove one |
| `Registry.PutLookup` | custom_components/nissan_na/binary_sensor.py:133 | one assignment adds its vehicle id to the dict, fills its own slot and leaves every other slot as it was |
| `Registry.EnsureVehiclesFacts` | custom_components/nissan_na/binary_sensor.py:102-103 | creating missing per-vehicle maps adds exactly the missing ids and keeps every existing map and lookup |
| `Registry.EnsureVehicleKeeps` | custom_components/nissan_na/binary_sensor.py:102-103 | creating a vehicle's map adds its id, keeps every existing map, and a new map is empty |
| `Registry.EnsureVehicleCommutesWithPut` | custom_components/nissan_na/binary_sensor.py:102-133 | creating a vehicle's empty map commutes with one assignment |
| `Registry.EnsureVehicleCommutesWithPutAll` | custom_components/nissan_na/binary_sensor.py:102-133 | ... and with any sequence of assignments |
| `Registry.SetupStepVehicle` | custom_components/nissan_na/number.py:48-50 | creating the next vehicle's map keeps the table equal to "all maps first, then all assignments" |
| `Registry.PutAllAppend` | custom_components/nissan_na/binary_sensor.py:133 | the assignments of `a + b` are those of `a`, then those of `b` |
| `Registry.SetupStep` | custom_components/nissan_na/switch.py:48-65 | one vehicle's turn (create its map, then its assignments) keeps the table in that form |
| `Registry.LastAssignedDistinct` | custom_components/nissan_na/binary_sensor.py:133 | with distinct targets, each assignment is the last one to its slot |
| `Registry.PutAllFindsEach` | custom_components/nissan_na/binary_sensor.py:133 | with distinct targets, every assigned entity is found in its slot |
| `BinarySensor.DefinitionCount` | custom_components/nissan_na/binary_sensor.py:16-67 | the definition table has 25 entries |
| `BinarySensor.SignalIdsDistinct` | custom_components/nissan_na/binary_sensor.py:16-67 | its signal ids are pairwise distinct |
| `BinarySensor.NamesDistinct` | custom_components/nissan_na/binary_sensor.py:16-67 | its names are pairwise distinct |
| `BinarySensor.IconsAreMaterialDesign` | custom_components/nissan_na/binary_sensor.py:16-67 | every icon starts with "mdi:" |
| `BinarySensor.IconsFollowDeviceClass` | custom_components/nissan_na/binary_sensor.py:18-45 | LOCK entries show "mdi:lock", WINDOW entries "mdi:window-closed", DOOR entries "mdi:car-door" |
| `BinarySensor.PlanForMembers` | custom_components/nissan_na/binary_sensor.py:106-116 | a vehicle's planned sensors are its definitions that pass the gate, all of them |
| `BinarySensor.PlanForLength` | custom_components/nissan_na/binary_sensor.py:106-114 | a vehicle gets at most one sensor per definition, and exactly one per definition when no signal is known |
| `BinarySensor.GatingIff` | custom_components/nissan_na/binary_sensor.py:85-114 | a non-empty signal set creates exactly the definitions it names; an empty or failed answer creates all 25 |
| `BinarySensor.PlanForDistinct` | custom_components/nissan_na/binary_sensor.py:106-132 | one vehicle's sensors have distinct signal ids |
| `BinarySensor.PlannedVehicles` | custom_components/nissan_na/binary_sensor.py:81-133 | the sensors planned for the first `n` vehicles belong to them |
| `BinarySensor.KeysUniqueAppend` | custom_components/nissan_na/binary_sensor.py:81-133 | appending a new vehicle's sensors keeps (vehicle id, signal id) pairs unique |
| `BinarySensor.PlannedDistinct` | custom_components/nissan_na/binary_sensor.py:81-133 | with distinct vehicle ids, no two sensors share a vehicle id and a signal id |
| `BinarySensor.NissanBinarySensor.constructor` | custom_components/nissan_na/binary_sensor.py:169-192 | a sensor starts off, named display name + " " + name |
| `BinarySensor.NissanBinarySensor.HandleWebhookData` | custom_components/nissan_na/binary_sensor.py:215-237 | a non-dict payload or an unresolved path changes nothing; a resolved leaf sets `is_on` to its truth value and writes the state |
| `BinarySensor.WalkPath` | custom_components/nissan_na/binary_sensor.py:223-226 | the loop over the path's parts ends with the value `data[p1][p2]...` exactly when each step meets a dict holding the key, and with nothing at the first step that does not; this is the path lookup `LookupPath` |
| `BinarySensor.NestedPayloadReachesSensor` | custom_components/nissan_na/binary_sensor.py:222-228 | a payload carrying the signal as nested dicts reaches the sensor's leaf |
| `BinarySensor.UniqueIdsDistinct` | custom_components/nissan_na/binary_sensor.py:239-242 | two sensors share f"{vin}_{signal_id}" iff they share the VIN and the signal |
| `BinarySensor.Record` | custom_components/nissan_na/binary_sensor.py:133 | records one sensor in its slot of the tracking dict |
| `BinarySensor.SetupVehicle` | custom_components/nissan_na/binary_sensor.py:106-133 | the inner loop creates the gated sensors in table order and records each one |
| `BinarySensor.SetupOne` | custom_components/nissan_na/binary_sensor.py:81-133 | vehicle `i`'s turn takes setup's state from `i` vehicles to `i + 1`, only appending sensors |
| `BinarySensor.CreateSensors` | custom_components/nissan_na/binary_sensor.py:72-133 | setup creates exactly the planned sensors in order. The dict holds every vehicle's map (existing ones kept) plus every created sensor |
| `BinarySensor.SetupEntry` | custom_components/nissan_na/binary_sensor.py:70-135 | the same over the 25-entry table |
| `BinarySensor.SetupRecordsEverySensor` | custom_components/nissan_na/binary_sensor.py:133 | with distinct vehicle ids, each created sensor is found at `[vehicle.id][signal_id]` |
| `Number.RequestedLimit` | custom_components/nissan_na/number.py:171 | the limit sent is in 0..100, is the floor of an in-range request, and 0 or 100 beyond the bounds |
| `Number.RequestedLimitOfPercentage` | custom_components/nissan_na/number.py:171 | a whole percentage is sent unchanged |
| `Number.RequestedLimitIdempotent` | custom_components/nissan_na/number.py:171 | requesting the limit that was sent sends it again |
| `Number.RequestedLimitMonotone` | custom_components/nissan_na/number.py:171 | a larger request never sends a smaller limit |
| `Number.WebhookLimit` | custom_components/nissan_na/number.py:148-157 | a payload carries a new value iff `data["charge"]["limit"]` exists and `float` accepts it |
| `Number.WebhookLimitCases` | custom_components/nissan_na/number.py:152-157 | a numeric limit is taken unclamped; no "charge" dict, or a null limit, gives nothing |
| `Number.NissanChargeLimitNumber.constructor` | custom_components/nissan_na/number.py:101-123 | starts at 80 and available, named display name + " Charge Limit" |
| `Number.NissanChargeLimitNumber.HandleWebhookData` | custom_components/nissan_na/number.py:146-165 | takes the payload's limit when there is one and writes the state only on a change; availability is untouched |
| `Number.NissanChargeLimitNumber.SetValue` | custom_components/nissan_na/number.py:167-200 | posts the clamped limit for the vehicle id. A 200/204 stores it; anything else keeps the value and makes the entity unavailable, and nothing makes it available again |
| `Number.SetupVehicle` | custom_components/nissan_na/number.py:48-65 | creates the vehicle's map, then the number if the gate passes, and records it under "charge_limit" |
| `Number.SetupOne` | custom_components/nissan_na/number.py:26-65 | vehicle `i`'s turn takes setup's state from `i` vehicles to `i + 1`, only appending numbers |
| `Number.SetupVehicles` | custom_components/nissan_na/number.py:26-65 | after the loop over every vehicle, the numbers realise the gated plan of all vehicles and the dict holds every vehicle's map plus every number; each number is new |
| `Number.SetupEntry` | custom_components/nissan_na/number.py:15-67 | setup creates exactly the gated numbers in vehicle order. The dict holds every vehicle's map plus every number |
| `Switch.RulesDisagreeOnlyOnUnknown` | custom_components/nissan_na/switch.py:140-165 | the initial-fetch rule and the webhook rule disagree only on "UNKNOWN" |
| `Switch.InitialState` | custom_components/nissan_na/switch.py:140-146 | the fetch sets `_is_on` iff it returned a dict with "state", to whether the state is CHARGING or UNKNOWN |
| `Switch.WebhookState` | custom_components/nissan_na/switch.py:156-163 | a payload carries a charge state iff it has `data["charge"]["state"]` through dicts |
| `Switch.IconFor` | custom_components/nissan_na/switch.py:209-212 | "mdi:battery-charging" iff on, "mdi:battery" iff off |
| `Switch.NissanChargingSwitch.constructor` | custom_components/nissan_na/switch.py:101-123 | starts off and available, named display name + " Charging" |
| `Switch.NissanChargingSwitch.AddedToHass` | custom_components/nissan_na/switch.py:126-146 | seeds `_is_on` by the initial rule when the fetch gives a state, else keeps it |
| `Switch.NissanChargingSwitch.HandleWebhookData` | custom_components/nissan_na/switch.py:154-173 | sets `_is_on` to state == "CHARGING" when the payload has a state, else keeps it; writes only on change |
| `Switch.NissanChargingSwitch.TurnOn` | custom_components/nissan_na/switch.py:175-185 | calls `start_charge` with the vehicle id. Success turns the switch on; a raise keeps `_is_on` and latches it unavailable |
| `Switch.NissanChargingSwitch.TurnOff` | custom_components/nissan_na/switch.py:187-197 | the same for `stop_charge`, turning it off |
| `Switch.SetupVehicle` | custom_components/nissan_na/switch.py:48-65 | creates the vehicle's map, then the switch if the gate passes, and records it under "charging" |
| `Switch.SetupOne` | custom_components/nissan_na/switch.py:26-65 | vehicle `i`'s turn takes setup's state from `i` vehicles to `i + 1`, only appending switches |
| `Switch.SetupVehicles` | custom_components/nissan_na/switch.py:26-65 | after the loop over every vehicle, the switches realise the gated plan of all vehicles and the dict holds every vehicle's map plus every switch; each switch is new |
| `Switch.SetupEntry` | custom_components/nissan_na/switch.py:15-67 | setup creates exactly the gated switches in vehicle order. The dict holds every vehicle's map plus every switch |
| `Sensor.DefinitionsShape` | custom_components/nissan_na/sensor.py:29-41 | 11 definitions with distinct keys; "lastUpdate" alone needs no permission |
| `Sensor.NewSensor` | custom_components/nissan_na/sensor.py:85-103 | a sensor keeps its vehicle, status, key, unit and entry id, named display name + " " + name |
| `Sensor.Selected` | custom_components/nissan_na/sensor.py:44-57 | the positions of the definitions that pass, increasing and in range |
| `Sensor.SelectedIff` | custom_components/nissan_na/sensor.py:44-57 | a position is selected iff its definition passes the `should_create` test |
| `Sensor.PlanForSelected` | custom_components/nissan_na/sensor.py:44-67 | a vehicle's sensors are built from the selected definitions, in list order |
| `Sensor.LastUpdateAlwaysCreated` | custom_components/nissan_na/sensor.py:38-49 | "lastUpdate" is created whatever the permissions and status |
| `Sensor.PlanForIff` | custom_components/nissan_na/sensor.py:44-67 | with distinct keys, a definition's sensor is created iff it passes the test |
| `Sensor.PermissionedGating` | custom_components/nissan_na/sensor.py:50-55 | a permissioned sensor is created iff the non-empty permission list grants it or its status value is not None. A failed permissions call leaves only the status |
| `Sensor.AtMostElevenPerVehicle` | custom_components/nissan_na/sensor.py:18-67 | at most 11 sensors per vehicle |
| `Sensor.PlanForUniqueIds` | custom_components/nissan_na/sensor.py:118-121 | one vehicle's sensors have distinct f"{vin}_{key}" ids |
| `Sensor.LatLon` | custom_components/nissan_na/sensor.py:115 | the location string is the latitude text, one comma, then the longitude text |
| `Sensor.State` | custom_components/nissan_na/sensor.py:105-116 | the status value under the key (None when absent). A falsy location is returned as it is. A truthy location dict gives the string `LatLon(lat, lon)`, latitude text + "," + longitude text, when both are truthy, and None otherwise; a truthy non-dict location raises |
| `Sensor.LocationStateSplits` | custom_components/nissan_na/sensor.py:112-115 | the location string splits back into the two coordinates |
| `Sensor.CreateForVehicle` | custom_components/nissan_na/sensor.py:44-67 | the inner loop with its `should_create` flag builds exactly one vehicle's plan |
| `Sensor.CreateSensors` | custom_components/nissan_na/sensor.py:18-67 | the outer loop concatenates the vehicles' plans in vehicle order |
| `Sensor.SetupEntry` | custom_components/nissan_na/sensor.py:6-69 | setup creates exactly the planned sensors over the 11 definitions |
| `UnitConversion.ConverterFixedPoints` | custom_components/nissan_na/unit_conversion.py:6-28 | 0 °C → 32, 100 °C → 212, −40 → −40; the other converters keep 0 |
| `UnitConversion.ConverterStrictlyIncreasing` | custom_components/nissan_na/unit_conversion.py:6-28 | every converter is strictly increasing |
| `UnitConversion.Convert` | custom_components/nissan_na/unit_conversion.py:6-28 | the four scale converters keep the sign of their input and map 0 to 0; Celsius to Fahrenheit is above 32 exactly above 0 °C and equals its input only at −40 |
| `UnitConversion.ConvertValue` | custom_components/nissan_na/unit_conversion.py:31-59 | the result is None exactly when the value is |
| `UnitConversion.ConvertIdentity` | custom_components/nissan_na/unit_conversion.py:43-44 | identity under "metric" or for None |
| `UnitConversion.ConvertPassesOtherUnits` | custom_components/nissan_na/unit_conversion.py:47-59 | units outside km, L, °C, bar, kPa pass through under any system |
| `UnitConversion.ConvertsEachUnit` | custom_components/nissan_na/unit_conversion.py:47-57 | under a non-metric system each of the five units is converted and rounded |
| `UnitConversion.NonMetricIsImperial` | custom_components/nissan_na/unit_conversion.py:43-74 | any system other than "metric" behaves as imperial, in both functions |
| `UnitConversion.DisplayUnitMetric` | custom_components/nissan_na/unit_conversion.py:73-74 | the metric unit is kept under "metric" |
| `UnitConversion.DisplayUnitImperial` | custom_components/nissan_na/unit_conversion.py:76-86 | km→mi, L→gal, °C→°F, bar and kPa→psi, km/h→mph, every other unit kept |
| `UnitConversion.DisplayUnit` | custom_components/nissan_na/unit_conversion.py:62-86 | the unit changes exactly under a non-metric system for a unit of the map, and then becomes one of mi, gal, °F, psi and mph |
| `UnitConversion.SpeedIsTheOnlyMismatch` | custom_components/nissan_na/unit_conversion.py:47-84 | "km/h" is the only unit with a display unit and no conversion; its value passes through unconverted |
| `Lock.NissanDoorLockEntity.constructor` | custom_components/nissan_na/lock.py:30-48 | the lock state starts unknown, named display name + " Door Lock", id f"{vin}_door_lock" |
| `Lock.NissanDoorLockEntity.LockDoors` | custom_components/nissan_na/lock.py:50-54 | calls `lock_doors` with the vehicle id; only when it returns is the door locked and the state written |
| `Lock.NissanDoorLockEntity.UnlockDoors` | custom_components/nissan_na/lock.py:56-60 | the same for `unlock_doors`, leaving the door unlocked |
| `Lock.SetupEntry` | custom_components/nissan_na/lock.py:6-17 | one lock per vehicle, in vehicle order |
| `Climate.ClimateName` | custom_components/nissan_na/climate.py:32 | nickname, else the VIN, + " Climate" |
| `Climate.ClimateNameDiffersFromDisplayName` | custom_components/nissan_na/climate.py:32 | without a nickname the climate name is not the shared display-name rule |
| `Climate.CallFor` | custom_components/nissan_na/climate.py:41-44 | OFF calls `stop_climate`, every other mode `start_climate`, both with the VIN |
| `Climate.NissanClimateEntity.constructor` | custom_components/nissan_na/climate.py:27-34 | starts OFF, with id f"{vin}_climate" |
| `Climate.NissanClimateEntity.SetHvacMode` | custom_components/nissan_na/climate.py:36-46 | makes the call for the mode; the mode is set only when the call returns |
| `Climate.SetupEntry` | custom_components/nissan_na/climate.py:7-15 | one climate entity per vehicle, in vehicle order, each OFF |
| `DeviceTracker.Coordinate` | custom_components/nissan_na/device_tracker.py:48-57 | None for a missing or falsy location, the field (None if absent) of a location dict, a raise for any other truthy location |
| `DeviceTracker.Tracker.Latitude` | custom_components/nissan_na/device_tracker.py:47-51 | None for a missing or falsy location, `loc.get("lat")` of a location dict (None when absent), a raise for any other truthy location |
| `DeviceTracker.Tracker.Longitude` | custom_components/nissan_na/device_tracker.py:53-57 | the same with "lon" |
| `DeviceTracker.SetupTrackers` | custom_components/nissan_na/device_tracker.py:6-17 | one tracker per vehicle, in vehicle order, each with its own status |
| `DeviceTracker.SensorAgreesWithTracker` | custom_components/nissan_na/device_tracker.py:48-57 | the location sensor shows "lat,lon" iff the tracker's two coordinates are truthy, and shows those two |
| `Diagnostics.PyLen` | custom_components/nissan_na/diagnostics.py:35 | `len` is defined exactly for strings, lists and dicts |
| `Diagnostics.SumOfLens` | custom_components/nissan_na/diagnostics.py:38-39 | 0 for an empty dict; when the sum is defined, every value has a length and none exceeds the sum |
| `Diagnostics.SumOfLensRemove` | custom_components/nissan_na/diagnostics.py:39 | the sum does not depend on which value is visited first |
| `Diagnostics.SumOfLensAdd` | custom_components/nissan_na/diagnostics.py:39 | adding a value adds its length |
| `Diagnostics.SumOfLensDefined` | custom_components/nissan_na/diagnostics.py:39 | the sum is defined iff every value has a length |
| `Diagnostics.Counts` | custom_components/nissan_na/diagnostics.py:31-39 | both counts are 0 when the domain or entry is absent. A missing "vehicles" or "sensors" key counts 0; a non-dict "sensors" raises |
| `Diagnostics.Diagnose` | custom_components/nissan_na/diagnostics.py:23-49 | webhook id and url default to "Not configured" when absent; the report carries the redacted data and the counts |
| `Diagnostics.SensorCountAddsVehicle` | custom_components/nissan_na/diagnostics.py:38-39 | a vehicle's map of `n` sensors adds `n` to the sensor count |
| `Diagnostics.SensorCountOneVehicle` | custom_components/nissan_na/diagnostics.py:38-39 | a single vehicle's map of `n` sensors counts `(0, n)` when "vehicles" is absent |

## Left out

- HMAC-SHA256, hex encoding, UTF-8 encoding and JSON decoding are opaque functions
  given as parameters (`Webhook.Primitives`). Constant-time comparison is not
  expressible. `compare_digest` raising on a non-ASCII `str` is modelled.
- The dispatched update keeps the payload's vehicle id as a JSON value. Its
  signal name (`Webhook.SignalName`) is rendered only for strings, null and
  booleans; `str()` of a number or a container is not modelled.
- `round(x, 2)` in `convert_value` and the float formatting in the location string
  are parameters (`round2`, `formatNumber`). The converters are over reals, not
  binary floating point.
- `float(str)` is a parameter (`parseFloat`) of `Json.PyFloat`.
- `Json.PyFloat`: JSON numbers are reals, so the model has no NaN, no infinity and no
  overflow. Python's `json` accepts `NaN` and `Infinity`, and `float()` of an integer
  beyond the double range raises OverflowError.
- `Number.NissanChargeLimitNumber.HandleWebhookData`: in the source a NaN limit is
  unequal to itself, so every such webhook writes the state (number.py:157-163); the
  model writes only on a change. An integer limit beyond the double range raises
  OverflowError, which number.py:164 does not catch; the model takes the value.
- `async_redact_data` is a parameter (`redact`) of `Diagnostics.Diagnose`. The
  redaction itself is not modelled.
- `Diagnostics.SumOfLens` visits the dict's values in an unspecified order, not
  insertion order; `Diagnostics.SumOfLensRemove` shows the order does not matter.
- Every client and HTTP call is an outcome parameter. Their bodies are not part of
  this model: `nissan_api.py`, the `aiohttp` session in `number.py`, and `requests`.
  A failing `get_vehicle_list`, and a failing `get_vehicle_status` in sensor and
  tracker setup, abort setup in the source; the model takes the status dicts as
  given.
- `Climate.ClimateName`: a vehicle object without a `nickname` attribute raises
  AttributeError in the source. The model's vehicles always have the field.
- Dispatcher subscription and unsubscription, `async_add_entities`, the per-platform
  webhook callbacks that only log, and logging everywhere are host plumbing and are
  left out. `async_write_ha_state` is counted (`stateWrites`), not performed.
- `__init__.py` (service registration, polling, platform forwarding), `config_flow.py`,
  `services.py`, `api.py`, `application_credentials.py` and `const.py` are host wiring.
  They are not part of this model, except that the `const.py` values appear as literals.
- Binary sensor device classes are an enumeration of the host's classes. Only the
  table's values are modelled, not their display semantics.
- The setup methods keep the created entities in a sequence. Aliasing between entity
  objects is ruled out only by freshness (`fresh`), which is all the source relies on.
