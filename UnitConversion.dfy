/** Metric to imperial conversion for displayed values: the five linear
    converters (over reals), the value dispatch and the display-unit map. */
module UnitConversion {
  import opened Json

  const Metric := "metric"
  const Imperial := "imperial"

  /** The five converters of the value dispatch. */
  datatype Converter = KmToMiles | LitersToGallons | CelsiusToFahrenheit | KpaToPsi | BarToPsi

  /** Each converter keeps the sign of a quantity measured from zero, and the
      temperature converter keeps freezing at 32 °F and meets the identity only
      at -40. */
  function Convert(c: Converter, x: real): (r: real)
    ensures c != CelsiusToFahrenheit ==> (r > 0.0 <==> x > 0.0) && (r == 0.0 <==> x == 0.0)
    ensures c == CelsiusToFahrenheit ==> (r > 32.0 <==> x > 0.0) && (r == x <==> x == -40.0)
  {
    match c
    case KmToMiles => x * 0.621371
    case LitersToGallons => x * 0.264172
    case CelsiusToFahrenheit => (x * 9.0 / 5.0) + 32.0
    case KpaToPsi => x * 0.145038
    case BarToPsi => x * 14.5038
  }

  /** Freezing and boiling points, the crossing at -40, and a zero that every
      other converter keeps. */
  lemma ConverterFixedPoints()
    ensures Convert(CelsiusToFahrenheit, 0.0) == 32.0
    ensures Convert(CelsiusToFahrenheit, 100.0) == 212.0
    ensures Convert(CelsiusToFahrenheit, -40.0) == -40.0
    ensures forall c: Converter | c != CelsiusToFahrenheit :: Convert(c, 0.0) == 0.0
  {
  }

  /** Every converter is strictly increasing: all coefficients are positive. */
  lemma ConverterStrictlyIncreasing(c: Converter, x: real, y: real)
    requires x < y
    ensures Convert(c, x) < Convert(c, y)
  {
  }

  /** The `conversions` map of `convert_value`. */
  const Conversions: map<string, Converter> := map[
    "km" := KmToMiles,
    "L" := LitersToGallons,
    "°C" := CelsiusToFahrenheit,
    "bar" := BarToPsi,
    "kPa" := KpaToPsi
  ]

  /** The `unit_map` of `get_display_unit`. */
  const DisplayUnits: map<string, string> := map[
    "km" := "mi",
    "L" := "gal",
    "°C" := "°F",
    "bar" := "psi",
    "kPa" := "psi",
    "km/h" := "mph"
  ]

  /** `convert_value`: None stays None; under "metric" nothing changes; any other
      system converts the units of the map, rounding to two places with `round2`,
      and passes every other unit through. */
  function ConvertValue(value: Option<real>, fromUnit: string, system: string, round2: real -> real): (r: Option<real>)
    ensures r.None? <==> value.None?
  {
    if system == Metric || value.None? then value
    else if fromUnit in Conversions then Some(round2(Convert(Conversions[fromUnit], value.value)))
    else value
  }

  /** `get_display_unit`: the metric unit under "metric", else its imperial unit
      when it has one. */
  function DisplayUnit(metricUnit: string, system: string): (r: string)
    ensures r != metricUnit <==> system != Metric && metricUnit in DisplayUnits
    ensures r != metricUnit ==> r in {"mi", "gal", "°F", "psi", "mph"}
  {
    if system == Metric then metricUnit
    else if metricUnit in DisplayUnits then DisplayUnits[metricUnit]
    else metricUnit
  }

  /** Under "metric", or for a missing value, nothing is converted. */
  lemma ConvertIdentity(value: Option<real>, fromUnit: string, system: string, round2: real -> real)
    requires system == Metric || value.None?
    ensures ConvertValue(value, fromUnit, system, round2) == value
  {
  }

  /** A unit outside km, L, °C, bar and kPa keeps its value under every system. */
  lemma ConvertPassesOtherUnits(value: Option<real>, fromUnit: string, system: string, round2: real -> real)
    requires fromUnit !in {"km", "L", "°C", "bar", "kPa"}
    ensures ConvertValue(value, fromUnit, system, round2) == value
  {
  }

  /** Each of the five units is converted under a non-metric system. */
  lemma ConvertsEachUnit(x: real, system: string, round2: real -> real)
    requires system != Metric
    ensures ConvertValue(Some(x), "km", system, round2) == Some(round2(x * 0.621371))
    ensures ConvertValue(Some(x), "L", system, round2) == Some(round2(x * 0.264172))
    ensures ConvertValue(Some(x), "°C", system, round2) == Some(round2(x * 9.0 / 5.0 + 32.0))
    ensures ConvertValue(Some(x), "bar", system, round2) == Some(round2(x * 14.5038))
    ensures ConvertValue(Some(x), "kPa", system, round2) == Some(round2(x * 0.145038))
  {
  }

  /** Any system other than "metric" is read as imperial, by both functions. */
  lemma NonMetricIsImperial(value: Option<real>, unit: string, system: string, round2: real -> real)
    requires system != Metric
    ensures ConvertValue(value, unit, system, round2) == ConvertValue(value, unit, Imperial, round2)
    ensures DisplayUnit(unit, system) == DisplayUnit(unit, Imperial)
  {
  }

  /** Under "metric" the display unit is the metric one. */
  lemma DisplayUnitMetric(unit: string)
    ensures DisplayUnit(unit, Metric) == unit
  {
  }

  /** Under imperial: km -> mi, L -> gal, °C -> °F, bar and kPa -> psi, km/h -> mph,
      and any other unit is kept. */
  lemma DisplayUnitImperial(unit: string)
    ensures DisplayUnit("km", Imperial) == "mi" && DisplayUnit("L", Imperial) == "gal"
    ensures DisplayUnit("°C", Imperial) == "°F"
    ensures DisplayUnit("bar", Imperial) == "psi" && DisplayUnit("kPa", Imperial) == "psi"
    ensures DisplayUnit("km/h", Imperial) == "mph"
    ensures unit !in {"km", "L", "°C", "bar", "kPa", "km/h"} ==> DisplayUnit(unit, Imperial) == unit
  {
  }

  /** The two maps agree except on "km/h": its display unit becomes mph, but its
      value is passed through unconverted. */
  lemma SpeedIsTheOnlyMismatch(x: real, round2: real -> real)
    ensures Conversions.Keys <= DisplayUnits.Keys
    ensures DisplayUnits.Keys - Conversions.Keys == {"km/h"}
    ensures DisplayUnit("km/h", Imperial) != "km/h"
    ensures ConvertValue(Some(x), "km/h", Imperial, round2) == Some(x)
  {
    assert Conversions.Keys == {"km", "L", "°C", "bar", "kPa"};
    assert DisplayUnits.Keys == {"km", "L", "°C", "bar", "kPa", "km/h"};
  }
}
