/** The unit conversion the scanner applies to a candidate's diameter. */
module Units {

  /**
   * `convert(units, from_unit, to_unit = 'm')`: only centimetres are known.
   * Converting from "cm" scales by 0.01, converting to "cm" scales by 100,
   * and every other unit name leaves the value as it is.
   */
  function Convert(value: real, fromUnit: string, toUnit: string := "m"): (r: real)
    ensures fromUnit == toUnit ==> r == value
    ensures fromUnit != "cm" && toUnit != "cm" ==> r == value
    ensures fromUnit == "cm" && toUnit != "cm" ==> r == value * 0.01
    ensures fromUnit != "cm" && toUnit == "cm" ==> r == value * 100.0
    ensures 0.0 <= value <==> 0.0 <= r
  {
    var fromFactor := if fromUnit == "cm" then 0.01 else 1.0;
    var conversionFactor := if toUnit == "cm" then fromFactor * 100.0 else fromFactor;
    value * conversionFactor
  }

  /** Converting there and back returns the value, whatever the two unit names are. */
  lemma ConvertRoundTrip(value: real, fromUnit: string, toUnit: string)
    ensures Convert(Convert(value, fromUnit, toUnit), toUnit, fromUnit) == value
  {
  }

  /** 100 cm are 1 m; an unknown unit name converts with factor 1. */
  lemma ConvertExamples()
    ensures Convert(100.0, "cm", "m") == 1.0
    ensures Convert(5.0, "unknownUnit") == 5.0
    ensures Convert(1.0, "m", "cm") == 100.0
  {
  }
}
