/** Unit conversions (src/aldsim/units.py). */
module Units {
  import opened Common

  /** An affine conversion: multiply by c_mul when given, then add c_add
      when given. */
  datatype Conversion = Conversion(cAdd: Option<real> := None, cMul: Option<real> := None)
  {
    /** Conversion.__call__: each absent factor leaves the value as it is. */
    function Apply(value: real): (r: real)
      ensures cAdd.None? && cMul.None? ==> r == value
      ensures cAdd.None? && cMul.Some? ==> r == cMul.value * value
      ensures cAdd.Some? && cMul.None? ==> r - cAdd.value == value
      ensures cAdd.Some? && cMul.Some? ==> r - cAdd.value == cMul.value * value
    {
      var c := if cMul.None? then value else cMul.value * value;
      if cAdd.None? then c else c + cAdd.value
    }
  }

  /** Two offset conversions with opposite offsets undo each other. */
  lemma OppositeOffsetsCancel(d: real, v: real)
    ensures Conversion(cAdd := Some(-d)).Apply(Conversion(cAdd := Some(d)).Apply(v)) == v
  {
  }

  /** The temperature conversion table `_t_conv`. */
  const TemperatureTable: map<(string, string), Conversion> :=
    map[("C", "K") := Conversion(cAdd := Some(273.15)),
        ("K", "C") := Conversion(cAdd := Some(-273.15))]

  /** temperature(value, units='C', to_units='K'): the value itself for equal
      units, the table's conversion otherwise, KeyError for a pair not in the
      table. */
  function Temperature(value: real, units: string := "C", toUnits: string := "K"): (r: Result<real>)
    ensures units == toUnits ==> r == Ok(value)
    ensures units != toUnits ==> (r.Ok? <==> (units, toUnits) in TemperatureTable)
    ensures r.Err? ==> r.error == KeyError
    ensures units != toUnits && r.Ok? ==> r.value == TemperatureTable[(units, toUnits)].Apply(value)
  {
    if units == toUnits then Ok(value)
    else if (units, toUnits) in TemperatureTable then Ok(TemperatureTable[(units, toUnits)].Apply(value))
    else Err(KeyError)
  }

  /** Celsius to kelvin adds 273.15 and kelvin to Celsius subtracts it. */
  lemma CelsiusKelvinOffsets(v: real)
    ensures Temperature(v) == Ok(v + 273.15)
    ensures Temperature(v, "K", "C") == Ok(v - 273.15)
  {
    assert ("C", "K") in TemperatureTable;
    assert ("K", "C") in TemperatureTable;
  }

  /** Celsius to kelvin and back is the identity. */
  lemma CelsiusRoundTrip(v: real)
    ensures Temperature(v).Ok? && Temperature(Temperature(v).value, "K", "C") == Ok(v)
  {
    CelsiusKelvinOffsets(v);
    CelsiusKelvinOffsets(v + 273.15);
  }

  /** A unit pair outside the table raises KeyError. */
  lemma FahrenheitIsUnknown(v: real)
    ensures Temperature(v, "F", "K") == Err(KeyError)
  {
    assert ("F", "K") !in TemperatureTable;
  }

  /** The values of the unit tests of Conversion and temperature. */
  lemma ConversionAndTemperatureExamples()
    ensures Conversion().Apply(1.0) == 1.0
    ensures Conversion(cMul := Some(0.5)).Apply(1.0) == 0.5
    ensures Conversion(cAdd := Some(-1.0)).Apply(1.0) == 0.0
    ensures Temperature(100.0) == Ok(373.15)
    ensures Temperature(373.15, "K", "C") == Ok(100.0)
    ensures Temperature(300.0, "K") == Ok(300.0)
  {
    CelsiusKelvinOffsets(100.0);
    CelsiusKelvinOffsets(373.15);
  }
}
