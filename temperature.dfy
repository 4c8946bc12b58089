/** The three temperature scales and the affine maps between each of them
    and the Celsius intermediate that every temperature conversion passes
    through. */
module Temperature {
  import opened Units

  datatype Scale = Celsius | Fahrenheit | Kelvin

  /** The name a scale is recognised by (after lower-casing). */
  function ScaleName(s: Scale): string {
    match s
    case Celsius => "celsius"
    case Fahrenheit => "fahrenheit"
    case Kelvin => "kelvin"
  }

  /** The scale a lower-cased name denotes, if any: only the three exact
      scale names are recognised. */
  function ScaleOf(name: string): (r: Option<Scale>)
    ensures r.Some? <==> name in {"celsius", "fahrenheit", "kelvin"}
    ensures r.Some? ==> ScaleName(r.value) == name
  {
    if name == "celsius" then Some(Celsius)
    else if name == "fahrenheit" then Some(Fahrenheit)
    else if name == "kelvin" then Some(Kelvin)
    else None
  }

  /** A reading on scale `s`, expressed in degrees Celsius. */
  function ToCelsius(s: Scale, v: real): real {
    match s
    case Celsius => v
    case Fahrenheit => (v - 32.0) * 5.0 / 9.0
    case Kelvin => v - 273.15
  }

  /** A Celsius reading, expressed on scale `s`. */
  function FromCelsius(s: Scale, c: real): real {
    match s
    case Celsius => c
    case Fahrenheit => c * 9.0 / 5.0 + 32.0
    case Kelvin => c + 273.15
  }

  /** Going out of Celsius and back loses nothing. */
  lemma ToCelsiusFromCelsius(s: Scale, c: real)
    ensures ToCelsius(s, FromCelsius(s, c)) == c
  {
  }

  /** Going into Celsius and back loses nothing. */
  lemma FromCelsiusToCelsius(s: Scale, v: real)
    ensures FromCelsius(s, ToCelsius(s, v)) == v
  {
  }

  /** Each map from Celsius is strictly increasing, so conversions keep the
      order of readings. */
  lemma FromCelsiusMonotonic(s: Scale, c: real, d: real)
    requires c < d
    ensures FromCelsius(s, c) < FromCelsius(s, d)
  {
  }

  /** The reference points: water freezes at 0 C = 32 F = 273.15 K and
      boils at 100 C = 212 F, and -40 reads the same in C and F. */
  lemma ReferencePoints()
    ensures FromCelsius(Fahrenheit, 0.0) == 32.0
    ensures FromCelsius(Fahrenheit, 100.0) == 212.0
    ensures FromCelsius(Kelvin, 0.0) == 273.15
    ensures ToCelsius(Fahrenheit, -40.0) == -40.0
    ensures ToCelsius(Kelvin, 0.0) == -273.15
  {
  }
}
