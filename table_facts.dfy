/** What the converter gives for the table it is built with: the listings
    per category and in full. */
module TableFacts {
  import opened Units
  import opened Temperature
  import opened UnitConverter
  import opened ConversionProperties

  /** The length units form one block of the table. */
  lemma LengthBlock(cv: Converter)
    requires cv.units == Table
    ensures cv.GetUnitsForCategory(Length) == Names(cv.units[0..6])
  {
    InCategoryBlock(cv.units, Length, 0, 6);
  }

  /** The weight units form one block of the table. */
  lemma WeightBlock(cv: Converter)
    requires cv.units == Table
    ensures cv.GetUnitsForCategory(Weight) == Names(cv.units[6..11])
  {
    InCategoryBlock(cv.units, Weight, 6, 11);
  }

  /** The temperature units form one block of the table. */
  lemma TemperatureBlock(cv: Converter)
    requires cv.units == Table
    ensures cv.GetUnitsForCategory(Temperature) == Names(cv.units[11..14])
  {
    InCategoryBlock(cv.units, Temperature, 11, 14);
  }

  /** The volume units form one block of the table. */
  lemma VolumeBlock(cv: Converter)
    requires cv.units == Table
    ensures cv.GetUnitsForCategory(Volume) == Names(cv.units[14..18])
  {
    InCategoryBlock(cv.units, Volume, 14, 18);
  }

  /** The speed units form one block of the table. */
  lemma SpeedBlock(cv: Converter)
    requires cv.units == Table
    ensures cv.GetUnitsForCategory(Speed) == Names(cv.units[18..21])
  {
    InCategoryBlock(cv.units, Speed, 18, 21);
  }

  /** The length units, in table order. */
  lemma LengthListing(cv: Converter)
    requires cv.units == Table
    ensures cv.GetUnitsForCategory(Length) == ["meter", "kilometer", "centimeter", "mile", "foot", "inch"]
  {
    NamesAre(cv.units[0..6], ["meter", "kilometer", "centimeter", "mile", "foot", "inch"]);
    LengthBlock(cv);
  }

  /** The weight units, in table order. */
  lemma WeightListing(cv: Converter)
    requires cv.units == Table
    ensures cv.GetUnitsForCategory(Weight) == ["kilogram", "gram", "pound", "ounce", "ton"]
  {
    NamesAre(cv.units[6..11], ["kilogram", "gram", "pound", "ounce", "ton"]);
    WeightBlock(cv);
  }

  /** The temperature units, in table order. */
  lemma TemperatureListing(cv: Converter)
    requires cv.units == Table
    ensures cv.GetUnitsForCategory(Temperature) == ["celsius", "fahrenheit", "kelvin"]
  {
    NamesAre(cv.units[11..14], ["celsius", "fahrenheit", "kelvin"]);
    TemperatureBlock(cv);
  }

  /** The volume units, in table order. */
  lemma VolumeListing(cv: Converter)
    requires cv.units == Table
    ensures cv.GetUnitsForCategory(Volume) == ["liter", "milliliter", "gallon", "cup"]
  {
    NamesAre(cv.units[14..18], ["liter", "milliliter", "gallon", "cup"]);
    VolumeBlock(cv);
  }

  /** The speed units, in table order. */
  lemma SpeedListing(cv: Converter)
    requires cv.units == Table
    ensures cv.GetUnitsForCategory(Speed) == ["mps", "kph", "mph"]
  {
    NamesAre(cv.units[18..21], ["mps", "kph", "mph"]);
    SpeedBlock(cv);
  }

  /** The full listing holds all 21 names, category after category in the
      order the categories are declared. */
  lemma AllUnitsListing(cv: Converter)
    requires cv.units == Table
    ensures |cv.GetAllUnits()| == 21
    ensures cv.GetAllUnits() == cv.GetUnitsForCategory(Length) + cv.GetUnitsForCategory(Weight)
                                + cv.GetUnitsForCategory(Temperature) + cv.GetUnitsForCategory(Volume)
                                + cv.GetUnitsForCategory(Speed)
  {
    var u := cv.units;
    assert u == u[0..6] + u[6..11] + u[11..14] + u[14..18] + u[18..21];
    NamesAppend(u[0..6], u[6..11]);
    NamesAppend(u[0..6] + u[6..11], u[11..14]);
    NamesAppend(u[0..6] + u[6..11] + u[11..14], u[14..18]);
    NamesAppend(u[0..6] + u[6..11] + u[11..14] + u[14..18], u[18..21]);
    LengthBlock(cv);
    WeightBlock(cv);
    TemperatureBlock(cv);
    VolumeBlock(cv);
    SpeedBlock(cv);
  }

  /** No two names in the full listing coincide without regard to case. */
  lemma AllUnitsDistinct(cv: Converter)
    requires cv.units == Table
    ensures forall i, j :: 0 <= i < j < |cv.GetAllUnits()| ==>
              !EqualsIgnoreCase(cv.GetAllUnits()[i], cv.GetAllUnits()[j])
  {
    TableNamesDistinct();
  }

  // ---------------------------------------------------------------------
  // Reference conversions
  // ---------------------------------------------------------------------

  /** 0 C is 32 F. */
  lemma FreezingInFahrenheit()
    ensures WellFormed(Table) && Converted(Table, 0.0, "celsius", "fahrenheit") == Success(32.0)
  {
    TableWellFormed();
    TableNamesDistinct();
    ResolvedTemperature(Table, 0.0, "celsius", "fahrenheit", 11, 12);
    ScaleOfTemperatureUnit(Table[11], Celsius);
    ScaleOfTemperatureUnit(Table[12], Fahrenheit);
    ReferencePoints();
  }

  /** 100 C is 212 F. */
  lemma BoilingInFahrenheit()
    ensures WellFormed(Table) && Converted(Table, 100.0, "celsius", "fahrenheit") == Success(212.0)
  {
    TableWellFormed();
    TableNamesDistinct();
    ResolvedTemperature(Table, 100.0, "celsius", "fahrenheit", 11, 12);
    ScaleOfTemperatureUnit(Table[11], Celsius);
    ScaleOfTemperatureUnit(Table[12], Fahrenheit);
    ReferencePoints();
  }

  /** 0 C is 273.15 K. */
  lemma FreezingInKelvin()
    ensures WellFormed(Table) && Converted(Table, 0.0, "celsius", "kelvin") == Success(273.15)
  {
    TableWellFormed();
    TableNamesDistinct();
    ResolvedTemperature(Table, 0.0, "celsius", "kelvin", 11, 13);
    ScaleOfTemperatureUnit(Table[11], Celsius);
    ScaleOfTemperatureUnit(Table[13], Kelvin);
    ReferencePoints();
  }

  /** 1 km is 1000 m. */
  lemma KilometerInMeters()
    ensures WellFormed(Table) && Converted(Table, 1.0, "kilometer", "meter") == Success(1000.0)
  {
    TableWellFormed();
    TableNamesDistinct();
    Resolved(Table, 1.0, "kilometer", "meter", 1, 0);
    ScaledOne(Table[1], Table[0]);
  }

  /** 1 mile is 1609.34 / 0.3048 feet (about 5280). */
  lemma MileInFeet()
    ensures WellFormed(Table) && Converted(Table, 1.0, "mile", "foot") == Success(1609.34 / 0.3048)
  {
    TableWellFormed();
    TableNamesDistinct();
    Resolved(Table, 1.0, "mile", "foot", 3, 4);
    ScaledOne(Table[3], Table[4]);
  }

  /** Metres cannot be converted to kilograms. */
  lemma MeterToKilogramRefused()
    ensures WellFormed(Table) && Converted(Table, 1.0, "meter", "kilogram") == Failure(DifferentCategories)
  {
    TableWellFormed();
    TableNamesDistinct();
    Resolved(Table, 1.0, "meter", "kilogram", 0, 6);
  }

  /** "parsec" is not a unit of the table. */
  lemma ParsecRefused()
    ensures WellFormed(Table) && Converted(Table, 1.0, "parsec", "meter") == Failure(InvalidUnit)
  {
    TableWellFormed();
    assert Lower("parsec") == "parsec";
    NotInTable("parsec");
  }

  /** Upper-case spellings convert like the table's own names. */
  lemma UpperCaseNames()
    ensures WellFormed(Table) && Converted(Table, 1.0, "METER", "Kilometer") == Converted(Table, 1.0, "meter", "kilometer")
  {
    TableWellFormed();
    assert Lower("METER") == "meter" == Lower("meter");
    assert Lower("Kilometer") == "kilometer" == Lower("kilometer");
    ConvertIgnoresCase(Table, 1.0, "METER", "Kilometer", "meter", "kilometer");
  }
}
