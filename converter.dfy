/** The converter: resolves two unit names against the table, rejects
    unknown names and then pairs from different categories, and converts a
    value either linearly through the category's base unit or, for
    temperature, through a Celsius intermediate. */
module UnitConverter {
  import opened Units
  import opened Temperature

  /** The two ways a conversion is refused: a name that is not in the
      table ("Invalid unit"), or two units of different categories
      ("Cannot convert between different categories"). */
  datatype ConvertError = InvalidUnit | DifferentCategories

  datatype Result = Success(value: real) | Failure(error: ConvertError)

  /** What the converter needs of a unit: a positive factor outside
      temperature, and a temperature unit named after one of the three
      scales. */
  ghost predicate Convertible(u: Unit) {
    (u.category != Temperature ==> u.toBase > 0.0) &&
    (u.category == Temperature ==> ScaleOf(Lower(u.name)).Some?)
  }

  /** What the converter needs of its table: every unit is convertible. */
  ghost predicate WellFormed(us: seq<Unit>) {
    forall i :: 0 <= i < |us| ==> Convertible(us[i])
  }

  /** The table the converter is built with meets those needs. */
  lemma TableWellFormed()
    ensures WellFormed(Table)
  {
    TableNamesLowerCase();
  }

  /** The temperature scale a temperature unit stands for: the scale its
      name denotes. */
  function UnitScale(u: Unit): (s: Scale)
    requires u.category == Temperature && ScaleOf(Lower(u.name)).Some?
    ensures ScaleName(s) == Lower(u.name)
  {
    ScaleOf(Lower(u.name)).value
  }

  /** The linear conversion: `value` taken into the base unit by the factor
      of `from`, then out of it by the factor of `to`. */
  function Scaled(value: real, from: Unit, to: Unit): real
    requires to.toBase > 0.0
  {
    value * from.toBase / to.toBase
  }

  /** A value of unit `from` expressed in unit `to` of the same category:
      temperature goes through Celsius on the scales of the two units, every
      other category through the base unit, scaling by the ratio of the two
      factors. */
  function Between(from: Unit, to: Unit, value: real): real
    requires from.category == to.category && Convertible(from) && Convertible(to)
  {
    if from.category == Temperature then
      FromCelsius(UnitScale(to), ToCelsius(UnitScale(from), value))
    else
      Scaled(value, from, to)
  }

  /** A temperature unit named exactly after scale `s` stands for `s`. */
  lemma ScaleOfTemperatureUnit(u: Unit, s: Scale)
    requires u.category == Temperature && u.name == ScaleName(s)
    ensures Convertible(u) && UnitScale(u) == s
  {
    assert Lower(u.name) == u.name;
  }

  /** What converting `value` from `fromUnit` to `toUnit` with table `us`
      means. Names are resolved without regard to case; an unresolved name is
      reported before a category mismatch; two units of one category convert
      as Between says. */
  function Converted(us: seq<Unit>, value: real, fromUnit: string, toUnit: string): Result
    requires WellFormed(us)
  {
    var from := Find(us, fromUnit);
    var to := Find(us, toUnit);
    if from.None? || to.None? then Failure(InvalidUnit)
    else if from.value.category != to.value.category then Failure(DifferentCategories)
    else Success(Between(from.value, to.value, value))
  }

  /** The converter object: it owns the unit table, filled once by the
      constructor and never changed afterwards. */
  class Converter {
    const units: seq<Unit>

    ghost predicate Valid() {
      WellFormed(units)
    }

    constructor ()
      ensures units == Table && Valid()
    {
      units := Table;
      TableWellFormed();
    }

    /** Converts between temperature scales named by `fromUnit` and
        `toUnit`, lower-casing both and going through Celsius. An
        unrecognised source name leaves the intermediate at 0, and an
        unrecognised target name gives 0. */
    method ConvertTemperature(value: real, fromUnit: string, toUnit: string) returns (r: real)
      ensures ScaleOf(Lower(toUnit)).None? ==> r == 0.0
      ensures ScaleOf(Lower(toUnit)).Some? ==>
                r == FromCelsius(ScaleOf(Lower(toUnit)).value,
                                 match ScaleOf(Lower(fromUnit))
                                 case Some(f) => ToCelsius(f, value)
                                 case None => 0.0)
    {
      var from := Lower(fromUnit);
      var to := Lower(toUnit);

      var celsius := 0.0;
      if from == "celsius" {
        celsius := value;
      } else if from == "fahrenheit" {
        celsius := (value - 32.0) * 5.0 / 9.0;
      } else if from == "kelvin" {
        celsius := value - 273.15;
      }

      if to == "celsius" {
        return celsius;
      } else if to == "fahrenheit" {
        return celsius * 9.0 / 5.0 + 32.0;
      } else if to == "kelvin" {
        return celsius + 273.15;
      }
      return 0.0;
    }

    /** Converts `value` from `fromUnit` to `toUnit`. */
    method Convert(value: real, fromUnit: string, toUnit: string) returns (r: Result)
      requires Valid()
      ensures r == Converted(units, value, fromUnit, toUnit)
    {
      var from := Find(units, fromUnit);
      var to := Find(units, toUnit);

      if from.None? || to.None? {
        return Failure(InvalidUnit);
      }
      if from.value.category != to.value.category {
        return Failure(DifferentCategories);
      }
      if from.value.category == Temperature {
        TemperatureNameResolves(units, fromUnit);
        TemperatureNameResolves(units, toUnit);
        var t := ConvertTemperature(value, fromUnit, toUnit);
        return Success(t);
      }

      var baseValue := value * from.value.toBase;
      return Success(baseValue / to.value.toBase);
    }

    /** The names of the units of `category`, in table order. */
    function GetUnitsForCategory(category: Category): (r: seq<string>)
      ensures |r| <= |units|
      ensures forall n :: n in r <==> exists u :: u in units && u.category == category && u.name == n
    {
      InCategoryMembers(units, category);
      NamesMembers(InCategory(units, category));
      Names(InCategory(units, category))
    }

    /** The names of all units, in table order. */
    function GetAllUnits(): (r: seq<string>)
      ensures |r| == |units|
      ensures forall i :: 0 <= i < |r| ==> r[i] == units[i].name
    {
      Names(units)
    }
  }

  /** A name that resolves to a temperature unit lower-cases to the name
      of that unit's scale; so the fall-back results of ConvertTemperature
      are never reached from Convert. */
  lemma TemperatureNameResolves(us: seq<Unit>, name: string)
    requires WellFormed(us)
    requires Find(us, name).Some? && Find(us, name).value.category == Temperature
    ensures ScaleOf(Lower(name)) == Some(UnitScale(Find(us, name).value))
  {
    var u := Find(us, name).value;
    var i :| 0 <= i < |us| && us[i] == u;
    assert Lower(name) == Lower(u.name);
  }
}
