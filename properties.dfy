/** Properties of conversion: which error wins, which branch runs, identity,
    composition and round trips, indifference to case, and the values the
    converter gives for the table it is built with. */
module ConversionProperties {
  import opened Units
  import opened Temperature
  import opened UnitConverter

  /** No unit of `us` has a name matching `name` without regard to case. */
  ghost predicate Unknown(us: seq<Unit>, name: string) {
    forall i :: 0 <= i < |us| ==> !EqualsIgnoreCase(us[i].name, name)
  }

  // ---------------------------------------------------------------------
  // Errors
  // ---------------------------------------------------------------------

  /** Conversion fails with InvalidUnit exactly when one of the names is
      unknown, whatever the categories of the other: the unknown-name check
      runs before the category check. */
  lemma InvalidUnitIffUnknown(us: seq<Unit>, value: real, fromUnit: string, toUnit: string)
    requires WellFormed(us)
    ensures Converted(us, value, fromUnit, toUnit) == Failure(InvalidUnit)
            <==> Unknown(us, fromUnit) || Unknown(us, toUnit)
  {
  }

  /** Conversion fails with DifferentCategories exactly when both names are
      known and the units they resolve to lie in different categories. */
  lemma DifferentCategoriesIffMismatch(us: seq<Unit>, value: real, fromUnit: string, toUnit: string)
    requires WellFormed(us)
    ensures Converted(us, value, fromUnit, toUnit) == Failure(DifferentCategories)
            <==> !Unknown(us, fromUnit) && !Unknown(us, toUnit) &&
                 Find(us, fromUnit).value.category != Find(us, toUnit).value.category
  {
  }

  /** In a table with distinct names, two names that match units `i` and
      `j` of one category convert as those units say. */
  lemma Resolved(us: seq<Unit>, v: real, a: string, b: string, i: int, j: int)
    requires WellFormed(us) && DistinctNames(us) && 0 <= i < |us| && 0 <= j < |us|
    requires EqualsIgnoreCase(a, us[i].name) && EqualsIgnoreCase(b, us[j].name)
    ensures Find(us, a) == Some(us[i]) && Find(us, b) == Some(us[j])
    ensures us[i].category != us[j].category ==> Converted(us, v, a, b) == Failure(DifferentCategories)
    ensures us[i].category == us[j].category ==> Converted(us, v, a, b) == Success(Between(us[i], us[j], v))
  {
    FindUnique(us, a, i);
    FindUnique(us, b, j);
  }

  /** For temperature, two resolved units convert through Celsius on their
      scales. */
  lemma ResolvedTemperature(us: seq<Unit>, v: real, a: string, b: string, i: int, j: int)
    requires WellFormed(us) && DistinctNames(us) && 0 <= i < |us| && 0 <= j < |us|
    requires EqualsIgnoreCase(a, us[i].name) && EqualsIgnoreCase(b, us[j].name)
    requires us[i].category == us[j].category == Temperature
    ensures Converted(us, v, a, b) == Success(FromCelsius(UnitScale(us[j]), ToCelsius(UnitScale(us[i]), v)))
  {
    Resolved(us, v, a, b, i, j);
  }

  /** Outside temperature, two resolved names of one category convert
      linearly: by the factor of the first unit into the base unit, then by
      the factor of the second out of it. */
  lemma ResolvedLinear(us: seq<Unit>, v: real, a: string, b: string, i: int, j: int)
    requires WellFormed(us) && DistinctNames(us) && 0 <= i < |us| && 0 <= j < |us|
    requires EqualsIgnoreCase(a, us[i].name) && EqualsIgnoreCase(b, us[j].name)
    requires us[i].category == us[j].category != Temperature
    ensures us[j].toBase > 0.0 && Converted(us, v, a, b) == Success(Scaled(v, us[i], us[j]))
  {
    Resolved(us, v, a, b, i, j);
  }

  /** One unit of `from` is the ratio of the two factors in units of `to`. */
  lemma ScaledOne(from: Unit, to: Unit)
    requires to.toBase > 0.0
    ensures Scaled(1.0, from, to) == from.toBase / to.toBase
  {
  }

  // ---------------------------------------------------------------------
  // Identity, composition, round trip: first between two units, then
  // between two names
  // ---------------------------------------------------------------------

  /** A unit converted to itself keeps the value. */
  lemma BetweenSelf(u: Unit, v: real)
    requires Convertible(u)
    ensures Between(u, u, v) == v
  {
    if u.category == Temperature {
      FromCelsiusToCelsius(UnitScale(u), v);
    } else {
      assert v * u.toBase / u.toBase == v;
    }
  }

  /** Going from a to b and then from b to c is going from a to c. */
  lemma BetweenCompose(a: Unit, b: Unit, c: Unit, v: real)
    requires a.category == b.category == c.category
    requires Convertible(a) && Convertible(b) && Convertible(c)
    ensures Between(b, c, Between(a, b, v)) == Between(a, c, v)
  {
    if a.category == Temperature {
      ToCelsiusFromCelsius(UnitScale(b), ToCelsius(UnitScale(a), v));
    } else {
      var fa, fb, fc := a.toBase, b.toBase, c.toBase;
      assert (v * fa / fb) * fb == v * fa;
      assert (v * fa / fb) * fb / fc == v * fa / fc;
    }
  }

  /** Outside temperature, scaling the input scales the output. */
  lemma BetweenLinear(a: Unit, b: Unit, k: real, v: real)
    requires a.category == b.category != Temperature && Convertible(a) && Convertible(b)
    ensures Between(a, b, k * v) == k * Between(a, b, v)
  {
    assert (k * v) * a.toBase / b.toBase == k * (v * a.toBase / b.toBase);
  }

  /** Converting a known unit to itself, however either name is cased,
      returns the value unchanged, temperature included. */
  lemma ConvertToSelf(us: seq<Unit>, value: real, fromUnit: string, toUnit: string)
    requires WellFormed(us) && !Unknown(us, fromUnit) && Lower(fromUnit) == Lower(toUnit)
    ensures Converted(us, value, fromUnit, toUnit) == Success(value)
  {
    FindIgnoresCase(us, fromUnit, toUnit);
    BetweenSelf(Find(us, fromUnit).value, value);
  }

  /** Converting a to b and then b to c gives what converting a to c gives. */
  lemma ConvertCompose(us: seq<Unit>, v: real, a: string, b: string, c: string)
    requires WellFormed(us)
    requires Converted(us, v, a, b).Success?
    requires Converted(us, Converted(us, v, a, b).value, b, c).Success?
    ensures Converted(us, Converted(us, v, a, b).value, b, c) == Converted(us, v, a, c)
  {
    BetweenCompose(Find(us, a).value, Find(us, b).value, Find(us, c).value, v);
  }

  /** Converting a to b and back again returns the original value. */
  lemma ConvertRoundTrip(us: seq<Unit>, v: real, a: string, b: string)
    requires WellFormed(us) && Converted(us, v, a, b).Success?
    ensures Converted(us, Converted(us, v, a, b).value, b, a) == Success(v)
  {
    var ua, ub := Find(us, a).value, Find(us, b).value;
    BetweenCompose(ua, ub, ua, v);
    BetweenSelf(ua, v);
  }

  // ---------------------------------------------------------------------
  // Case
  // ---------------------------------------------------------------------

  /** Names that agree after lower-casing give the same result or the same
      error. */
  lemma ConvertIgnoresCase(us: seq<Unit>, v: real, a: string, b: string, a': string, b': string)
    requires WellFormed(us) && Lower(a) == Lower(a') && Lower(b) == Lower(b')
    ensures Converted(us, v, a, b) == Converted(us, v, a', b')
  {
    FindIgnoresCase(us, a, a');
    FindIgnoresCase(us, b, b');
  }
}
