# Unit converter — a Dafny model

This project models the conversion core of a small console unit converter.
A `Converter` object holds a fixed table of 21 units. Each unit has a name,
a factor to the base unit of its category, and a category: length, weight,
temperature, volume or speed. The converter offers three public operations:

- `Convert` turns a value in one named unit into another.
  - Names are matched without regard to case.
  - An unknown name is refused with "Invalid unit".
  - Two units of different categories are refused with "Cannot convert
    between different categories".
  - Temperatures go through Celsius.
  - Every other category goes through the base unit: multiply by the source
    factor, then divide by the target factor.
- `GetUnitsForCategory` lists the names of one category, in table order.
- `GetAllUnits` lists every name, in table order.

A private helper, `ConvertTemperature`, does the Celsius step. Only `Convert`
calls it. It lower-cases both names and recognises `celsius`, `fahrenheit`
and `kelvin`.

The files:

- `units.dfy` (module `Units`) holds the following:
  - the `Category` enumeration and the `Unit` record;
  - the constant `Table`, in the order the source builds it;
  - ASCII case folding;
  - the first-match lookup `Find`;
  - the two listing functions `InCategory` and `Names`;
  - facts about the table: its names are lower case and distinct, and its
    factors are positive.
- `temperature.dfy` (module `Temperature`) holds the three scales, the
  affine maps to and from Celsius, and their round trips.
- `converter.dfy` (module `UnitConverter`) holds the following:
  - the `Converter` class;
  - `Converted`, the specification function that its `Convert` method is
    proved against;
  - `Between`, the conversion between two resolved units.
- `properties.dfy` (module `ConversionProperties`) holds the error cases,
  identity, composition, the round trip, linearity and case-insensitivity.
- `table_facts.dfy` (module `TableFacts`) states what the converter gives
  for its own table: the listings per category and in full, and reference
  conversions.

Values are modelled as mathematical reals, not IEEE doubles. So the round
trip and composition laws hold exactly here. In the running program they
hold only up to rounding, and overflow or NaN can break them outright (see
"Left out").

The two exceptions that `Convert` throws are modelled as the error results
`Failure(InvalidUnit)` and `Failure(DifferentCategories)`.

The converter table is a `const` field set by the constructor. The source
never changes the list after construction. `Valid()` says that every unit
of the table can be converted:

- outside temperature, its factor is positive;
- for temperature, its name is one of the three scale names.

The table meets `Valid()` (`TableWellFormed`).

`ConvertTemperature` falls back to 0 for an unrecognised name; the model
keeps that fallback. Because the helper is private in the source, that
fallback could only be reached through `Convert`.
`TemperatureNameResolves` proves that `Convert` can never reach that
fallback: a name that resolves to a temperature unit always lower-cases to
one of the three scale names.

## Model

| member | source | states |
|---|---|---|
| Units.Table | main.cs:36-63 | definition (a constant): the 21 units with their names, factors and categories, in source order; its properties are stated by TableNamesLowerCase, TableNamesDistinct, TableFactorsPositive, TableWellFormed and the listing lemmas |
| Units.EqualsIgnoreCase | main.cs:68-69 | definition: two names match when they agree after lower-casing; FindIgnoresCase and ConvertIgnoresCase state what lookup and conversion make of it |
| Units.Find | main.cs:68-69 | None exactly when no unit name matches case-insensitively; otherwise a unit of the list whose name matches |
| Units.FindFirst | main.cs:68-69 | when several units match, lookup returns the first match in list order |
| Units.FindIgnoresCase | main.cs:68-69 | two names that agree after lower-casing resolve to the same unit, or both fail |
| Units.FindUnique | main.cs:68-69 | in a list whose names are distinct ignoring case, a name matching entry i resolves to entry i |
| Units.FindInTable | main.cs:36-63 | in the converter's table, a name matching entry i ignoring case resolves to entry i |
| Units.NotInTable | main.cs:71-74 | a name whose lower case differs from every table name is not found, so it leads to the "Invalid unit" error |
| Units.Lower | main.cs:92-93 | lower-casing keeps the length of the name |
| Units.LowerCaseName | main.cs:92-93 | a name made only of lower-case letters is unchanged by lower-casing |
| Units.Names | main.cs:133 | the projection onto names has one name per unit |
| Units.NamesAre | main.cs:133 | the name projection is determined position by position |
| Units.NamesAppend | main.cs:133 | projecting a concatenation projects each part in turn |
| Units.NamesMembers | main.cs:128 | a name is in the projection exactly when some unit carries it |
| Units.InCategory | main.cs:128 | the category filter never grows the list |
| Units.InCategoryMembers | main.cs:128 | the filter keeps exactly the units of the list that have the requested category |
| Units.InCategoryAppend | main.cs:128 | the filter distributes over concatenation, so it keeps table order |
| Units.InCategoryAll | main.cs:128 | a run of units all of the category is kept whole |
| Units.InCategoryNone | main.cs:128 | a run of units none of the category is dropped whole |
| Units.InCategoryBlock | main.cs:128 | when the category's units form one contiguous block, the filter returns exactly that block |
| Units.TableNamesLowerCase | main.cs:38-62 | every table name is already lower case |
| Units.TableNamesDiffer | main.cs:38-62 | no two table entries share a name |
| Units.TableNamesDistinct | main.cs:38-62 | no two table names coincide ignoring case, so case-insensitive lookup is unambiguous |
| Units.TableFactorsPositive | main.cs:38-62 | every factor in the table is positive, so the division on line 87 is defined |
| Temperature.ScaleOf | main.cs:97-121 | exactly the names celsius, fahrenheit and kelvin are recognised, each as the scale of that name |
| Temperature.ToCelsius | main.cs:97-108 | definition: the formula taking a reading on each scale into Celsius; its properties are stated by ToCelsiusFromCelsius, FromCelsiusToCelsius and ReferencePoints |
| Temperature.FromCelsius | main.cs:110-121 | definition: the formula taking a Celsius reading out to each scale; its properties are stated by the two round-trip lemmas, FromCelsiusMonotonic and ReferencePoints |
| Temperature.ToCelsiusFromCelsius | main.cs:103-120 | for each scale, converting out of Celsius and back gives the Celsius value again |
| Temperature.FromCelsiusToCelsius | main.cs:103-120 | for each scale, converting into Celsius and back gives the reading again |
| Temperature.FromCelsiusMonotonic | main.cs:112-120 | each map out of Celsius is strictly increasing |
| Temperature.ReferencePoints | main.cs:103-120 | 0 C is 32 F and 273.15 K, 100 C is 212 F, -40 F is -40 C, 0 K is -273.15 C |
| UnitConverter.TableWellFormed | main.cs:36-63 | every table unit is convertible: positive factor outside temperature, a scale name for temperature |
| UnitConverter.UnitScale | main.cs:97-121 | the scale of a temperature unit is the one whose name is the unit's lower-cased name |
| UnitConverter.Scaled | main.cs:86-87 | definition: the linear conversion, value times the source factor divided by the target factor; ResolvedLinear, ScaledOne and BetweenLinear state its properties |
| UnitConverter.Between | main.cs:81-87 | definition: conversion between two resolved units of one category, through Celsius for temperature and `Scaled` otherwise; BetweenSelf, BetweenCompose and BetweenLinear state its properties |
| UnitConverter.Converted | main.cs:66-88 | definition: the specification of Convert, InvalidUnit first, then DifferentCategories, then Between; InvalidUnitIffUnknown, DifferentCategoriesIffMismatch, Resolved, ConvertToSelf, ConvertCompose, ConvertRoundTrip and ConvertIgnoresCase state its properties |
| UnitConverter.ScaleOfTemperatureUnit | main.cs:51-53 | a temperature unit named after a scale is convertible and stands for that scale |
| UnitConverter.TemperatureNameResolves | main.cs:81-83 | a name that resolves to a temperature unit lower-cases to that unit's scale name, so the 0 fallback of ConvertTemperature is unreachable from Convert |
| UnitConverter.Converter.constructor | main.cs:34-64 | the converter holds exactly the 21-unit table, in source order, and the table is convertible |
| UnitConverter.Converter.ConvertTemperature | main.cs:90-124 | the result is the source reading taken into Celsius (0 when the source scale is unrecognised) and then out to the target scale; 0 when the target scale is unrecognised |
| UnitConverter.Converter.Convert | main.cs:66-88 | the result is the specification Converted: InvalidUnit if either name is unknown, otherwise DifferentCategories if the categories differ, otherwise the value through Celsius or through the base unit |
| UnitConverter.Converter.GetUnitsForCategory | main.cs:126-129 | at most as many names as units; a name is listed exactly when a unit of the table has that name and that category |
| UnitConverter.Converter.GetAllUnits | main.cs:131-134 | one name per table unit, position i holding the name of unit i |
| ConversionProperties.InvalidUnitIffUnknown | main.cs:71-74 | conversion fails with InvalidUnit exactly when either name is unknown, whatever the categories |
| ConversionProperties.DifferentCategoriesIffMismatch | main.cs:76-79 | conversion fails with DifferentCategories exactly when both names are known and their units lie in different categories |
| ConversionProperties.Resolved | main.cs:66-88 | with distinct names, two names matching entries i and j resolve to them; the conversion is refused for different categories and otherwise converts between those two units |
| ConversionProperties.ResolvedLinear | main.cs:86-87 | with distinct names, two names resolving to non-temperature units of one category convert to `Scaled`: the value times the first factor divided by the second |
| ConversionProperties.ScaledOne | main.cs:86-87 | helper for KilometerInMeters and MileInFeet: `Scaled` at value 1 is the ratio of the two factors |
| ConversionProperties.ResolvedTemperature | main.cs:81-83 | two temperature names convert by going into Celsius on the source scale and out on the target scale |
| ConversionProperties.BetweenSelf | main.cs:81-87 | converting a unit to itself keeps the value, temperature included |
| ConversionProperties.BetweenCompose | main.cs:81-87 | converting from a to b and then from b to c equals converting from a to c |
| ConversionProperties.BetweenLinear | main.cs:86-87 | outside temperature, scaling the input by k scales the output by k |
| ConversionProperties.ConvertToSelf | main.cs:66-88 | a known name converted to itself, in any casing, gives back the value |
| ConversionProperties.ConvertCompose | main.cs:66-88 | two successful conversions in a row equal the direct conversion |
| ConversionProperties.ConvertRoundTrip | main.cs:66-88 | a successful conversion followed by the reverse conversion returns the original value |
| ConversionProperties.ConvertIgnoresCase | main.cs:68-69 | names that agree after lower-casing give the same result or the same error |
| TableFacts.LengthBlock | main.cs:38-43 | the length listing is the names of table entries 0 to 5 |
| TableFacts.WeightBlock | main.cs:45-49 | the weight listing is the names of table entries 6 to 10 |
| TableFacts.TemperatureBlock | main.cs:51-53 | the temperature listing is the names of table entries 11 to 13 |
| TableFacts.VolumeBlock | main.cs:55-58 | the volume listing is the names of table entries 14 to 17 |
| TableFacts.SpeedBlock | main.cs:60-62 | the speed listing is the names of table entries 18 to 20 |
| TableFacts.LengthListing | main.cs:126-129 | the length listing is meter, kilometer, centimeter, mile, foot, inch |
| TableFacts.WeightListing | main.cs:126-129 | the weight listing is kilogram, gram, pound, ounce, ton |
| TableFacts.TemperatureListing | main.cs:126-129 | the temperature listing is celsius, fahrenheit, kelvin |
| TableFacts.VolumeListing | main.cs:126-129 | the volume listing is liter, milliliter, gallon, cup |
| TableFacts.SpeedListing | main.cs:126-129 | the speed listing is mps, kph, mph |
| TableFacts.AllUnitsListing | main.cs:131-134 | the full listing has 21 names and is the five category listings joined in category order |
| TableFacts.AllUnitsDistinct | main.cs:131-134 | no two names in the full listing coincide ignoring case |
| TableFacts.FreezingInFahrenheit | main.cs:110-117 | 0 celsius converts to 32 fahrenheit |
| TableFacts.BoilingInFahrenheit | main.cs:110-117 | 100 celsius converts to 212 fahrenheit |
| TableFacts.FreezingInKelvin | main.cs:118-121 | 0 celsius converts to 273.15 kelvin |
| TableFacts.KilometerInMeters | main.cs:86-87 | 1 kilometer converts to 1000 meter |
| TableFacts.MileInFeet | main.cs:86-87 | 1 mile converts to 1609.34 / 0.3048 foot |
| TableFacts.MeterToKilogramRefused | main.cs:76-79 | meter to kilogram fails with DifferentCategories |
| TableFacts.ParsecRefused | main.cs:71-74 | parsec to meter fails with InvalidUnit |
| TableFacts.UpperCaseNames | main.cs:68-69 | METER to Kilometer converts exactly like meter to kilometer |

## Left out

- The `Program` class is not modelled: console menus, input parsing, output formatting and the exception handler in main.cs:137 onwards. It is I/O around the core.
- Double-precision arithmetic: values are reals. The round-trip, composition and linearity laws are exact here. In the running program they hold only up to rounding for moderate values. Overflow to infinity and NaN break them outright. For example, `Convert(1e308, "kilometer", "kilometer")` computes `1e308 * 1000`, which is infinite, and then divides it by 1000, which gives infinity rather than the input (main.cs:86-87). A NaN input fails every law.
- Case-insensitive matching is modelled for ASCII only. The source uses `OrdinalIgnoreCase` for lookup and the culture-sensitive `ToLower` in `ConvertTemperature`. Non-ASCII case mappings are not modelled. This includes a culture where upper-case `I` does not lower-case to `i`. Under such a culture, "KELVIN" would be found by lookup but missed by `ConvertTemperature`. As the target name it would reach the final `return 0` (main.cs:123). As the source name it would leave the Celsius intermediate at 0 (main.cs:95-108), which is then converted out, for example to 32 for fahrenheit (main.cs:116).
- UnitConverter.Converter.ConvertTemperature: the model's method is public, because a Dafny class member cannot be made private here. A direct call can therefore reach its two fallbacks, the 0 intermediate and the final 0. The source's private helper is called only from `Convert`, which TemperatureNameResolves shows never reaches them.
- Exception messages: the two errors are kept as the two `ConvertError` values, without their text.
- The public setters of `Unit` are not modelled. The converter never calls them, and its table does not change after construction.
- UnitConverter.Converter.GetUnitsForCategory: its ensures states membership and length only. Table order is stated by `InCategoryAppend` and by the per-category listing lemmas.
