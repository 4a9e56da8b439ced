# sugarcube in Dafny

A model of the unit-conversion engine of `sugarcube.py`, a small Python
library for converting cooking quantities. The model covers:

- converters between a unit and its measure's base unit (`Linear`, `Constant`,
  `Neutral`, `reverse`);
- units;
- measures, which register units by name and transformations towards other
  measures;
- amounts, with `to`, `toBaseUnit`, scalar `*` and `/`;
- elements and ingredients, which convert across measures through a
  registered transformation;
- the standard catalog: `SIUnitsFromUnit`, the measures Mass, Volume,
  Temperature, Length and Time, the two density transformations between
  Volume and Mass, and the preset elements.

Numbers are exact Dafny `real`s rather than floats, so the inverse laws hold
exactly. Every Python error the engine can raise is a value:

- Python's `ZeroDivisionError` is `Err(DivisionByZero)`. It arises from a zero
  factor in `Linear`, from `Amount / 0` and from a zero density.
- The `ValueError` for a duplicate unit name is `Fail(DuplicateUnit(name))`.
- The `ValueError` for a missing transformation is `Err(NoTransform)`.
- The `TypeError` for a cross-measure `to` is `Err(MeasureMismatch)`.
- The `TypeError` for an operand that is neither a number nor an element is
  `Err(InvalidOperand)`.
- A missing `density` attribute is `Err(MissingProperty("density"))`.
- Using a unit no measure holds (Python's `AttributeError` on `None`) is
  `Err(Unregistered)`. In `toBaseUnit` the converter runs first, so a
  division by zero there is reported instead.

Modules:

- `Errors` (errors.dfy): error values, `Result`, `Outcome`, `Option`.
- `Converters` (converters.dfy): the converter as an affine datatype
  `Converter(factor, constant, reversed)`. Every converter sugarcube builds is
  of this form.
- `Measures` (measures.dfy): the classes `Unit` and `Measure`.
  - The unit's fields are constants, except its `measure` back-reference,
    which `addUnit` sets.
  - `Measure` is a class whose methods update its `units` and `transforms`
    maps.
  - `Valid()` is the registry invariant: every unit is filed under its own
    name, and the base unit is held.
  - `Owned()` says that every held unit points back to the measure.
  - `addUnits` is proved against the pure functions `Register`/`Accepted`.
- `Amounts` (amounts.dfy): `Amount`, `Element`, `Ingredient` and the pure
  conversion functions.
  - A Python lambda transformation is represented by the datatype
    `DensityTransform(through, onto, op)`. It converts to `through`,
    multiplies or divides by the density, and labels the result `onto`.
  - It keeps the evaluation order of the two catalog lambdas: Volume→Mass
    reads the density before converting, and Mass→Volume converts first.
- `Catalog` (catalog.dfy): `SIUnitsFromUnit` and the construction of the five
  catalog measures as methods.
  - `NewCatalog` builds the five measures and returns them as the record
    `Catalog`.
  - The record's `Valid()` states everything the module-level code
    establishes: exactly which units each measure holds, with which
    abbreviations and converters, and which transformations are registered.
- `Scenarios` (scenarios.dfy): the doctests and the `examples.py` conversions.
  Each is stated over any measures satisfying the catalog predicates it needs
  (`IsMass`, `IsVolume`, `IsTemperature`, `IsTime`, `DensityLinked`), which
  `NewCatalog` establishes.

## Model

| member | source | states |
|---|---|---|
| Converters.ToBase | sugarcube.py:182-186 | the converter's map towards the base unit: the affine map n·factor + constant, or for a reversed converter its inverse, which fails with a division by zero on a zero factor (the failure cases are ConverterFailsOnlyOnZeroFactor) |
| Converters.FromBase | sugarcube.py:182-186 | the converter's map from the base unit, the opposite direction of ToBase (the two undo each other by FromBaseToBase and ToBaseFromBase) |
| Converters.Linear | sugarcube.py:195-202 | toBase(n) is n·factor + constant for every n; fromBase(n) is (n − constant)/factor when the factor is non-zero, and a division by zero for every n when it is zero |
| Converters.Constant | sugarcube.py:203-210 | toBase adds the constant and fromBase subtracts it, for every value |
| Converters.Neutral | sugarcube.py:211-213 | Linear(1), the identity in both directions (ConstantAndNeutral) |
| Converters.Reverse | sugarcube.py:187-194 | the reversed converter has the opposite orientation (its swapping of the two maps is ReverseSwaps) |
| Converters.ReverseSwaps | sugarcube.py:187-194 | toBase of the reversed converter is fromBase of the original and vice versa; reversing twice gives back the same converter |
| Converters.ConstantAndNeutral | sugarcube.py:203-211 | Constant(k) is Linear(1, k); Neutral leaves every value unchanged in both directions |
| Converters.ConverterFailsOnlyOnZeroFactor | sugarcube.py:195-202 | a converter fails exactly in its dividing direction when the factor is zero, and then only with a division by zero |
| Converters.BackwardForward | sugarcube.py:199-202 | (n·f + c − c)/f is n for a non-zero factor |
| Converters.ForwardBackward | sugarcube.py:199-202 | the inverse map followed by the forward map is the identity for a non-zero factor |
| Converters.FromBaseToBase | sugarcube.py:175-202 | fromBase(toBase(n)) is n for every invertible converter, reversed or not |
| Converters.ToBaseFromBase | sugarcube.py:175-202 | toBase(fromBase(n)) is n for every invertible converter, reversed or not |
| Converters.ConverterDoctests | sugarcube.py:179-208 | Linear(5, 1).toBase(2) is 11, Constant(7).toBase(5) is 12, the halving converter gives 25 from 50, and its reverse gives 42 from 21 |
| Converters.ScaledToBase | sugarcube.py:195-202 | a converter without constant commutes with scaling towards the base unit |
| Converters.ScaledFromBase | sugarcube.py:195-202 | a converter without constant commutes with scaling from the base unit |
| Measures.Unit.constructor | sugarcube.py:218-223 | the unit has the given name, abbreviation, display side and converter (defaults 'Unknown unit', '?unit', suffix, Neutral) and no measure |
| Measures.Measure.constructor | sugarcube.py:129-139 | the new measure holds exactly its base unit, under the base unit's name; the base unit points back to it; no transformations; the registry invariant holds |
| Measures.Measure.Valid | sugarcube.py:129-153 | the registry invariant: the base unit is held under its own name, and every unit is filed under its own name, as addUnit files it |
| Measures.Measure.Owned | sugarcube.py:151 | every unit the measure holds points back to it, as addUnit sets `unit.measure` |
| Measures.Measure.AddUnit | sugarcube.py:140-153 | a name already held fails with DuplicateUnit and changes nothing; otherwise exactly that name→unit entry is added and the unit points back to this measure; the invariant is kept |
| Measures.Measure.AddUnits | sugarcube.py:154-162 | the registry becomes Register(old, us); the result is Pass when all are accepted and otherwise names the first duplicate; the units before it now belong to this measure, the later ones are untouched |
| Measures.Measure.TransformTo | sugarcube.py:163-168 | succeeds exactly when a transformation towards the measure is registered, returns that one, and otherwise fails with NoTransform |
| Measures.Measure.AddTransform | sugarcube.py:169-173 | the registry gains the transformation only if none is registered for that measure; afterwards TransformTo returns the first one registered |
| Measures.FirstTransformWins | sugarcube.py:169-173 | a second registration towards the same measure is a no-op: the first transformation stays |
| Measures.Accepted | sugarcube.py:154-162 | the number of units the addUnits loop adds before the first name already held (counting the ones it has just added), never more than the list |
| Measures.Register | sugarcube.py:150-162 | the registry the addUnits loop leaves: each unit up to the first duplicate filed under its name; AddUnits is proved to end in it, and RegisterExtends, RegisterFresh and RegisterKeepsNames state what it holds |
| Measures.AcceptedAllIffFresh | sugarcube.py:154-162 | addUnits accepts every unit if and only if their names are new to the measure and pairwise distinct |
| Measures.StopsAtFirstDuplicate | sugarcube.py:154-162 | when addUnits stops early, the units before the stop are fresh and the stopping unit's name is already held |
| Measures.PrefixAccepted | sugarcube.py:154-162 | any prefix of the accepted units is accepted in full |
| Measures.RegisterExtends | sugarcube.py:150-153 | registering never removes or replaces a unit; every new entry is an accepted unit filed under its own name |
| Measures.RegisterFresh | sugarcube.py:154-162 | registering fresh units adds exactly their names, each filed with its unit |
| Measures.RegisterKeepsNames | sugarcube.py:150-153 | registration keeps every unit filed under its own name |
| Amounts.ToBaseUnit | sugarcube.py:91-94 | succeeds exactly when the unit has a measure and its converter's toBase succeeds, giving toBase(value) in the measure's base unit; the converter runs first, so its division by zero is the error even for a unit without a measure, and otherwise a missing measure is Unregistered |
| Amounts.To | sugarcube.py:70-90 | its own unit returns the amount unchanged; with either side outside every measure it fails with Unregistered, and between two different measures with MeasureMismatch; the result carries the target unit; otherwise it routes through the base unit, skipping the converter of a side that is the base; inside one measure it fails exactly when a converter it applies divides by a zero factor, and then only with DivisionByZero, so it never fails with invertible converters |
| Amounts.ToPreservesBaseValue | sugarcube.py:84-90 | a conversion keeps the quantity expressed in the base unit |
| Amounts.ConversionIsPathIndependent | sugarcube.py:84-90 | converting to an intermediate unit and then to w equals converting to w directly, errors included |
| Amounts.RoundTripThroughBase | sugarcube.py:84-94 | Amount(v, s).to(base).to(s) is Amount(v, s) |
| Amounts.RoundTrip | sugarcube.py:70-90 | within one measure, converting to any unit and back gives the amount back exactly |
| Amounts.ToBaseUnitIsToBase | sugarcube.py:84-94 | outside the base unit, toBaseUnit equals to(baseUnit) |
| Amounts.SameNameDifferentMeasures | sugarcube.py:80-83 | units of the same name in two different measures are distinct and do not convert into each other |
| Amounts.Mul | sugarcube.py:95-109 | a number scales the value and keeps the unit, an element builds the ingredient, anything else fails |
| Amounts.Div | sugarcube.py:110-118 | a non-zero number divides the value and keeps the unit, zero is a division by zero, anything else fails |
| Amounts.DivThenMul | sugarcube.py:95-118 | dividing by a non-zero number and multiplying back gives the amount back |
| Amounts.ScalingCommutesWithTo | sugarcube.py:70-107 | scaling commutes with conversion when no converter adds a constant |
| Amounts.ApplyTransform | sugarcube.py:288-289 | succeeds exactly when the amount converts to the through unit and the density is present, and non-zero for the division; the result is in the onto unit and multiplies (Volume→Mass) or divides (Mass→Volume) the converted value by the density; Volume→Mass reports a missing density before a failing conversion, Mass→Volume reports the conversion's error first, then a missing density, then a zero density |
| Amounts.Transformed | sugarcube.py:55-57 | a side without a measure is Unregistered and a missing transformation NoTransform; otherwise it succeeds exactly when the transformation and the conversion of its output to the target unit both succeed, fails with the error of the first failing step, and on success keeps the element and yields that conversion |
| Amounts.IngredientTo | sugarcube.py:40-52 | a measure stands for its base unit; a same-measure target succeeds exactly when Amount.to does, yields its amount, and otherwise fails with Amount.to's error; any other target goes through the transformation; the element is kept |
| Amounts.DensityRoundTrip | sugarcube.py:40-57 | an ingredient taken to another measure by multiplying by a non-zero density comes back exactly through the matching division |
| Amounts.Display | sugarcube.py:119-121 | the text is abbreviation, one space, value for a prefixed unit and value, one space, abbreviation otherwise |
| Amounts.DisplayIngredient | sugarcube.py:53-54 | the text is the amount's text, one space and the element's name |
| Catalog.SIPrefixes | sugarcube.py:247-254 | the six SI prefixes in order, milli, centi, deci, deca, hecto, kilo, with abbreviations m, c, d, da, h, k and factors 0.001, 0.01, 0.1, 10, 100, 1000 |
| Catalog.SIUnitsFromUnit | sugarcube.py:232-255 | six new units, one per prefix milli…kilo, named and abbreviated prefix + base, scaled by 0.001…1000, displayed like the base unit, with pairwise distinct names that differ from the base unit's |
| Catalog.SINamesFresh | sugarcube.py:242-255 | the six prefixed names differ from the base name and from each other |
| Catalog.NewSIMeasure | sugarcube.py:259-263 | Measure(name, Unit(base, abbrev)) followed by addUnits(SIUnitsFromUnit(base)) holds exactly the base unit and its six SI units, each with its abbreviation and converter |
| Catalog.NewMass | sugarcube.py:259-260 | Mass holds the gram and milligram…kilogram with abbreviations g, mg…kg and factors 1, 0.001…1000 |
| Catalog.NewVolume | sugarcube.py:262-263 | Volume holds the liter and milliliter…kiloliter with abbreviations l, ml…kl |
| Catalog.NewLength | sugarcube.py:274-275 | Length holds the meter and millimeter…kilometer with abbreviations m, mm…km |
| Catalog.NewTemperature | sugarcube.py:265-270 | Temperature holds exactly celsius (base), kelvin (Constant(−273.15)), fahrenheit (Linear(1.8, 32) reversed) and thermostat (Linear(30), prefixed) |
| Catalog.NewTime | sugarcube.py:277-281 | Time holds exactly second (base), minute (Linear(60)) and hour (Linear(3600)) |
| Catalog.NewUSVolumeUnits | sugarcube.py:293-303 | the nine new US cooking units pinch…gallon in order, with abbreviations pinch, tsp., tbsp., oz, stick, cup, pt., qt, gal. and factors 0.000625…3.78541, none yet in a measure |
| Catalog.AddUSVolumeUnits | sugarcube.py:293-303 | the nine US units are added to Volume with their abbreviations and factors, every earlier unit stays, and Volume then holds exactly the liter, its SI units and the US units |
| Catalog.AddUSMassUnits | sugarcube.py:305-308 | the Ounce (oz, 28.349523125) and the Pound (lb, 453.59237) are added to Mass, every earlier unit stays, and Mass then holds exactly the gram, its SI units, the Ounce and the Pound |
| Catalog.NewFullMass | sugarcube.py:259-260 | a fresh Mass holding exactly its SI and US units, with no transformation yet |
| Catalog.NewFullVolume | sugarcube.py:262-263 | a fresh Volume holding exactly its SI and US cooking units, with no transformation yet |
| Catalog.LinkVolumeToMass | sugarcube.py:284-288 | Volume's only transformation is towards Mass: convert to milliliters, multiply by the density, label in grams; the units of both measures are unchanged |
| Catalog.LinkMassToVolume | sugarcube.py:284-289 | Mass's only transformation is towards Volume: convert to grams, divide by the density, label in milliliters; the units of both measures are unchanged |
| Catalog.NewMassAndVolume | sugarcube.py:259-308 | two distinct fresh measures, Mass and Volume with all their units; Volume→Mass multiplies milliliters by the density into grams and Mass→Volume divides grams by the density into milliliters |
| Catalog.NewCatalog | sugarcube.py:257-315 | the five measures are distinct and fresh, and the catalog invariant holds: exactly the listed units in each measure and only the two density transformations |
| Catalog.Catalog.Valid | sugarcube.py:257-315 | the catalog invariant: five pairwise distinct measures satisfying IsMass, IsVolume, IsTemperature, IsLength and IsTime, with Mass and Volume DensityLinked |
| Catalog.IsMass | sugarcube.py:259-260 | Mass is a valid registry owning its units, based on the gram, holding exactly the gram, its six SI units, the Ounce and the Pound, each with its abbreviation and converter |
| Catalog.IsVolume | sugarcube.py:262-263 | Volume is a valid registry owning its units, based on the liter, holding exactly the liter, its six SI units and the nine US cooking units, each with its abbreviation and converter |
| Catalog.IsTemperature | sugarcube.py:265-270 | Temperature is a valid registry owning its units, based on celsius, holding exactly celsius, kelvin, fahrenheit and thermostat with their converters, and no transformation |
| Catalog.IsLength | sugarcube.py:274-275 | Length is a valid registry owning its units, based on the meter, holding exactly the meter and its six SI units, and no transformation |
| Catalog.IsTime | sugarcube.py:277-281 | Time is a valid registry owning its units, based on the second, holding exactly second, minute and hour, and no transformation |
| Catalog.DensityLinked | sugarcube.py:284-289 | Volume's only transformation goes to Mass through the milliliter, multiplying by the density into grams; Mass's only transformation goes to Volume through the gram, dividing by the density into milliliters |
| Catalog.Flour | sugarcube.py:312 | the element Flour with density 0.7 |
| Catalog.Sugar | sugarcube.py:313 | the element Sugar with density 1.2 |
| Catalog.Salt | sugarcube.py:314 | the element Salt with density 1.2 |
| Catalog.Butter | sugarcube.py:315 | the element Butter with density 0.9 |
| Scenarios.TwoLitersInCentiliters | sugarcube.py:73-74 | 2 l is 200 cl |
| Scenarios.AbsoluteZeroInCelsius | sugarcube.py:75-76 | 0 °K is −273.15 °C |
| Scenarios.BodyTemperatureInFahrenheit | examples.py:17 | 37.7 °C is 99.86 °F |
| Scenarios.ThermostatSixInCelsius | examples.py:18 | thermostat 6 is 180 °C and is written "thermostat 6" |
| Scenarios.ThermostatSixInFahrenheit | examples.py:19 | thermostat 6 is 356 °F |
| Scenarios.CupInMilliliters | examples.py:10 | 1 cup is 240 ml |
| Scenarios.TwoCupsOfWaterInMilliliters | sugarcube.py:43-44 | 2 cups of water is 480 ml of water, written "480 ml water" |
| Scenarios.CupOfFlourInGrams | sugarcube.py:45-46 | 1 cup of flour is 168 g of flour |
| Scenarios.FlourGramsInCups | examples.py:11 | 250 g of flour is exactly 125/84 cups |
| Scenarios.FlourGramsInTablespoons | examples.py:13 | 175 g of flour is 50/3 tablespoons |
| Scenarios.StickOfButterInGrams | examples.py:14 | 1 stick of butter is 113.4 g |
| Scenarios.ButterGramsInSticks | examples.py:15 | 125 g of butter is 625/567 sticks |
| Scenarios.FlourGramsInCup | sugarcube.py:285-289 | 168 g of flour taken to cups is exactly one cup |
| Scenarios.FlourCupRoundTrip | sugarcube.py:285-289 | a cup of flour taken to grams and back is the same cup |
| Scenarios.LiterIsNotGrams | sugarcube.py:80-83 | a bare liter does not convert to grams |
| Scenarios.OuncesDiffer | sugarcube.py:297-306 | the Ounce of Mass and the FluidOunce of Volume share "oz" but do not convert into each other |
| Scenarios.ScalarDoctests | sugarcube.py:98-114 | 42 g / 7 is 6 g, and 42 g · Flour is the ingredient written "42 g Flour" |
| Scenarios.ScaledLiters | sugarcube.py:100-101 | 3 · 5 l is 15 l |
| Scenarios.AddDayToTime | sugarcube.py:144-145 | adding a day unit to Time succeeds, files it under "day" and makes it belong to Time |
| Scenarios.SecondGramRefused | sugarcube.py:149-150 | adding a second "gram" to Mass fails with DuplicateUnit and leaves Mass unchanged |
| Scenarios.AddDropAndBowl | sugarcube.py:158-159 | adding drop and bowl to a measure holding neither succeeds and both belong to it |

## Left out

- `setup.py`: packaging metadata with no logic.
- `examples.py`: a printing script. Its conversions are restated as the `Scenarios` lemmas.
- Amounts.Display: the `%g` rendering of the value is not modelled. The value text is a parameter, so only the placement of the abbreviation (before the value for a prefixed unit) is stated.
- Floating point: all arithmetic is exact. Python prints rounded floats (the conversion 250 g of flour to cups prints about 1.488 and is exactly 125/84 here).
- The general `Converter(toBase, fromBase)` constructor over arbitrary functions: every converter the library builds is affine, and that is the form modelled. The doctest converter `Converter(n/2, 2n)` is `Reverse(Linear(2))`.
- Amounts.ApplyTransform: a transformation is one of the two density forms the catalog registers, not an arbitrary Python function. A user-registered lambda of another shape is not modelled.
- Element: its open `**properties` attribute bag is reduced to the one property the engine reads, an optional `density`.
- `setattr` attribute access (`Volume.cup`, `Element.density`) is modelled as map lookup (`units["cup"]`) and a record field.
- The `isinstance` checks whose `TypeError` the Dafny types rule out: a non-unit argument to `to`, `addUnit` or `SIUnitsFromUnit`. An operand of the wrong kind for `*` and `/` does remain, as `InvalidOperand`.
- `Unit.__mul__`/`__rmul__` (`k * unit`), which builds `Amount(k, unit)` and silently returns `None` for a non-number, is written directly as the `Amount` value.
- The `properties` parameter of `Amount.to`, which the code never reads.
- Measures.Measure.AddUnit: like the code, it does not check whether the unit already belongs to another measure. Adding it again re-points its back-reference, and the lemmas that rely on a base unit pointing to its own measure require that explicitly.
- The module-level statements run in a slightly different order. `NewCatalog` builds Mass and Volume completely before Temperature, Length and Time, and it registers the two density transformations after the US units rather than before them. No step reads what another writes (the transformations refer only to the milliliter and the gram), so the resulting catalog is the same.
- The catalog is a record of references built by a method, not five global variables.
- The Python 2 compatibility imports and the `doctest.testmod()` runner.
