/** The doctest conversions of sugarcube.py, stated over the measures as the
    module builds them (each lemma requires the Is* predicates of the measures
    it uses, which NewCatalog establishes for the catalog). Values are exact:
    where Python prints a rounded float, the lemma states the exact rational. */
module Scenarios {
  import opened Errors
  import opened Converters
  import opened Measures
  import opened Amounts
  import opened Catalog

  /** Units looked up by name in a catalog measure belong to that measure and
      are the base unit exactly when they carry its name. */
  lemma Lookup(m: Measure, name: string)
    requires m.Valid() && m.Owned() && name in m.units
    ensures m.units[name].measure == m && m.units[name].name == name
    ensures m.units[name] == m.baseUnit <==> name == m.baseUnit.name
  {
  }

  /** (2 * Volume.liter).to(Volume.centiliter) is 200 cl. */
  lemma TwoLitersInCentiliters(v: Measure)
    requires IsVolume(v)
    ensures To(Amount(2.0, v.units["liter"]), v.units["centiliter"]) ==
            Ok(Amount(200.0, v.units["centiliter"]))
  {
    var cl := v.units["centiliter"];
    Lookup(v, "liter");
    Lookup(v, "centiliter");
    assert FromBase(cl.converter, 2.0) == Ok(200.0);
  }

  /** (0 * Temperature.kelvin).to(Temperature.celsius) is -273.15 °C. */
  lemma AbsoluteZeroInCelsius(t: Measure)
    requires IsTemperature(t)
    ensures To(Amount(0.0, t.units["kelvin"]), t.units["celsius"]) ==
            Ok(Amount(-273.15, t.units["celsius"]))
  {
    Lookup(t, "kelvin");
    Lookup(t, "celsius");
  }

  /** Body temperature in fahrenheit: 37.7 °C is 99.86 °F, through the reversed
      linear converter. */
  lemma BodyTemperatureInFahrenheit(t: Measure)
    requires IsTemperature(t)
    ensures To(Amount(37.7, t.units["celsius"]), t.units["fahrenheit"]) ==
            Ok(Amount(99.86, t.units["fahrenheit"]))
  {
    var f := t.units["fahrenheit"];
    Lookup(t, "celsius");
    Lookup(t, "fahrenheit");
    assert FromBase(f.converter, 37.7) == Ok(99.86);
  }

  /** Oven thermostat 6 is 180 °C, and it is written with its abbreviation first. */
  lemma ThermostatSixInCelsius(t: Measure)
    requires IsTemperature(t)
    ensures To(Amount(6.0, t.units["thermostat"]), t.units["celsius"]) ==
            Ok(Amount(180.0, t.units["celsius"]))
    ensures Display(Amount(6.0, t.units["thermostat"]), "6") == "thermostat 6"
  {
    Lookup(t, "thermostat");
    Lookup(t, "celsius");
  }

  /** One cup is 240 milliliters. */
  lemma CupInMilliliters(v: Measure)
    requires IsVolume(v)
    ensures To(Amount(1.0, v.units["cup"]), v.units["milliliter"]) ==
            Ok(Amount(240.0, v.units["milliliter"]))
  {
    var ml := v.units["milliliter"];
    Lookup(v, "cup");
    Lookup(v, "milliliter");
    assert FromBase(ml.converter, 0.240) == Ok(240.0);
  }

  /** (2 * Volume.cup * Element('water')).to(Volume.milliliter) is 480 ml water:
      within one measure the element plays no part. */
  lemma TwoCupsOfWaterInMilliliters(v: Measure)
    requires IsVolume(v)
    ensures IngredientTo(Ingredient(Amount(2.0, v.units["cup"]), Element("water", None)),
                         ToUnit(v.units["milliliter"])) ==
            Ok(Ingredient(Amount(480.0, v.units["milliliter"]), Element("water", None)))
    ensures DisplayIngredient(Ingredient(Amount(480.0, v.units["milliliter"]), Element("water", None)), "480") ==
            "480 ml water"
  {
    var ml := v.units["milliliter"];
    Lookup(v, "cup");
    Lookup(v, "milliliter");
    assert FromBase(ml.converter, 0.480) == Ok(480.0);
  }

  /** (1 * Volume.cup * Flour).to(Mass.gram).amount is 168 g: Volume's
      transformation towards Mass multiplies the milliliters by the density. */
  lemma CupOfFlourInGrams(m: Measure, v: Measure)
    requires IsMass(m) && IsVolume(v) && DensityLinked(m, v)
    ensures IngredientTo(Ingredient(Amount(1.0, v.units["cup"]), Flour), ToMeasure(m)) ==
            Ok(Ingredient(Amount(168.0, m.baseUnit), Flour))
  {
    var cup := v.units["cup"];
    var ml := v.units["milliliter"];
    var i := Ingredient(Amount(1.0, cup), Flour);
    Lookup(v, "cup");
    Lookup(v, "milliliter");
    var t := DensityTransform(ml, m.baseUnit, MultiplyByDensity);
    assert v.TransformTo(m) == Ok(t);
    CupInMilliliters(v);
    assert ApplyTransform(t, i.amount, Flour) == Ok(Amount(168.0, m.baseUnit));
  }

  /** 250 g of flour is 125/84 cups (about 1.488): Mass's transformation towards
      Volume divides the grams by the density and gives milliliters, which are
      then converted to cups. */
  lemma FlourGramsInCups(m: Measure, v: Measure)
    requires IsMass(m) && IsVolume(v) && DensityLinked(m, v)
    ensures IngredientTo(Ingredient(Amount(250.0, m.baseUnit), Flour), ToUnit(v.units["cup"])) ==
            Ok(Ingredient(Amount(125.0 / 84.0, v.units["cup"]), Flour))
  {
    var cup := v.units["cup"];
    var ml := v.units["milliliter"];
    var g := m.baseUnit;
    var i := Ingredient(Amount(250.0, g), Flour);
    Lookup(v, "cup");
    Lookup(v, "milliliter");
    var t := DensityTransform(g, ml, DivideByDensity);
    assert m.TransformTo(v) == Ok(t);
    assert ApplyTransform(t, i.amount, Flour) == Ok(Amount(2500.0 / 7.0, ml));
    assert ToBase(ml.converter, 2500.0 / 7.0) == Ok(5.0 / 14.0);
    assert FromBase(cup.converter, 5.0 / 14.0) == Ok(125.0 / 84.0);
  }

  /** Oven thermostat 6 is 356 °F: 180 °C through the reversed linear converter. */
  lemma ThermostatSixInFahrenheit(t: Measure)
    requires IsTemperature(t)
    ensures To(Amount(6.0, t.units["thermostat"]), t.units["fahrenheit"]) ==
            Ok(Amount(356.0, t.units["fahrenheit"]))
  {
    var f := t.units["fahrenheit"];
    Lookup(t, "thermostat");
    Lookup(t, "fahrenheit");
    assert FromBase(f.converter, 180.0) == Ok(356.0);
  }

  /** 175 g of flour is 50/3 tablespoons (about 16.67): 250 ml. */
  lemma FlourGramsInTablespoons(m: Measure, v: Measure)
    requires IsMass(m) && IsVolume(v) && DensityLinked(m, v)
    ensures IngredientTo(Ingredient(Amount(175.0, m.baseUnit), Flour), ToUnit(v.units["tablespoon"])) ==
            Ok(Ingredient(Amount(50.0 / 3.0, v.units["tablespoon"]), Flour))
  {
    var tbsp := v.units["tablespoon"];
    var ml := v.units["milliliter"];
    var g := m.baseUnit;
    var i := Ingredient(Amount(175.0, g), Flour);
    Lookup(v, "tablespoon");
    Lookup(v, "milliliter");
    var t := DensityTransform(g, ml, DivideByDensity);
    assert m.TransformTo(v) == Ok(t);
    assert ApplyTransform(t, i.amount, Flour) == Ok(Amount(250.0, ml));
    assert ToBase(ml.converter, 250.0) == Ok(0.25);
    assert FromBase(tbsp.converter, 0.25) == Ok(50.0 / 3.0);
  }

  /** A stick of butter is 113.4 g: 126 ml at density 0.9. */
  lemma StickOfButterInGrams(m: Measure, v: Measure)
    requires IsMass(m) && IsVolume(v) && DensityLinked(m, v)
    ensures IngredientTo(Ingredient(Amount(1.0, v.units["stick"]), Butter), ToMeasure(m)) ==
            Ok(Ingredient(Amount(113.4, m.baseUnit), Butter))
  {
    var stick := v.units["stick"];
    var ml := v.units["milliliter"];
    var i := Ingredient(Amount(1.0, stick), Butter);
    Lookup(v, "stick");
    Lookup(v, "milliliter");
    var t := DensityTransform(ml, m.baseUnit, MultiplyByDensity);
    assert v.TransformTo(m) == Ok(t);
    assert FromBase(ml.converter, 0.126) == Ok(126.0);
    assert To(i.amount, ml) == Ok(Amount(126.0, ml));
    assert ApplyTransform(t, i.amount, Butter) == Ok(Amount(113.4, m.baseUnit));
  }

  /** 125 g of butter is 625/567 sticks (about 1.102). */
  lemma ButterGramsInSticks(m: Measure, v: Measure)
    requires IsMass(m) && IsVolume(v) && DensityLinked(m, v)
    ensures IngredientTo(Ingredient(Amount(125.0, m.baseUnit), Butter), ToUnit(v.units["stick"])) ==
            Ok(Ingredient(Amount(625.0 / 567.0, v.units["stick"]), Butter))
  {
    var stick := v.units["stick"];
    var ml := v.units["milliliter"];
    var g := m.baseUnit;
    var i := Ingredient(Amount(125.0, g), Butter);
    Lookup(v, "stick");
    Lookup(v, "milliliter");
    var t := DensityTransform(g, ml, DivideByDensity);
    assert m.TransformTo(v) == Ok(t);
    assert ApplyTransform(t, i.amount, Butter) == Ok(Amount(1250.0 / 9.0, ml));
    assert ToBase(ml.converter, 1250.0 / 9.0) == Ok(5.0 / 36.0);
    assert FromBase(stick.converter, 5.0 / 36.0) == Ok(625.0 / 567.0);
  }

  /** A cup of flour goes to grams and comes back as the same cup. */
  lemma FlourCupRoundTrip(m: Measure, v: Measure)
    requires IsMass(m) && IsVolume(v) && DensityLinked(m, v)
    ensures IngredientTo(Ingredient(Amount(1.0, v.units["cup"]), Flour), ToMeasure(m)).Ok?
    ensures IngredientTo(IngredientTo(Ingredient(Amount(1.0, v.units["cup"]), Flour), ToMeasure(m)).value,
                         ToUnit(v.units["cup"])) ==
            Ok(Ingredient(Amount(1.0, v.units["cup"]), Flour))
  {
    CupOfFlourInGrams(m, v);
    FlourGramsInCup(m, v);
  }

  /** 168 g of flour is one cup: 240 ml at density 0.7. */
  lemma FlourGramsInCup(m: Measure, v: Measure)
    requires IsMass(m) && IsVolume(v) && DensityLinked(m, v)
    ensures IngredientTo(Ingredient(Amount(168.0, m.baseUnit), Flour), ToUnit(v.units["cup"])) ==
            Ok(Ingredient(Amount(1.0, v.units["cup"]), Flour))
  {
    var cup := v.units["cup"];
    var ml := v.units["milliliter"];
    var g := m.baseUnit;
    var i := Ingredient(Amount(168.0, g), Flour);
    Lookup(v, "cup");
    Lookup(v, "milliliter");
    var t := DensityTransform(g, ml, DivideByDensity);
    assert m.TransformTo(v) == Ok(t);
    assert ApplyTransform(t, i.amount, Flour) == Ok(Amount(240.0, ml));
    assert ToBase(ml.converter, 240.0) == Ok(0.24);
    assert FromBase(cup.converter, 0.24) == Ok(1.0);
  }

  /** A bare amount does not cross measures: a liter is not convertible to grams. */
  lemma LiterIsNotGrams(m: Measure, v: Measure)
    requires IsMass(m) && IsVolume(v)
    ensures To(Amount(1.0, v.units["liter"]), m.baseUnit) == Err(MeasureMismatch)
  {
    Lookup(v, "liter");
  }

  /** The ounce of Mass and the FluidOunce of Volume share an abbreviation but
      not a measure. */
  lemma OuncesDiffer(m: Measure, v: Measure)
    requires IsMass(m) && IsVolume(v)
    ensures m.units["Ounce"].abbrev == v.units["FluidOunce"].abbrev
    ensures To(Amount(1.0, m.units["Ounce"]), v.units["FluidOunce"]) == Err(MeasureMismatch)
  {
    Lookup(m, "Ounce");
    Lookup(v, "FluidOunce");
  }

  /** Amount(42, Mass.gram) / 7 is 6 g, and 42 * Mass.gram * Flour is the
      ingredient 42 g Flour. */
  lemma ScalarDoctests(m: Measure)
    requires IsMass(m)
    ensures Div(Amount(42.0, m.baseUnit), Number(7.0)) == Ok(Amount(6.0, m.baseUnit))
    ensures Mul(Amount(42.0, m.baseUnit), OfElement(Flour)) == Ok(Combined(Ingredient(Amount(42.0, m.baseUnit), Flour)))
    ensures DisplayIngredient(Ingredient(Amount(42.0, m.baseUnit), Flour), "42") == "42 g Flour"
  {
    Lookup(m, "gram");
  }

  /** 3 * Amount(5, Volume.liter) is 15 l. */
  lemma ScaledLiters(v: Measure)
    requires IsVolume(v)
    ensures Mul(Amount(5.0, v.units["liter"]), Number(3.0)) == Ok(Scaled(Amount(15.0, v.units["liter"])))
  {
  }

  /** Time.addUnit(Unit('day', 'day')): a new name is accepted, and the unit
      then belongs to Time. */
  method AddDayToTime(s: Measure) returns (day: Unit, r: Outcome)
    requires IsTime(s)
    modifies s`units
    ensures fresh(day) && day.name == "day" && day.abbrev == "day"
    ensures r == Pass && day.measure == s
    ensures s.units == old(s.units)["day" := day]
  {
    day := new Unit("day", "day");
    r := s.AddUnit(day);
  }

  /** Adding a second gram to Mass is refused and Mass keeps the one it has. */
  method SecondGramRefused(m: Measure) returns (r: Outcome)
    requires IsMass(m)
    modifies m`units
    ensures r == Fail(DuplicateUnit("gram"))
    ensures m.units == old(m.units)
  {
    var gram := new Unit("gram", "g");
    r := m.AddUnit(gram);
  }

  /** Volume.addUnits([Unit('drop', 'drop'), Unit('bowl', 'bowl')]): on a measure
      holding neither name, both are accepted, in order, and belong to it. */
  method AddDropAndBowl(v: Measure) returns (r: Outcome)
    requires v.Valid() && "drop" !in v.units && "bowl" !in v.units
    modifies v`units
    ensures r == Pass
    ensures "drop" in v.units && "bowl" in v.units
    ensures v.units["drop"].measure == v && v.units["bowl"].measure == v
  {
    var drop := new Unit("drop", "drop");
    var bowl := new Unit("bowl", "bowl");
    ghost var before := v.units;
    FreshNames2(before, drop, bowl);
    r := v.AddUnits([drop, bowl]);
    RegisterFresh(before, [drop, bowl]);
    AcceptedAllIffFresh(before, [drop, bowl]);
  }
}
