/** The standard catalog of sugarcube.py: the SI-prefixed units derived from a
    base unit, the measures Mass, Volume, Temperature, Length and Time with
    their units, the two density transformations between Volume and Mass,
    and the preset elements. */
module Catalog {
  import opened Errors
  import opened Converters
  import opened Measures
  import opened Amounts

  /** The prefixes SIUnitsFromUnit derives, with their abbreviations and factors. */
  const SIPrefixes: seq<(string, string, real)> := [
    ("milli", "m", 0.001),
    ("centi", "c", 0.01),
    ("deci", "d", 0.1),
    ("deca", "da", 10.0),
    ("hecto", "h", 100.0),
    ("kilo", "k", 1000.0)
  ]

  /** SIUnitsFromUnit: one new unit per SI prefix, named and abbreviated after
      the given unit, displayed the same way, scaled by the prefix's factor. */
  method SIUnitsFromUnit(unit: Unit) returns (us: seq<Unit>)
    ensures |us| == |SIPrefixes|
    ensures forall i :: 0 <= i < |us| ==> fresh(us[i]) && us[i].measure == null
    ensures forall i :: 0 <= i < |us| ==>
              && us[i].name == SIPrefixes[i].0 + unit.name
              && us[i].abbrev == SIPrefixes[i].1 + unit.abbrev
              && us[i].prefix == unit.prefix
              && us[i].converter == Linear(SIPrefixes[i].2)
    ensures Fresh(map[unit.name := unit], us)
  {
    us := [];
    for i := 0 to |SIPrefixes|
      invariant |us| == i
      invariant forall j :: 0 <= j < i ==> fresh(us[j]) && us[j].measure == null
      invariant forall j :: 0 <= j < i ==>
                  && us[j].name == SIPrefixes[j].0 + unit.name
                  && us[j].abbrev == SIPrefixes[j].1 + unit.abbrev
                  && us[j].prefix == unit.prefix
                  && us[j].converter == Linear(SIPrefixes[j].2)
    {
      var (name, abbrev, factor) := SIPrefixes[i];
      var u := new Unit(name + unit.name, abbrev + unit.abbrev, converter := Linear(factor), prefix := unit.prefix);
      us := us + [u];
    }
    SINamesFresh(unit.name);
  }

  /** A string's prefix is determined by what it prefixes. */
  lemma AppendCancel(p: string, q: string, b: string)
    requires p + b == q + b
    ensures p == q
  {
    assert |p| == |q|;
    assert p == (p + b)[..|p|];
    assert q == (q + b)[..|q|];
  }

  /** The SI names derived from a base name differ from it and from each other. */
  lemma SINamesFresh(base: string)
    ensures forall i :: 0 <= i < |SIPrefixes| ==> SIPrefixes[i].0 + base != base
    ensures forall i, j :: 0 <= i < j < |SIPrefixes| ==> SIPrefixes[i].0 + base != SIPrefixes[j].0 + base
  {
    forall i | 0 <= i < |SIPrefixes| ensures SIPrefixes[i].0 + base != base {
      assert |SIPrefixes[i].0 + base| > |base|;
    }
    forall i, j | 0 <= i < j < |SIPrefixes| ensures SIPrefixes[i].0 + base != SIPrefixes[j].0 + base {
      assert i in {0, 1, 2, 3, 4} && j in {1, 2, 3, 4, 5};
      if SIPrefixes[i].0 + base == SIPrefixes[j].0 + base {
        AppendCancel(SIPrefixes[i].0, SIPrefixes[j].0, base);
      }
    }
  }

  /** The measure files a unit of that name, abbreviation, display and converter. */
  predicate Has(units: map<string, Unit>, name: string, abbrev: string, prefix: bool, c: Converter) {
    && name in units
    && units[name].abbrev == abbrev
    && units[name].prefix == prefix
    && units[name].converter == c
  }

  /** The measure files the SI units derived from a base unit, as SIUnitsFromUnit derives them. */
  predicate HasSI(units: map<string, Unit>, name: string, abbrev: string) {
    forall i :: 0 <= i < |SIPrefixes| ==>
      Has(units, SIPrefixes[i].0 + name, SIPrefixes[i].1 + abbrev, false, Linear(SIPrefixes[i].2))
  }

  /** The names of the SI units derived from a base name. */
  function SINames(base: string): set<string> {
    set i | 0 <= i < |SIPrefixes| :: SIPrefixes[i].0 + base
  }

  /** The SI facts written out prefix by prefix. This lemma and its per-measure
      forms below (MassWrittenOut, VolumeWrittenOut, LengthWrittenOut and the
      three *NamesWrittenOut) are proof aids: they turn the concatenated names
      into literal ones once, so the methods that build the measures never
      reason about string concatenation. */
  lemma SIWrittenOut(units: map<string, Unit>, name: string, abbrev: string)
    requires HasSI(units, name, abbrev)
    ensures Has(units, "milli" + name, "m" + abbrev, false, Linear(0.001))
    ensures Has(units, "centi" + name, "c" + abbrev, false, Linear(0.01))
    ensures Has(units, "deci" + name, "d" + abbrev, false, Linear(0.1))
    ensures Has(units, "deca" + name, "da" + abbrev, false, Linear(10.0))
    ensures Has(units, "hecto" + name, "h" + abbrev, false, Linear(100.0))
    ensures Has(units, "kilo" + name, "k" + abbrev, false, Linear(1000.0))
  {
    assert SIPrefixes[0].0 == "milli" && SIPrefixes[1].0 == "centi" && SIPrefixes[2].0 == "deci";
    assert SIPrefixes[3].0 == "deca" && SIPrefixes[4].0 == "hecto" && SIPrefixes[5].0 == "kilo";
  }

  /** Measure(name, Unit(baseName, abbrev)) followed by addUnits(SIUnitsFromUnit(base)):
      the pattern of Mass, Volume and Length. */
  method NewSIMeasure(name: string, baseName: string, abbrev: string) returns (m: Measure)
    ensures fresh(m) && m.Valid() && m.Owned()
    ensures m.name == name && m.baseUnit.name == baseName && m.transforms == map[]
    ensures Has(m.units, baseName, abbrev, false, Neutral) && HasSI(m.units, baseName, abbrev)
    ensures m.units.Keys == {baseName} + SINames(baseName)
  {
    var base := new Unit(baseName, abbrev);
    m := new Measure(name, base);
    var si := SIUnitsFromUnit(base);
    ghost var before := m.units;
    var ok := m.AddUnits(si);
    SIRegistered(before, base, si);
  }

  /** Registering the SI units of a base unit next to it files each under its name. */
  lemma SIRegistered(before: map<string, Unit>, base: Unit, si: seq<Unit>)
    requires before == map[base.name := base]
    requires |si| == |SIPrefixes|
    requires forall i :: 0 <= i < |si| ==> si[i].name == SIPrefixes[i].0 + base.name
    requires Fresh(before, si)
    ensures Register(before, si).Keys == {base.name} + SINames(base.name)
    ensures base.name in Register(before, si) && Register(before, si)[base.name] == base
    ensures forall i :: 0 <= i < |si| ==> SIPrefixes[i].0 + base.name in Register(before, si)
    ensures forall i :: 0 <= i < |si| ==> Register(before, si)[SIPrefixes[i].0 + base.name] == si[i]
  {
    RegisterFresh(before, si);
    RegisterExtends(before, si);
    assert Names(si) == SINames(base.name) by {
      forall n | n in SINames(base.name) ensures n in Names(si) {
        var i :| 0 <= i < |SIPrefixes| && n == SIPrefixes[i].0 + base.name;
        assert si[i] in si;
      }
    }
  }

  /** The names of Mass: the gram and its SI units. */
  const GramNames: set<string> := {"gram", "milligram", "centigram", "decigram", "decagram", "hectogram", "kilogram"}

  /** The gram and its SI units, with their abbreviations and factors. */
  predicate GramUnits(units: map<string, Unit>) {
    && Has(units, "gram", "g", false, Neutral)
    && Has(units, "milligram", "mg", false, Linear(0.001))
    && Has(units, "centigram", "cg", false, Linear(0.01))
    && Has(units, "decigram", "dg", false, Linear(0.1))
    && Has(units, "decagram", "dag", false, Linear(10.0))
    && Has(units, "hectogram", "hg", false, Linear(100.0))
    && Has(units, "kilogram", "kg", false, Linear(1000.0))
  }

  /** The SI units of the gram, name by name. */
  lemma MassWrittenOut(units: map<string, Unit>)
    requires HasSI(units, "gram", "g")
    ensures Has(units, "milligram", "mg", false, Linear(0.001))
    ensures Has(units, "centigram", "cg", false, Linear(0.01))
    ensures Has(units, "decigram", "dg", false, Linear(0.1))
    ensures Has(units, "decagram", "dag", false, Linear(10.0))
    ensures Has(units, "hectogram", "hg", false, Linear(100.0))
    ensures Has(units, "kilogram", "kg", false, Linear(1000.0))
  {
    SIWrittenOut(units, "gram", "g");
    assert "milli" + "gram" == "milligram" && "centi" + "gram" == "centigram" && "deci" + "gram" == "decigram";
    assert "deca" + "gram" == "decagram" && "hecto" + "gram" == "hectogram" && "kilo" + "gram" == "kilogram";
    assert "m" + "g" == "mg" && "c" + "g" == "cg" && "d" + "g" == "dg" && "da" + "g" == "dag" && "h" + "g" == "hg" && "k" + "g" == "kg";
  }

  /** The names of the gram and its SI units, written out. */
  lemma GramNamesWrittenOut()
    ensures {"gram"} + SINames("gram") == GramNames
  {
    SINamesOf("gram");
    assert "milli" + "gram" == "milligram" && "centi" + "gram" == "centigram" && "deci" + "gram" == "decigram";
    assert "deca" + "gram" == "decagram" && "hecto" + "gram" == "hectogram" && "kilo" + "gram" == "kilogram";
  }


  /** Measure('Mass', Unit('gram', 'g')) with its SI units. */
  method NewMass() returns (m: Measure)
    ensures fresh(m) && m.Valid() && m.Owned()
    ensures m.name == "Mass" && m.baseUnit.name == "gram" && m.transforms == map[]
    ensures m.units.Keys == GramNames
    ensures GramUnits(m.units)
  {
    m := NewSIMeasure("Mass", "gram", "g");
    MassWrittenOut(m.units);
    GramNamesWrittenOut();
  }

  /** The names of Volume: the liter and its SI units. */
  const LiterNames: set<string> := {"liter", "milliliter", "centiliter", "deciliter", "decaliter", "hectoliter", "kiloliter"}

  /** The liter and its SI units, with their abbreviations and factors. */
  predicate LiterUnits(units: map<string, Unit>) {
    && Has(units, "liter", "l", false, Neutral)
    && Has(units, "milliliter", "ml", false, Linear(0.001))
    && Has(units, "centiliter", "cl", false, Linear(0.01))
    && Has(units, "deciliter", "dl", false, Linear(0.1))
    && Has(units, "decaliter", "dal", false, Linear(10.0))
    && Has(units, "hectoliter", "hl", false, Linear(100.0))
    && Has(units, "kiloliter", "kl", false, Linear(1000.0))
  }

  /** The SI units of the liter, name by name. */
  lemma VolumeWrittenOut(units: map<string, Unit>)
    requires HasSI(units, "liter", "l")
    ensures Has(units, "milliliter", "ml", false, Linear(0.001))
    ensures Has(units, "centiliter", "cl", false, Linear(0.01))
    ensures Has(units, "deciliter", "dl", false, Linear(0.1))
    ensures Has(units, "decaliter", "dal", false, Linear(10.0))
    ensures Has(units, "hectoliter", "hl", false, Linear(100.0))
    ensures Has(units, "kiloliter", "kl", false, Linear(1000.0))
  {
    SIWrittenOut(units, "liter", "l");
    assert "milli" + "liter" == "milliliter" && "centi" + "liter" == "centiliter" && "deci" + "liter" == "deciliter";
    assert "deca" + "liter" == "decaliter" && "hecto" + "liter" == "hectoliter" && "kilo" + "liter" == "kiloliter";
    assert "m" + "l" == "ml" && "c" + "l" == "cl" && "d" + "l" == "dl" && "da" + "l" == "dal" && "h" + "l" == "hl" && "k" + "l" == "kl";
  }

  /** The names of the liter and its SI units, written out. */
  lemma LiterNamesWrittenOut()
    ensures {"liter"} + SINames("liter") == LiterNames
  {
    SINamesOf("liter");
    assert "milli" + "liter" == "milliliter" && "centi" + "liter" == "centiliter" && "deci" + "liter" == "deciliter";
    assert "deca" + "liter" == "decaliter" && "hecto" + "liter" == "hectoliter" && "kilo" + "liter" == "kiloliter";
  }


  /** Measure('Volume', Unit('liter', 'l')) with its SI units. */
  method NewVolume() returns (m: Measure)
    ensures fresh(m) && m.Valid() && m.Owned()
    ensures m.name == "Volume" && m.baseUnit.name == "liter" && m.transforms == map[]
    ensures m.units.Keys == LiterNames
    ensures LiterUnits(m.units)
  {
    m := NewSIMeasure("Volume", "liter", "l");
    VolumeWrittenOut(m.units);
    LiterNamesWrittenOut();
  }

  /** The names of Length: the meter and its SI units. */
  const MeterNames: set<string> := {"meter", "millimeter", "centimeter", "decimeter", "decameter", "hectometer", "kilometer"}

  /** The meter and its SI units, with their abbreviations and factors. */
  predicate MeterUnits(units: map<string, Unit>) {
    && Has(units, "meter", "m", false, Neutral)
    && Has(units, "millimeter", "mm", false, Linear(0.001))
    && Has(units, "centimeter", "cm", false, Linear(0.01))
    && Has(units, "decimeter", "dm", false, Linear(0.1))
    && Has(units, "decameter", "dam", false, Linear(10.0))
    && Has(units, "hectometer", "hm", false, Linear(100.0))
    && Has(units, "kilometer", "km", false, Linear(1000.0))
  }

  /** The SI units of the meter, name by name. */
  lemma LengthWrittenOut(units: map<string, Unit>)
    requires HasSI(units, "meter", "m")
    ensures Has(units, "millimeter", "mm", false, Linear(0.001))
    ensures Has(units, "centimeter", "cm", false, Linear(0.01))
    ensures Has(units, "decimeter", "dm", false, Linear(0.1))
    ensures Has(units, "decameter", "dam", false, Linear(10.0))
    ensures Has(units, "hectometer", "hm", false, Linear(100.0))
    ensures Has(units, "kilometer", "km", false, Linear(1000.0))
  {
    SIWrittenOut(units, "meter", "m");
    assert "milli" + "meter" == "millimeter" && "centi" + "meter" == "centimeter" && "deci" + "meter" == "decimeter";
    assert "deca" + "meter" == "decameter" && "hecto" + "meter" == "hectometer" && "kilo" + "meter" == "kilometer";
    assert "m" + "m" == "mm" && "c" + "m" == "cm" && "d" + "m" == "dm" && "da" + "m" == "dam" && "h" + "m" == "hm" && "k" + "m" == "km";
  }

  /** The names of the meter and its SI units, written out. */
  lemma MeterNamesWrittenOut()
    ensures {"meter"} + SINames("meter") == MeterNames
  {
    SINamesOf("meter");
    assert "milli" + "meter" == "millimeter" && "centi" + "meter" == "centimeter" && "deci" + "meter" == "decimeter";
    assert "deca" + "meter" == "decameter" && "hecto" + "meter" == "hectometer" && "kilo" + "meter" == "kilometer";
  }


  /** Measure('Length', Unit('meter', 'm')) with its SI units. */
  method NewLength() returns (m: Measure)
    ensures fresh(m) && m.Valid() && m.Owned()
    ensures m.name == "Length" && m.baseUnit.name == "meter" && m.transforms == map[]
    ensures m.units.Keys == MeterNames
    ensures MeterUnits(m.units)
  {
    m := NewSIMeasure("Length", "meter", "m");
    LengthWrittenOut(m.units);
    MeterNamesWrittenOut();
  }

  /** The units of Temperature: the celsius base, the kelvin, the fahrenheit and
      the oven thermostat, whose abbreviation is written before the value. */
  predicate TemperatureUnits(units: map<string, Unit>) {
    && units.Keys == {"celsius", "kelvin", "fahrenheit", "thermostat"}
    && Has(units, "celsius", "°C", false, Neutral)
    && Has(units, "kelvin", "°K", false, Constant(-273.15))
    && Has(units, "fahrenheit", "°F", false, Reverse(Linear(1.8, 32.0)))
    && Has(units, "thermostat", "thermostat", true, Linear(30.0))
  }

  /** The Temperature measure of sugarcube.py. */
  method NewTemperature() returns (t: Measure)
    ensures fresh(t) && t.Valid() && t.Owned()
    ensures t.name == "Temperature" && t.baseUnit.name == "celsius" && t.transforms == map[]
    ensures TemperatureUnits(t.units)
  {
    var celsius := new Unit("celsius", "°C");
    t := new Measure("Temperature", celsius);
    var kelvin := new Unit("kelvin", "°K", converter := Constant(-273.15));
    var fahrenheit := new Unit("fahrenheit", "°F", converter := Reverse(Linear(1.8, 32.0)));
    var thermostat := new Unit("thermostat", "thermostat", converter := Linear(30.0), prefix := true);
    ghost var before := t.units;
    TemperatureRegistered(before, kelvin, fahrenheit, thermostat);
    var ok := t.AddUnits([kelvin, fahrenheit, thermostat]);
  }

  /** The kelvin, the fahrenheit and the thermostat land next to the celsius. */
  lemma TemperatureRegistered(before: map<string, Unit>, kelvin: Unit, fahrenheit: Unit, thermostat: Unit)
    requires before.Keys == {"celsius"} && Has(before, "celsius", "°C", false, Neutral)
    requires kelvin.name == "kelvin" && kelvin.abbrev == "°K" && !kelvin.prefix && kelvin.converter == Constant(-273.15)
    requires fahrenheit.name == "fahrenheit" && fahrenheit.abbrev == "°F" && !fahrenheit.prefix
    requires fahrenheit.converter == Reverse(Linear(1.8, 32.0))
    requires thermostat.name == "thermostat" && thermostat.abbrev == "thermostat" && thermostat.prefix
    requires thermostat.converter == Linear(30.0)
    ensures Fresh(before, [kelvin, fahrenheit, thermostat])
    ensures TemperatureUnits(Register(before, [kelvin, fahrenheit, thermostat]))
  {
    var us := [kelvin, fahrenheit, thermostat];
    FreshNames3(before, kelvin, fahrenheit, thermostat);
    RegisterFresh(before, us);
    RegisterExtends(before, us);
    var r := Register(before, us);
    assert r["kelvin"] == us[0] && r["fahrenheit"] == us[1] && r["thermostat"] == us[2];
  }

  /** Three units with distinct names new to the registry are fresh, and their names are these. */
  lemma FreshNames3(units: map<string, Unit>, a: Unit, b: Unit, c: Unit)
    requires a.name !in units && b.name !in units && c.name !in units
    requires a.name != b.name && a.name != c.name && b.name != c.name
    ensures Fresh(units, [a, b, c]) && Names([a, b, c]) == {a.name, b.name, c.name}
  {
    assert Names([]) == {};
    FreshCons(units, c, []);
    FreshCons(units, b, [c]);
    FreshCons(units, a, [b, c]);
    assert [a] + [b, c] == [a, b, c] && [b] + [c] == [b, c] && [c] + [] == [c];
  }

  /** The units of Time: the second, the minute and the hour. */
  predicate TimeUnits(units: map<string, Unit>) {
    && units.Keys == {"second", "minute", "hour"}
    && Has(units, "second", "s", false, Neutral)
    && Has(units, "minute", "min", false, Linear(60.0))
    && Has(units, "hour", "h", false, Linear(3600.0))
  }

  /** The Time measure of sugarcube.py. */
  method NewTime() returns (s: Measure)
    ensures fresh(s) && s.Valid() && s.Owned()
    ensures s.name == "Time" && s.baseUnit.name == "second" && s.transforms == map[]
    ensures TimeUnits(s.units)
  {
    var second := new Unit("second", "s");
    s := new Measure("Time", second);
    var minute := new Unit("minute", "min", converter := Linear(60.0));
    var hour := new Unit("hour", "h", converter := Linear(3600.0));
    ghost var before := s.units;
    TimeRegistered(before, minute, hour);
    var ok := s.AddUnits([minute, hour]);
  }

  /** The minute and the hour land next to the second. */
  lemma TimeRegistered(before: map<string, Unit>, minute: Unit, hour: Unit)
    requires before.Keys == {"second"} && Has(before, "second", "s", false, Neutral)
    requires minute.name == "minute" && minute.abbrev == "min" && !minute.prefix && minute.converter == Linear(60.0)
    requires hour.name == "hour" && hour.abbrev == "h" && !hour.prefix && hour.converter == Linear(3600.0)
    ensures Fresh(before, [minute, hour])
    ensures TimeUnits(Register(before, [minute, hour]))
  {
    var us := [minute, hour];
    FreshNames2(before, minute, hour);
    RegisterFresh(before, us);
    RegisterExtends(before, us);
    var r := Register(before, us);
    assert r["minute"] == us[0] && r["hour"] == us[1];
  }

  /** Two units with distinct names new to the registry are fresh, and their names are these. */
  lemma FreshNames2(units: map<string, Unit>, a: Unit, b: Unit)
    requires a.name !in units && b.name !in units && a.name != b.name
    ensures Fresh(units, [a, b]) && Names([a, b]) == {a.name, b.name}
  {
    assert Names([]) == {};
    FreshCons(units, b, []);
    FreshCons(units, a, [b]);
    assert [a] + [b] == [a, b] && [b] + [] == [b];
  }

  /** The list of US cooking units sugarcube.py hands to Volume.addUnits, in order. */
  predicate USVolumeList(us: seq<Unit>) {
    && |us| == 9
    && us[0].name == "pinch" && us[0].abbrev == "pinch" && !us[0].prefix && us[0].converter == Linear(0.000625)
    && us[1].name == "teaspoon" && us[1].abbrev == "tsp." && !us[1].prefix && us[1].converter == Linear(0.005)
    && us[2].name == "tablespoon" && us[2].abbrev == "tbsp." && !us[2].prefix && us[2].converter == Linear(0.015)
    && us[3].name == "FluidOunce" && us[3].abbrev == "oz" && !us[3].prefix && us[3].converter == Linear(0.03)
    && us[4].name == "stick" && us[4].abbrev == "stick" && !us[4].prefix && us[4].converter == Linear(0.126)
    && us[5].name == "cup" && us[5].abbrev == "cup" && !us[5].prefix && us[5].converter == Linear(0.240)
    && us[6].name == "pint" && us[6].abbrev == "pt." && !us[6].prefix && us[6].converter == Linear(0.47318)
    && us[7].name == "quart" && us[7].abbrev == "qt" && !us[7].prefix && us[7].converter == Linear(0.94635)
    && us[8].name == "gallon" && us[8].abbrev == "gal." && !us[8].prefix && us[8].converter == Linear(3.78541)
  }

  /** Builds the US cooking units, none yet in a measure. */
  method NewUSVolumeUnits() returns (us: seq<Unit>)
    ensures USVolumeList(us)
    ensures forall i :: 0 <= i < |us| ==> fresh(us[i]) && us[i].measure == null
  {
    var pinch := new Unit("pinch", "pinch", converter := Linear(0.000625));
    var teaspoon := new Unit("teaspoon", "tsp.", converter := Linear(0.005));
    var tablespoon := new Unit("tablespoon", "tbsp.", converter := Linear(0.015));
    var fluidOunce := new Unit("FluidOunce", "oz", converter := Linear(0.03));
    var stick := new Unit("stick", "stick", converter := Linear(0.126));
    var cup := new Unit("cup", "cup", converter := Linear(0.240));
    var pint := new Unit("pint", "pt.", converter := Linear(0.47318));
    var quart := new Unit("quart", "qt", converter := Linear(0.94635));
    var gallon := new Unit("gallon", "gal.", converter := Linear(3.78541));
    us := [pinch, teaspoon, tablespoon, fluidOunce, stick, cup, pint, quart, gallon];
  }

  /** The US cooking units added to Volume. */
  method AddUSVolumeUnits(v: Measure)
    requires v.Valid() && v.Owned() && v.name == "Volume" && v.baseUnit.name == "liter"
    requires v.units.Keys == LiterNames && LiterUnits(v.units)
    modifies v`units
    ensures Extends(v.units, old(v.units))
    ensures IsVolume(v)
  {
    var us := NewUSVolumeUnits();
    ghost var before := v.units;
    USVolumeFresh(before, us);
    var ok := v.AddUnits(us);
    USVolumeRegistered(before, us);
    assert LiterUnits(v.units) by {
      assert Extends(v.units, before);
    }
  }

  /** The names of the US cooking units of Volume. */
  const USVolumeNames: set<string> := {"pinch", "teaspoon", "tablespoon", "FluidOunce", "stick", "cup", "pint", "quart", "gallon"}

  /** The US cooking units of Volume, with their abbreviations and factors to the liter. */
  predicate USVolumeUnits(units: map<string, Unit>) {
    && Has(units, "pinch", "pinch", false, Linear(0.000625))
    && Has(units, "teaspoon", "tsp.", false, Linear(0.005))
    && Has(units, "tablespoon", "tbsp.", false, Linear(0.015))
    && Has(units, "FluidOunce", "oz", false, Linear(0.03))
    && Has(units, "stick", "stick", false, Linear(0.126))
    && Has(units, "cup", "cup", false, Linear(0.240))
    && Has(units, "pint", "pt.", false, Linear(0.47318))
    && Has(units, "quart", "qt", false, Linear(0.94635))
    && Has(units, "gallon", "gal.", false, Linear(3.78541))
  }

  /** The US volume units land in the registry each under its name, next to what was there. */
  lemma USVolumeRegistered(before: map<string, Unit>, us: seq<Unit>)
    requires USVolumeList(us) && Fresh(before, us) && Names(us) == USVolumeNames
    ensures Register(before, us).Keys == before.Keys + USVolumeNames
    ensures Extends(Register(before, us), before)
    ensures USVolumeUnits(Register(before, us))
  {
    RegisterFresh(before, us);
    RegisterExtends(before, us);
    var r := Register(before, us);
    assert r["pinch"] == us[0] && r["teaspoon"] == us[1] && r["tablespoon"] == us[2];
    assert r["FluidOunce"] == us[3] && r["stick"] == us[4] && r["cup"] == us[5];
    assert r["pint"] == us[6] && r["quart"] == us[7] && r["gallon"] == us[8];
  }

  /** The US volume units are new to a Volume holding the liter and its SI units. */
  lemma USVolumeFresh(before: map<string, Unit>, us: seq<Unit>)
    requires before.Keys == LiterNames
    requires USVolumeList(us)
    ensures Fresh(before, us)
    ensures Names(us) == USVolumeNames
  {
    USVolumeNew(before);
    forall i, j | 0 <= i < j < |us| ensures us[i].name != us[j].name {
      assert i in {0, 1, 2, 3, 4, 5, 6, 7} && j in {1, 2, 3, 4, 5, 6, 7, 8};
    }
    forall n | n in {"pinch", "teaspoon", "tablespoon", "FluidOunce", "stick", "cup", "pint", "quart", "gallon"} ensures n in Names(us) {
      assert us[0] in us && us[1] in us && us[2] in us && us[3] in us && us[4] in us;
      assert us[5] in us && us[6] in us && us[7] in us && us[8] in us;
    }
    forall u | u in us ensures u.name in {"pinch", "teaspoon", "tablespoon", "FluidOunce", "stick", "cup", "pint", "quart", "gallon"} {
      var i :| 0 <= i < |us| && us[i] == u;
      assert i in {0, 1, 2, 3, 4, 5, 6, 7, 8};
    }
  }

  /** None of the US volume names is the liter or one of its SI names. */
  lemma USVolumeNew(before: map<string, Unit>)
    requires before.Keys == LiterNames
    ensures forall n :: n in before ==> n !in {"pinch", "teaspoon", "tablespoon", "FluidOunce", "stick", "cup", "pint", "quart", "gallon"}
  {
  }

  /** The US units added to Mass. */
  method AddUSMassUnits(m: Measure)
    requires m.Valid() && m.Owned() && m.name == "Mass" && m.baseUnit.name == "gram"
    requires m.units.Keys == GramNames && GramUnits(m.units)
    modifies m`units
    ensures Extends(m.units, old(m.units))
    ensures IsMass(m)
  {
    var ounce := new Unit(name := "Ounce", abbrev := "oz", converter := Linear(28.349523125));
    var pound := new Unit(name := "Pound", abbrev := "lb", converter := Linear(453.59237));
    var us := [ounce, pound];
    ghost var before := m.units;
    FreshNames2(before, ounce, pound);
    var ok := m.AddUnits(us);
    RegisterFresh(before, us);
    RegisterExtends(before, us);
    assert m.units["Ounce"] == us[0] && m.units["Pound"] == us[1];
  }

  /** The names of the US units of Mass. */
  const USMassNames: set<string> := {"Ounce", "Pound"}

  /** The ounce and the pound, with their abbreviations and factors to the gram. */
  predicate USMassUnits(units: map<string, Unit>) {
    && Has(units, "Ounce", "oz", false, Linear(28.349523125))
    && Has(units, "Pound", "lb", false, Linear(453.59237))
  }

  /** A registry that keeps every entry of another. */
  predicate Extends(after: map<string, Unit>, before: map<string, Unit>) {
    forall n :: n in before ==> n in after && after[n] == before[n]
  }

  /** The SI names written out. */
  lemma SINamesOf(base: string)
    ensures SINames(base) == {"milli" + base, "centi" + base, "deci" + base, "deca" + base, "hecto" + base, "kilo" + base}
  {
    assert SIPrefixes[0].0 == "milli" && SIPrefixes[1].0 == "centi" && SIPrefixes[2].0 == "deci";
    assert SIPrefixes[3].0 == "deca" && SIPrefixes[4].0 == "hecto" && SIPrefixes[5].0 == "kilo";
    forall n | n in SINames(base)
      ensures n in {"milli" + base, "centi" + base, "deci" + base, "deca" + base, "hecto" + base, "kilo" + base}
    {
      var i :| 0 <= i < |SIPrefixes| && n == SIPrefixes[i].0 + base;
      assert i in {0, 1, 2, 3, 4, 5};
    }
  }

  const Flour: Element := Element("Flour", Some(0.7))
  const Sugar: Element := Element("Sugar", Some(1.2))
  const Salt: Element := Element("Salt", Some(1.2))
  const Butter: Element := Element("Butter", Some(0.9))

  /** Mass as sugarcube.py fills it: the gram, its SI units, the ounce and the pound. */
  ghost predicate IsMass(m: Measure)
    reads m`units, m.units.Values`measure
  {
    && m.Valid() && m.Owned() && m.name == "Mass" && m.baseUnit.name == "gram"
    && m.units.Keys == GramNames + USMassNames
    && GramUnits(m.units)
    && USMassUnits(m.units)
  }

  /** Volume as sugarcube.py fills it: the liter, its SI units and the US cooking units. */
  ghost predicate IsVolume(v: Measure)
    reads v`units, v.units.Values`measure
  {
    && v.Valid() && v.Owned() && v.name == "Volume" && v.baseUnit.name == "liter"
    && v.units.Keys == LiterNames + USVolumeNames
    && LiterUnits(v.units)
    && USVolumeUnits(v.units)
  }

  /** Temperature: the celsius base, the kelvin, the fahrenheit and the oven thermostat. */
  ghost predicate IsTemperature(t: Measure)
    reads t`units, t`transforms, t.units.Values`measure
  {
    && t.Valid() && t.Owned() && t.name == "Temperature" && t.baseUnit.name == "celsius"
    && TemperatureUnits(t.units)
    && t.transforms == map[]
  }

  /** Length: the meter and its SI units. */
  ghost predicate IsLength(l: Measure)
    reads l`units, l`transforms, l.units.Values`measure
  {
    && l.Valid() && l.Owned() && l.name == "Length" && l.baseUnit.name == "meter"
    && l.units.Keys == MeterNames
    && MeterUnits(l.units)
    && l.transforms == map[]
  }

  /** Time: the second, the minute and the hour. */
  ghost predicate IsTime(s: Measure)
    reads s`units, s`transforms, s.units.Values`measure
  {
    && s.Valid() && s.Owned() && s.name == "Time" && s.baseUnit.name == "second"
    && TimeUnits(s.units)
    && s.transforms == map[]
  }

  /** The density transformations of sugarcube.py: Volume to Mass multiplies the
      milliliters by the density and gives grams, Mass to Volume divides the grams
      by the density and gives milliliters. */
  ghost predicate DensityLinked(m: Measure, v: Measure)
    reads m`transforms, v`units, v`transforms
  {
    && "milliliter" in v.units
    && v.transforms == map[m := DensityTransform(v.units["milliliter"], m.baseUnit, MultiplyByDensity)]
    && m.transforms == map[v := DensityTransform(m.baseUnit, v.units["milliliter"], DivideByDensity)]
  }

  /** Mass with its SI units and its US units, linked to nothing yet. */
  method NewFullMass() returns (m: Measure)
    ensures fresh(m) && IsMass(m) && m.transforms == map[]
  {
    m := NewMass();
    AddUSMassUnits(m);
  }

  /** Volume with its SI units and its US cooking units, linked to nothing yet. */
  method NewFullVolume() returns (v: Measure)
    ensures fresh(v) && IsVolume(v) && v.transforms == map[]
  {
    v := NewVolume();
    AddUSVolumeUnits(v);
  }

  /** Volume's transformation towards Mass: milliliters times the density give grams. */
  method LinkVolumeToMass(m: Measure, v: Measure)
    requires IsMass(m) && IsVolume(v) && v.transforms == map[]
    modifies v`transforms
    ensures IsMass(m) && IsVolume(v)
    ensures v.transforms == map[m := DensityTransform(v.units["milliliter"], m.baseUnit, MultiplyByDensity)]
  {
    ghost var massUnits, volumeUnits := m.units, v.units;
    v.AddTransform(m, DensityTransform(v.units["milliliter"], m.baseUnit, MultiplyByDensity));
    assert m.units == massUnits && v.units == volumeUnits;
  }

  /** Mass's transformation towards Volume: grams divided by the density give milliliters. */
  method LinkMassToVolume(m: Measure, v: Measure)
    requires IsMass(m) && IsVolume(v) && m.transforms == map[]
    requires v.transforms == map[m := DensityTransform(v.units["milliliter"], m.baseUnit, MultiplyByDensity)]
    modifies m`transforms
    ensures IsMass(m) && IsVolume(v) && DensityLinked(m, v)
  {
    ghost var massUnits, volumeUnits := m.units, v.units;
    m.AddTransform(v, DensityTransform(m.baseUnit, v.units["milliliter"], DivideByDensity));
    assert m.units == massUnits && v.units == volumeUnits;
  }

  /** Mass and Volume with their units and the transformations between them.
      sugarcube.py registers the transformations before the US units; neither
      step reads what the other writes, so linking the measures last leaves
      both as the module leaves them. */
  method NewMassAndVolume() returns (m: Measure, v: Measure)
    ensures fresh(m) && fresh(v) && m != v
    ensures IsMass(m) && IsVolume(v) && DensityLinked(m, v)
  {
    m := NewFullMass();
    v := NewFullVolume();

    // measure conversion
    LinkVolumeToMass(m, v);
    LinkMassToVolume(m, v);
  }

  /** The module-level measures of sugarcube.py, as built at import time. */
  datatype Catalog = Catalog(mass: Measure, volume: Measure, temperature: Measure, length: Measure, time: Measure)
  {
    /** The catalog as sugarcube.py builds it: five distinct measures, each a
        valid registry owning exactly the units listed, and the two density
        transformations between Volume and Mass. */
    ghost predicate Valid()
      reads mass, volume, temperature, length, time
      reads mass.units.Values, volume.units.Values, temperature.units.Values
      reads length.units.Values, time.units.Values
    {
      && mass != volume && mass != temperature && mass != length && mass != time
      && volume != temperature && volume != length && volume != time
      && temperature != length && temperature != time && length != time
      && IsMass(mass) && IsVolume(volume) && IsTemperature(temperature) && IsLength(length) && IsTime(time)
      && DensityLinked(mass, volume)
    }
  }

  /** Builds the catalog: Mass and Volume with their transformations, then
      Temperature, Length and Time. */
  method NewCatalog() returns (c: Catalog)
    ensures fresh(c.mass) && fresh(c.volume) && fresh(c.temperature) && fresh(c.length) && fresh(c.time)
    ensures c.Valid()
  {
    var m, v := NewMassAndVolume();
    var t := NewTemperature();
    var l := NewLength();
    var s := NewTime();
    c := Catalog(m, v, t, l, s);
  }
}
