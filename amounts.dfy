/** Amounts, elements and ingredients (sugarcube.py, classes Amount, Element
    and Ingredient). An amount is a value in a unit; converting it within a
    measure always passes through the measure's base unit. An ingredient is an
    amount of an element, and can also change measure through the
    transformation the source measure registered, fed by the element's density. */
module Amounts {
  import opened Errors
  import opened Converters
  import opened Measures

  datatype Amount = Amount(value: real, unit: Unit)

  /** An element with the one property the transformations read. */
  datatype Element = Element(name: string, density: Option<real>)

  datatype Ingredient = Ingredient(amount: Amount, element: Element)

  /** What Ingredient.to accepts: a unit, or a measure standing for its base unit. */
  datatype Target = ToUnit(unit: Unit) | ToMeasure(measure: Measure)

  /** The right operand of `*` or `/` on an amount. */
  datatype Operand = Number(k: real) | OfElement(element: Element) | Other

  /** What `*` on an amount yields: a scaled amount or an ingredient. */
  datatype Product = Scaled(amount: Amount) | Combined(ingredient: Ingredient)

  /** The value of an amount expressed in the base unit of its measure:
      its own value when its unit is the base unit, its converter's toBase otherwise. */
  function BaseValue(a: Amount): Result<real>
    reads a.unit
  {
    if a.unit.measure == null then Err(Unregistered)
    else if a.unit == a.unit.measure.baseUnit then Ok(a.value)
    else ToBase(a.unit.converter, a.value)
  }

  /** Amount.toBaseUnit: apply the unit's toBase and label the result with the
      base unit. The converter runs before the measure is looked up, so its
      division by zero wins over a missing measure. */
  function ToBaseUnit(a: Amount): (r: Result<Amount>)
    reads a.unit
    ensures r.Ok? <==> a.unit.measure != null && ToBase(a.unit.converter, a.value).Ok?
    ensures r.Ok? ==> r.value.unit == a.unit.measure.baseUnit && r.value.value == ToBase(a.unit.converter, a.value).value
    ensures ToBase(a.unit.converter, a.value).Err? ==> r == Err(DivisionByZero)
    ensures ToBase(a.unit.converter, a.value).Ok? && a.unit.measure == null ==> r == Err(Unregistered)
    ensures a.unit.measure != null && a.unit != a.unit.measure.baseUnit ==>
              (r.Ok? <==> BaseValue(a).Ok?) && (r.Ok? ==> r.value.value == BaseValue(a).value)
  {
    var v :- ToBase(a.unit.converter, a.value);
    if a.unit.measure == null then Err(Unregistered)
    else Ok(Amount(v, a.unit.measure.baseUnit))
  }

  /** Amount.to: convert to another unit of the same measure. */
  function To(a: Amount, u: Unit): (r: Result<Amount>)
    reads a.unit, u
    // the identity short-circuit
    ensures a.unit == u ==> r == Ok(a)
    // a side without a measure fails while the error message is being built
    ensures a.unit != u && (a.unit.measure == null || u.measure == null) ==> r == Err(Unregistered)
    // units of different measures never convert directly
    ensures a.unit != u && a.unit.measure != null && u.measure != null && u.measure != a.unit.measure ==>
              r == Err(MeasureMismatch)
    ensures r.Ok? ==> r.value.unit == u
    // every other conversion routes through the base unit, skipping its converter
    ensures r.Ok? && a.unit != u ==>
              && BaseValue(a).Ok?
              && (u == u.measure.baseUnit ==> r.value.value == BaseValue(a).value)
              && (u != u.measure.baseUnit ==> FromBase(u.converter, BaseValue(a).value) == Ok(r.value.value))
    // within a measure it fails exactly when a converter divides by a zero factor
    ensures a.unit != u && u.measure == a.unit.measure != null ==>
              && (r.Ok? <==> BaseValue(a).Ok? && (u != u.measure.baseUnit ==> FromBase(u.converter, BaseValue(a).value).Ok?))
              && (r.Err? ==> r.error == DivisionByZero)
    // within a measure, invertible converters never fail
    ensures u.measure == a.unit.measure != null && Invertible(a.unit.converter) && Invertible(u.converter) ==> r.Ok?
  {
    if a.unit == u then Ok(a)
    else if u.measure != a.unit.measure then
      if a.unit.measure == null || u.measure == null then Err(Unregistered) else Err(MeasureMismatch)
    else if a.unit.measure == null then Err(Unregistered)
    else
      var b :- if a.unit != a.unit.measure.baseUnit then ToBaseUnit(a) else Ok(a);
      if u == b.unit then Ok(b)
      else
        var v :- FromBase(u.converter, b.value);
        Ok(Amount(v, u))
  }

  /** Amount * operand (and operand * amount, which Python sends to the same method). */
  function Mul(a: Amount, other: Operand): (r: Result<Product>)
    ensures other.Number? ==> r == Ok(Scaled(Amount(a.value * other.k, a.unit)))
    ensures other.OfElement? ==> r == Ok(Combined(Ingredient(a, other.element)))
    ensures other.Other? ==> r == Err(InvalidOperand)
  {
    if other.Number? then Ok(Scaled(Amount(a.value * other.k, a.unit)))
    else if other.OfElement? then Ok(Combined(Ingredient(a, other.element)))
    else Err(InvalidOperand)
  }

  /** Amount / operand: a true division, so dividing by zero fails. */
  function Div(a: Amount, other: Operand): (r: Result<Amount>)
    ensures other.Number? && other.k != 0.0 ==> r == Ok(Amount(a.value / other.k, a.unit))
    ensures other.Number? && other.k == 0.0 ==> r == Err(DivisionByZero)
    ensures !other.Number? ==> r == Err(InvalidOperand)
  {
    match other
    case Number(k) => if k == 0.0 then Err(DivisionByZero) else Ok(Amount(a.value / k, a.unit))
    case _ => Err(InvalidOperand)
  }

  /** Apply a registered transformation to an amount of an element. The
      volume-to-mass form reads the density before converting, the
      mass-to-volume form converts first, as the two lambdas evaluate. */
  function ApplyTransform(t: Transform, a: Amount, e: Element): (r: Result<Amount>)
    reads a.unit, t.through
    ensures r.Ok? ==> r.value.unit == t.onto
    // it succeeds exactly when the density is there (non-zero to divide by) and `to` succeeds
    ensures r.Ok? <==>
              To(a, t.through).Ok? && e.density.Some? && (t.op == DivideByDensity ==> e.density.value != 0.0)
    // volume to mass reads the density first, then converts
    ensures t.op == MultiplyByDensity && e.density.None? ==> r == Err(MissingProperty("density"))
    ensures t.op == MultiplyByDensity && e.density.Some? && To(a, t.through).Err? ==>
              r == Err(To(a, t.through).error)
    // mass to volume converts first, then reads the density and divides
    ensures t.op == DivideByDensity && To(a, t.through).Err? ==> r == Err(To(a, t.through).error)
    ensures t.op == DivideByDensity && To(a, t.through).Ok? && e.density.None? ==>
              r == Err(MissingProperty("density"))
    ensures t.op == DivideByDensity && To(a, t.through).Ok? && e.density == Some(0.0) ==>
              r == Err(DivisionByZero)
    ensures r.Ok? && t.op == MultiplyByDensity ==>
              r.value.value == To(a, t.through).value.value * e.density.value
    ensures r.Ok? && t.op == DivideByDensity ==>
              e.density.value != 0.0 && r.value.value * e.density.value == To(a, t.through).value.value
  {
    match t.op
    case MultiplyByDensity =>
      if e.density.None? then Err(MissingProperty("density"))
      else
        var m :- To(a, t.through);
        Ok(Amount(m.value * e.density.value, t.onto))
    case DivideByDensity =>
      var m :- To(a, t.through);
      if e.density.None? then Err(MissingProperty("density"))
      else if e.density.value == 0.0 then Err(DivisionByZero)
      else Ok(Amount(m.value / e.density.value, t.onto))
  }

  /** The unit a target stands for. */
  function Resolve(target: Target): Unit {
    match target
    case ToUnit(u) => u
    case ToMeasure(m) => m.baseUnit
  }

  /** The objects Ingredient.to may read for an amount of this measure. */
  function SourceFrame(m: Measure?): set<object>
    reads m
  {
    if m == null then {} else {m as object} + m.TransformUnits()
  }

  /** Ingredient._transform: the source measure's transformation towards the
      target's measure, then a same-measure conversion to the target unit. */
  function Transformed(i: Ingredient, u: Unit): (r: Result<Ingredient>)
    reads i.amount.unit, u, SourceFrame(i.amount.unit.measure)
    ensures r.Ok? ==> r.value.element == i.element && r.value.amount.unit == u
    ensures i.amount.unit.measure == null || u.measure == null ==> r == Err(Unregistered)
    ensures i.amount.unit.measure != null && u.measure != null && u.measure !in i.amount.unit.measure.transforms ==>
              r == Err(NoTransform)
    ensures r.Ok? ==>
              var t := i.amount.unit.measure.transforms[u.measure];
              && ApplyTransform(t, i.amount, i.element).Ok?
              && To(ApplyTransform(t, i.amount, i.element).value, u) == Ok(r.value.amount)
    // with a transformation registered, the first failing step decides the error
    ensures i.amount.unit.measure != null && u.measure != null && u.measure in i.amount.unit.measure.transforms ==>
              var b := ApplyTransform(i.amount.unit.measure.transforms[u.measure], i.amount, i.element);
              && (b.Err? ==> r == Err(b.error))
              && (b.Ok? ==> (r.Ok? <==> To(b.value, u).Ok?))
              && (b.Ok? && To(b.value, u).Err? ==> r == Err(To(b.value, u).error))
  {
    if i.amount.unit.measure == null || u.measure == null then Err(Unregistered)
    else
      var t :- i.amount.unit.measure.TransformTo(u.measure);
      assert t in i.amount.unit.measure.transforms.Values;
      var b :- ApplyTransform(t, i.amount, i.element);
      var c :- To(b, u);
      Ok(Ingredient(c, i.element))
  }

  /** Ingredient.to: a measure stands for its base unit; a unit of the same
      measure is reached by Amount.to, any other through the transformation. */
  function IngredientTo(i: Ingredient, target: Target): (r: Result<Ingredient>)
    reads i.amount.unit, Resolve(target), SourceFrame(i.amount.unit.measure)
    ensures r.Ok? ==> r.value.element == i.element && r.value.amount.unit == Resolve(target)
    ensures Resolve(target).measure == i.amount.unit.measure ==>
              (r.Ok? <==> To(i.amount, Resolve(target)).Ok?) &&
              (r.Ok? ==> r.value.amount == To(i.amount, Resolve(target)).value)
    ensures Resolve(target).measure == i.amount.unit.measure && To(i.amount, Resolve(target)).Err? ==>
              r == Err(To(i.amount, Resolve(target)).error)
    ensures Resolve(target).measure != i.amount.unit.measure ==> r == Transformed(i, Resolve(target))
  {
    var u := Resolve(target);
    if u.measure == i.amount.unit.measure then
      var a :- To(i.amount, u);
      Ok(Ingredient(a, i.element))
    else Transformed(i, u)
  }

  /** Amount.__repr__ around a rendered value: the abbreviation goes before the
      value when the unit is prefixed, after it otherwise, with one space. */
  function Display(a: Amount, valueText: string): (r: string)
    ensures |r| == |a.unit.abbrev| + 1 + |valueText|
    ensures a.unit.prefix ==>
              r[..|a.unit.abbrev|] == a.unit.abbrev && r[|a.unit.abbrev|] == ' ' && r[|a.unit.abbrev| + 1..] == valueText
    ensures !a.unit.prefix ==>
              r[..|valueText|] == valueText && r[|valueText|] == ' ' && r[|valueText| + 1..] == a.unit.abbrev
  {
    if a.unit.prefix then a.unit.abbrev + " " + valueText else valueText + " " + a.unit.abbrev
  }

  /** Ingredient.__repr__: the amount, a space, the element's name. */
  function DisplayIngredient(i: Ingredient, valueText: string): (r: string)
    ensures |r| == |Display(i.amount, valueText)| + 1 + |i.element.name|
    ensures r[..|Display(i.amount, valueText)|] == Display(i.amount, valueText)
    ensures r[|Display(i.amount, valueText)|] == ' '
    ensures r[|Display(i.amount, valueText)| + 1..] == i.element.name
  {
    Display(i.amount, valueText) + " " + i.element.name
  }

  /** Converting keeps the quantity: an amount and its conversion have the
      same value in the base unit, whenever the target's converter is invertible. */
  lemma ToPreservesBaseValue(a: Amount, u: Unit)
    requires To(a, u).Ok? && Invertible(u.converter)
    ensures BaseValue(To(a, u).value) == BaseValue(a)
  {
    if a.unit != u && u != u.measure.baseUnit {
      ToBaseFromBase(u.converter, BaseValue(a).value);
    }
  }

  /** Routing through the base unit makes conversions compose: converting to
      an intermediate unit and then to `w` is the same as converting to `w`
      directly, errors included. */
  lemma ConversionIsPathIndependent(a: Amount, u: Unit, w: Unit)
    requires To(a, u).Ok?
    requires Invertible(a.unit.converter) && Invertible(u.converter)
    ensures To(To(a, u).value, w) == To(a, w)
  {
    var b := To(a, u).value;
    if a.unit != u && w != u && w.measure == a.unit.measure {
      ToPreservesBaseValue(a, u);
      assert BaseValue(b) == BaseValue(a);
      if w == a.unit && a.unit != a.unit.measure.baseUnit {
        FromBaseToBase(a.unit.converter, a.value);
      }
    }
  }

  /** Amount(v, s).to(base).to(s) is Amount(v, s) again. */
  lemma RoundTripThroughBase(a: Amount)
    requires a.unit.measure != null && a.unit.measure.baseUnit.measure == a.unit.measure
    requires Invertible(a.unit.converter)
    ensures To(a, a.unit.measure.baseUnit).Ok?
    ensures To(To(a, a.unit.measure.baseUnit).value, a.unit) == Ok(a)
  {
    var base := a.unit.measure.baseUnit;
    if a.unit != base {
      FromBaseToBase(a.unit.converter, a.value);
    }
  }

  /** Converting to another unit and back gives the amount back exactly. */
  lemma RoundTrip(a: Amount, u: Unit)
    requires u.measure == a.unit.measure != null
    requires Invertible(a.unit.converter) && Invertible(u.converter)
    ensures To(a, u).Ok? && To(To(a, u).value, a.unit) == Ok(a)
  {
    ConversionIsPathIndependent(a, u, a.unit);
  }

  /** Outside the base unit, toBaseUnit is Amount.to towards the base unit. */
  lemma ToBaseUnitIsToBase(a: Amount)
    requires a.unit.measure != null && a.unit.measure.baseUnit.measure == a.unit.measure
    requires a.unit != a.unit.measure.baseUnit
    ensures To(a, a.unit.measure.baseUnit) == ToBaseUnit(a)
  {
  }

  /** Two units of the same name in different measures stay distinct units. */
  lemma SameNameDifferentMeasures(v: real, u1: Unit, u2: Unit)
    requires u1.name == u2.name && u1.measure != u2.measure
    requires u1.measure != null && u2.measure != null
    ensures u1 != u2 && To(Amount(v, u1), u2) == Err(MeasureMismatch)
  {
  }

  /** Dividing by a non-zero number and multiplying back gives the amount back. */
  lemma DivThenMul(a: Amount, k: real)
    requires k != 0.0
    ensures Div(a, Number(k)).Ok?
    ensures Mul(Div(a, Number(k)).value, Number(k)) == Ok(Scaled(a))
  {
    var q := Amount(a.value / k, a.unit);
    assert Div(a, Number(k)) == Ok(q);
    var r := Mul(q, Number(k));
    assert r.Ok? && r.value.Scaled? && r.value.amount == Amount(q.value * k, q.unit);
    assert q.value * k == a.value;
  }

  /** Scaling commutes with conversion between units whose converters add no
      constant (and fails to for Temperature, whose converters do). */
  lemma ScalingCommutesWithTo(a: Amount, u: Unit, k: real)
    requires u.measure == a.unit.measure != null
    requires Invertible(a.unit.converter) && Invertible(u.converter)
    requires a.unit.converter.constant == 0.0 && u.converter.constant == 0.0
    ensures To(a, u).Ok? && To(Amount(a.value * k, a.unit), u).Ok?
    ensures To(Amount(a.value * k, a.unit), u).value.value == To(a, u).value.value * k
  {
    var base := u.measure.baseUnit;
    var b := Amount(a.value * k, a.unit);
    var r, rb := To(a, u), To(b, u);
    if a.unit != u {
      var x, y := BaseValue(a).value, BaseValue(b).value;
      assert y == x * k by {
        if a.unit != base {
          ScaledToBase(a.unit.converter, a.value, k);
        }
      }
      if u == base {
        assert r.value.value == x && rb.value.value == y;
      } else {
        ScaledFromBase(u.converter, x, k);
        assert FromBase(u.converter, x) == Ok(r.value.value);
        assert FromBase(u.converter, y) == Ok(rb.value.value);
      }
    }
  }

  /** An amount of an element converted to another measure through a
      multiply-by-density transformation comes back exactly through the
      matching divide-by-density one, for any non-zero density. */
  lemma DensityRoundTrip(i: Ingredient, t: Unit)
    requires
      var s := i.amount.unit;
      && s.measure != null && t.measure != null && s.measure != t.measure
      && t.measure in s.measure.transforms && s.measure in t.measure.transforms
      && var fwd, bwd := s.measure.transforms[t.measure], t.measure.transforms[s.measure];
      && fwd.op == MultiplyByDensity && bwd == DensityTransform(fwd.onto, fwd.through, DivideByDensity)
      && fwd.through.measure == s.measure && fwd.onto.measure == t.measure
      && Invertible(s.converter) && Invertible(t.converter)
      && Invertible(fwd.through.converter) && Invertible(fwd.onto.converter)
    requires i.element.density.Some? && i.element.density.value != 0.0
    ensures IngredientTo(i, ToUnit(t)).Ok?
    ensures IngredientTo(IngredientTo(i, ToUnit(t)).value, ToUnit(i.amount.unit)) == Ok(i)
  {
    var a, e, s := i.amount, i.element, i.amount.unit;
    var d := e.density.value;
    var fwd := s.measure.transforms[t.measure];
    var x, y := fwd.through, fwd.onto;
    // there: to x, times the density, as y, then to t
    assert To(a, x).Ok?;
    var ax := To(a, x).value;
    var b := Amount(ax.value * d, y);
    assert e.density == Some(d);
    assert ApplyTransform(fwd, a, e).Ok? && ApplyTransform(fwd, a, e).value.value == ax.value * d;
    assert ApplyTransform(fwd, a, e) == Ok(b);
    var bt := To(b, t).value;
    var j := Ingredient(bt, e);
    assert IngredientTo(i, ToUnit(t)) == Ok(j);
    // back: to y, which gives b again, divided by the density, as x, then to s
    ConversionIsPathIndependent(b, t, y);
    assert To(bt, y) == Ok(b);
    assert ax.value * d / d == ax.value;
    assert ApplyTransform(t.measure.transforms[s.measure], bt, e) == Ok(ax);
    ConversionIsPathIndependent(a, x, s);
    assert To(ax, s) == Ok(a);
  }
}
