/** Converters: the pair of maps between a unit's own scale and the base unit
    of its measure (sugarcube.py, class Converter). Every converter the library
    builds is affine, so a converter is the affine map `n * factor + constant`
    towards the base unit, with `reversed` swapping the two directions. */
module Converters {
  import opened Errors

  datatype Converter = Converter(factor: real, constant: real, reversed: bool)

  /** The affine map n * factor + constant. */
  function Forward(c: Converter, n: real): real {
    n * c.factor + c.constant
  }

  /** The inverse map (n - constant) / factor; a true division, so a zero
      factor fails as Python's division does. */
  function Backward(c: Converter, n: real): Result<real> {
    if c.factor == 0.0 then Err(DivisionByZero) else Ok((n - c.constant) / c.factor)
  }

  /** Convert a value of the unit into the base unit. */
  function ToBase(c: Converter, n: real): Result<real> {
    if c.reversed then Backward(c, n) else Ok(Forward(c, n))
  }

  /** Convert a value of the base unit into the unit. */
  function FromBase(c: Converter, n: real): Result<real> {
    if c.reversed then Ok(Forward(c, n)) else Backward(c, n)
  }

  /** Converter.Linear(factor, constant=0). */
  function Linear(factor: real, constant: real := 0.0): (c: Converter)
    ensures forall n :: ToBase(c, n) == Ok(n * factor + constant)
    ensures factor != 0.0 ==> forall n :: FromBase(c, n) == Ok((n - constant) / factor)
    ensures factor == 0.0 ==> forall n :: FromBase(c, n) == Err(DivisionByZero)
  {
    var c := Converter(factor, constant, false);
    assert forall n :: Forward(c, n) == n * factor + constant;
    c
  }

  /** Converter.Constant(constant): adds the constant on the way to the base unit. */
  function Constant(constant: real): (c: Converter)
    ensures forall n :: ToBase(c, n) == Ok(n + constant)
    ensures forall n :: FromBase(c, n) == Ok(n - constant)
  {
    Linear(1.0, constant)
  }

  /** Converter.Neutral, the converter of a unit that is its own base. */
  const Neutral: Converter := Linear(1.0)

  /** The `reverse` property: the same two maps, swapped. */
  function Reverse(c: Converter): (r: Converter)
    ensures r.reversed != c.reversed
  {
    c.(reversed := !c.reversed)
  }

  /** A converter whose two directions never divide by zero. */
  predicate Invertible(c: Converter) {
    c.factor != 0.0
  }

  /** The only failure of a converter is a division by a zero factor. */
  lemma ConverterFailsOnlyOnZeroFactor(c: Converter, n: real)
    ensures ToBase(c, n).Err? <==> c.reversed && !Invertible(c)
    ensures FromBase(c, n).Err? <==> !c.reversed && !Invertible(c)
    ensures ToBase(c, n).Err? ==> ToBase(c, n).error == DivisionByZero
    ensures FromBase(c, n).Err? ==> FromBase(c, n).error == DivisionByZero
  {
  }

  /** The backward map undoes the forward map. */
  lemma BackwardForward(c: Converter, n: real)
    requires Invertible(c)
    ensures Backward(c, Forward(c, n)) == Ok(n)
  {
    calc {
      (Forward(c, n) - c.constant) / c.factor;
      (n * c.factor) / c.factor;
      n;
    }
  }

  /** The forward map undoes the backward map. */
  lemma ForwardBackward(c: Converter, n: real)
    requires Invertible(c)
    ensures Backward(c, n).Ok? && Forward(c, Backward(c, n).value) == n
  {
    var m := (n - c.constant) / c.factor;
    assert m * c.factor == n - c.constant;
  }

  /** Converting to the base unit and back returns the value exactly. */
  lemma FromBaseToBase(c: Converter, n: real)
    requires Invertible(c)
    ensures ToBase(c, n).Ok? && FromBase(c, ToBase(c, n).value) == Ok(n)
  {
    if c.reversed {
      ForwardBackward(c, n);
    } else {
      BackwardForward(c, n);
    }
  }

  /** Converting from the base unit and back returns the value exactly. */
  lemma ToBaseFromBase(c: Converter, n: real)
    requires Invertible(c)
    ensures FromBase(c, n).Ok? && ToBase(c, FromBase(c, n).value) == Ok(n)
  {
    if c.reversed {
      BackwardForward(c, n);
    } else {
      ForwardBackward(c, n);
    }
  }

  /** `reverse` swaps toBase and fromBase, and reversing twice gives back the converter. */
  lemma ReverseSwaps(c: Converter, n: real)
    ensures ToBase(Reverse(c), n) == FromBase(c, n)
    ensures FromBase(Reverse(c), n) == ToBase(c, n)
    ensures Reverse(Reverse(c)) == c
  {
    var r := Reverse(c);
    assert r.factor == c.factor && r.constant == c.constant;
    assert Forward(r, n) == Forward(c, n) && Backward(r, n) == Backward(c, n);
  }

  /** Constant(k) is Linear(1, k), and Neutral is the identity both ways. */
  lemma ConstantAndNeutral(k: real, n: real)
    ensures Constant(k) == Linear(1.0, k)
    ensures ToBase(Neutral, n) == Ok(n) && FromBase(Neutral, n) == Ok(n)
  {
  }

  /** The doctests of Converter: Linear(5, 1).toBase(2) == 11,
      Constant(7).toBase(5) == 12, and the converter halving towards the
      base (Linear(2) reversed) gives toBase(50) == 25 and, reversed, 42 from 21. */
  lemma ConverterDoctests()
    ensures ToBase(Linear(5.0, 1.0), 2.0) == Ok(11.0)
    ensures ToBase(Constant(7.0), 5.0) == Ok(12.0)
    ensures ToBase(Reverse(Linear(2.0)), 50.0) == Ok(25.0)
    ensures ToBase(Reverse(Reverse(Linear(2.0))), 21.0) == Ok(42.0)
  {
  }

  /** A converter without constant is linear towards the base unit. */
  lemma ScaledToBase(c: Converter, n: real, k: real)
    requires Invertible(c) && c.constant == 0.0
    ensures ToBase(c, n).Ok? && ToBase(c, n * k).Ok?
    ensures ToBase(c, n * k).value == ToBase(c, n).value * k
  {
    var x, y := ToBase(c, n).value, ToBase(c, n * k).value;
    if c.reversed {
      assert x == n / c.factor && y == (n * k) / c.factor;
    } else {
      assert x == n * c.factor && y == n * k * c.factor;
    }
    assert y == x * k;
  }

  /** A converter without constant is linear from the base unit. */
  lemma ScaledFromBase(c: Converter, n: real, k: real)
    requires Invertible(c) && c.constant == 0.0
    ensures FromBase(c, n).Ok? && FromBase(c, n * k).Ok?
    ensures FromBase(c, n * k).value == FromBase(c, n).value * k
  {
    var r := Reverse(c);
    assert r.factor == c.factor && r.constant == c.constant;
    ReverseSwaps(c, n);
    ReverseSwaps(c, n * k);
    ScaledToBase(r, n, k);
  }
}
