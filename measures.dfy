/** Units and measures (sugarcube.py, classes Unit and Measure). A unit is an
    object: two units with the same name are still different units, and its
    back-reference to the measure that holds it is set when a measure adds it.
    A measure is a registry of units, keyed by name and seeded with its base
    unit, and of transformations towards other measures, first registration
    winning. */
module Measures {
  import opened Errors
  import opened Converters

  class Unit {
    const name: string
    const abbrev: string
    const prefix: bool   // the abbreviation is written before the value
    const converter: Converter
    var measure: Measure?

    constructor (name: string := "Unknown unit", abbrev: string := "?unit",
                 prefix: bool := false, converter: Converter := Neutral)
      ensures this.name == name && this.abbrev == abbrev
      ensures this.prefix == prefix && this.converter == converter
      ensures measure == null
    {
      this.name := name;
      this.abbrev := abbrev;
      this.prefix := prefix;
      this.converter := converter;
      measure := null;
    }
  }

  /** What a registered transformation does with an element's density: the
      amount is first converted to the unit `through`, its value is multiplied
      or divided by the density, and the result is an amount of `onto`. */
  datatype DensityOp = MultiplyByDensity | DivideByDensity
  datatype Transform = DensityTransform(through: Unit, onto: Unit, op: DensityOp)

  class Measure {
    const name: string
    const baseUnit: Unit
    var units: map<string, Unit>
    var transforms: map<Measure, Transform>

    /** The registry invariant: every unit is filed under its own name, and the
        base unit is one of them. */
    ghost predicate Valid()
      reads this`units
    {
      && baseUnit.name in units
      && units[baseUnit.name] == baseUnit
      && NamedByKey(units)
    }

    /** Every unit the measure holds points back to it. */
    ghost predicate Owned()
      reads this`units, units.Values`measure
    {
      forall n :: n in units ==> units[n].measure == this
    }

    constructor (name: string, baseUnit: Unit)
      modifies baseUnit
      ensures Valid() && Owned()
      ensures this.name == name && this.baseUnit == baseUnit
      ensures units == map[baseUnit.name := baseUnit] && |units| == 1
      ensures transforms == map[]
      ensures baseUnit.measure == this
    {
      this.name := name;
      this.baseUnit := baseUnit;
      units := map[baseUnit.name := baseUnit];
      transforms := map[];
      new;
      baseUnit.measure := this;
    }

    /** addUnit: refuse a name already present; otherwise file the unit under
        its name and point it back to this measure. */
    method AddUnit(unit: Unit) returns (r: Outcome)
      requires Valid()
      modifies this`units, unit`measure
      ensures Valid()
      ensures old(Owned()) ==> Owned()
      ensures r == (if unit.name in old(units) then Fail(DuplicateUnit(unit.name)) else Pass)
      ensures r.Fail? ==> units == old(units) && unit.measure == old(unit.measure)
      ensures r.Pass? ==> units == old(units)[unit.name := unit] && unit.measure == this
    {
      if unit.name in units {
        return Fail(DuplicateUnit(unit.name));
      }
      unit.measure := this;
      units := units[unit.name := unit];
      return Pass;
    }

    /** addUnits: add the units in order, stopping at the first failure; the
        units added before it stay added. */
    method AddUnits(us: seq<Unit>) returns (r: Outcome)
      requires Valid()
      modifies this`units, set u | u in us
      ensures Valid()
      ensures old(Owned()) ==> Owned()
      ensures units == Register(old(units), us)
      ensures var k := Accepted(old(units), us);
        r == if k == |us| then Pass else Fail(DuplicateUnit(us[k].name))
      ensures forall i :: 0 <= i < Accepted(old(units), us) ==> us[i].measure == this
      ensures forall i :: Accepted(old(units), us) <= i < |us| && us[i] !in us[..Accepted(old(units), us)] ==>
                us[i].measure == old(us[i].measure)
    {
      var i := 0;
      while i < |us|
        invariant 0 <= i <= |us|
        invariant Valid()
        invariant old(Owned()) ==> Owned()
        invariant Register(old(units), us) == Register(units, us[i..])
        invariant Accepted(old(units), us) == i + Accepted(units, us[i..])
        invariant forall j :: 0 <= j < i ==> us[j].measure == this
        invariant forall j :: i <= j < |us| && us[j] !in us[..i] ==> us[j].measure == old(us[j].measure)
      {
        SplitAt(us, i);
        r := AddUnit(us[i]);
        if r.Fail? {
          return;
        }
        i := i + 1;
      }
      return Pass;
    }

    /** transformTo: the transformation registered towards `m`, if any. */
    function TransformTo(m: Measure): (r: Result<Transform>)
      reads this`transforms
      ensures r.Ok? <==> m in transforms
      ensures r.Ok? ==> r.value == transforms[m]
      ensures r.Err? ==> r.error == NoTransform
    {
      if m in transforms then Ok(transforms[m]) else Err(NoTransform)
    }

    /** addTransform: register `t` towards `m` unless one is registered already. */
    method AddTransform(m: Measure, t: Transform)
      modifies this`transforms
      ensures transforms == WithTransform(old(transforms), m, t)
      ensures TransformTo(m) == Ok(if m in old(transforms) then old(transforms)[m] else t)
    {
      if m !in transforms {
        transforms := transforms[m := t];
      }
    }

    /** The units the registered transformations read. */
    function TransformUnits(): set<object>
      reads this`transforms
    {
      (set t | t in transforms.Values :: t.through as object) +
      (set t | t in transforms.Values :: t.onto as object)
    }
  }

  /** Every unit of the registry is filed under its own name. */
  ghost predicate NamedByKey(units: map<string, Unit>) {
    forall n :: n in units ==> units[n].name == n
  }

  /** Number of units that addUnits accepts before the first name already present. */
  function Accepted(units: map<string, Unit>, us: seq<Unit>): (k: nat)
    decreases |us|
    ensures k <= |us|
  {
    if us == [] || us[0].name in units then 0
    else 1 + Accepted(units[us[0].name := us[0]], us[1..])
  }

  /** The registry after addUnits: the accepted units filed under their names. */
  function Register(units: map<string, Unit>, us: seq<Unit>): map<string, Unit>
    decreases |us|
  {
    if us == [] || us[0].name in units then units
    else Register(units[us[0].name := us[0]], us[1..])
  }

  /** The names of `us` are pairwise distinct and none is in `units`. */
  predicate Fresh(units: map<string, Unit>, us: seq<Unit>) {
    && (forall i :: 0 <= i < |us| ==> us[i].name !in units)
    && (forall i, j :: 0 <= i < j < |us| ==> us[i].name != us[j].name)
  }

  /** The transformation registry after addTransform towards `m`. */
  function WithTransform(ts: map<Measure, Transform>, m: Measure, t: Transform): map<Measure, Transform> {
    if m in ts then ts else ts[m := t]
  }

  /** addUnits accepts every unit exactly when their names are fresh. */
  lemma {:induction false} AcceptedAllIffFresh(units: map<string, Unit>, us: seq<Unit>)
    decreases |us|
    ensures Accepted(units, us) == |us| <==> Fresh(units, us)
  {
    if us != [] && us[0].name !in units {
      var m := units[us[0].name := us[0]];
      AcceptedAllIffFresh(m, us[1..]);
      if Fresh(units, us) {
        forall i, j | 0 <= i < j < |us[1..]| ensures us[1..][i].name != us[1..][j].name {
          assert us[1..][i] == us[i + 1] && us[1..][j] == us[j + 1];
        }
        forall i | 0 <= i < |us[1..]| ensures us[1..][i].name !in m {
          assert us[1..][i] == us[i + 1];
          assert us[0].name != us[i + 1].name;
        }
      }
      if Fresh(m, us[1..]) {
        forall i | 0 <= i < |us| ensures us[i].name !in units {
          if i > 0 { assert us[i] == us[1..][i - 1]; }
        }
        forall i, j | 0 <= i < j < |us| ensures us[i].name != us[j].name {
          assert us[j] == us[1..][j - 1];
          if i > 0 { assert us[i] == us[1..][i - 1]; }
        }
      }
    } else if us != [] {
      assert !Fresh(units, us) by { assert us[0].name in units; }
    }
  }

  /** addUnits stops at the first duplicate: the units before it have fresh
      names, and its name is already in the registry it is offered to. */
  lemma {:induction false} StopsAtFirstDuplicate(units: map<string, Unit>, us: seq<Unit>)
    decreases |us|
    requires Accepted(units, us) < |us|
    ensures Fresh(units, us[..Accepted(units, us)])
    ensures us[Accepted(units, us)].name in Register(units, us)
  {
    var k := Accepted(units, us);
    if us[0].name in units {
      assert k == 0;
    } else {
      var m := units[us[0].name := us[0]];
      StopsAtFirstDuplicate(m, us[1..]);
      assert us[1..][..k - 1] == us[1..k];
      assert us[..k][1..] == us[1..k];
      AcceptedAllIffFresh(m, us[1..k]);
      PrefixAccepted(m, us[1..], k - 1);
      AcceptedAllIffFresh(units, us[..k]);
      PrefixAccepted(units, us, k);
    }
  }

  /** A prefix no longer than the accepted count is accepted entirely. */
  lemma {:induction false} PrefixAccepted(units: map<string, Unit>, us: seq<Unit>, k: nat)
    decreases |us|
    requires k <= Accepted(units, us)
    ensures Accepted(units, us[..k]) == k
  {
    if k > 0 {
      var m := units[us[0].name := us[0]];
      assert us[..k][0] == us[0] && us[..k][1..] == us[1..][..k - 1];
      PrefixAccepted(m, us[1..], k - 1);
    }
  }

  /** Registration never removes or replaces a unit, and every unit it adds is
      one of the accepted ones, filed under its own name. */
  lemma {:induction false} RegisterExtends(units: map<string, Unit>, us: seq<Unit>)
    decreases |us|
    ensures forall n :: n in units ==> n in Register(units, us) && Register(units, us)[n] == units[n]
    ensures forall n :: n in Register(units, us) && n !in units ==>
              Register(units, us)[n] in us[..Accepted(units, us)] && Register(units, us)[n].name == n
  {
    if us != [] && us[0].name !in units {
      var m := units[us[0].name := us[0]];
      RegisterExtends(m, us[1..]);
      var k := Accepted(units, us);
      assert us[..k] == [us[0]] + us[1..][..k - 1];
    }
  }

  /** Cutting a list of units at `i`: the unit there heads the rest, and it
      ends the prefix one longer. */
  lemma SplitAt(us: seq<Unit>, i: nat)
    requires i < |us|
    ensures us[i..][0] == us[i] && us[i..][1..] == us[i + 1..]
    ensures us[..i + 1] == us[..i] + [us[i]]
  {
  }

  /** The names of a sequence of units. */
  function Names(us: seq<Unit>): set<string> {
    set u | u in us :: u.name
  }

  lemma NamesCons(us: seq<Unit>)
    requires us != []
    ensures Names(us) == {us[0].name} + Names(us[1..])
  {
    assert forall u :: u in us <==> u == us[0] || u in us[1..] by {
      assert us == [us[0]] + us[1..];
    }
  }

  /** A unit whose name is new both to the registry and to the rest of the
      sequence can be put in front of a fresh sequence. */
  lemma FreshCons(units: map<string, Unit>, u: Unit, us: seq<Unit>)
    requires u.name !in units && u.name !in Names(us) && Fresh(units, us)
    ensures Fresh(units, [u] + us)
    ensures Names([u] + us) == {u.name} + Names(us)
  {
    var vs := [u] + us;
    NamesCons(vs);
    assert vs[1..] == us;
    forall i, j | 0 <= i < j < |vs| ensures vs[i].name != vs[j].name {
      assert vs[j] == us[j - 1];
      if i > 0 { assert vs[i] == us[i - 1]; } else { assert us[j - 1] in us; }
    }
    forall i | 0 <= i < |vs| ensures vs[i].name !in units {
      if i > 0 { assert vs[i] == us[i - 1]; }
    }
  }

  /** Freshness of a sequence carries over to its tail, once its head is filed. */
  lemma FreshTail(units: map<string, Unit>, us: seq<Unit>)
    requires us != [] && Fresh(units, us)
    ensures Fresh(units[us[0].name := us[0]], us[1..])
  {
    var m := units[us[0].name := us[0]];
    forall i | 0 <= i < |us[1..]| ensures us[1..][i].name !in m {
      assert us[1..][i] == us[i + 1];
      assert us[0].name != us[i + 1].name;
    }
    forall i, j | 0 <= i < j < |us[1..]| ensures us[1..][i].name != us[1..][j].name {
      assert us[1..][i] == us[i + 1] && us[1..][j] == us[j + 1];
    }
  }

  /** With fresh names, addUnits files every unit under its name. */
  lemma {:induction false} RegisterFresh(units: map<string, Unit>, us: seq<Unit>)
    requires Fresh(units, us)
    ensures Register(units, us).Keys == units.Keys + Names(us)
    ensures forall i :: 0 <= i < |us| ==> Register(units, us)[us[i].name] == us[i]
    decreases |us|
  {
    if us != [] {
      var m := units[us[0].name := us[0]];
      FreshTail(units, us);
      RegisterFresh(m, us[1..]);
      RegisterExtends(m, us[1..]);
      NamesCons(us);
      forall i | 0 <= i < |us| ensures Register(units, us)[us[i].name] == us[i] {
        if i > 0 { assert us[i] == us[1..][i - 1]; }
      }
    }
  }

  /** Registration keeps every unit filed under its own name. */
  lemma {:induction false} RegisterKeepsNames(units: map<string, Unit>, us: seq<Unit>)
    decreases |us|
    requires NamedByKey(units)
    ensures NamedByKey(Register(units, us))
  {
    if us != [] && us[0].name !in units {
      RegisterKeepsNames(units[us[0].name := us[0]], us[1..]);
    }
  }

  /** The first registration wins: registering again towards the same measure
      changes nothing, and the other measures' entries are untouched. */
  lemma FirstTransformWins(ts: map<Measure, Transform>, m: Measure, f: Transform, g: Transform)
    ensures WithTransform(WithTransform(ts, m, f), m, g) == WithTransform(ts, m, f)
    ensures m in WithTransform(ts, m, f)
    ensures WithTransform(ts, m, f)[m] == if m in ts then ts[m] else f
    ensures forall n :: n != m ==> (n in WithTransform(ts, m, f) <==> n in ts)
  {
  }
}
