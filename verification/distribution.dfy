/**
 * The particle-effect value generators of `fx/modules/distribution.h`, for an
 * integral value type (modelled as `int`). `ConstDistribution` is a plain value;
 * `RangeDistribution` is an object whose bounds, sampler and random engine
 * change in place.
 */
module Distributions {

  datatype DistributionType = Const | Range | Curve

  /** A distribution that always yields the value it was built with. */
  datatype ConstDistribution = ConstDistribution(value: int)
  {
    /** The type tag fixed by the constructor. */
    function GetType(): DistributionType
    {
      Const
    }

    /** Both `get()` and `get() const`: the stored value, whatever the call history. */
    function Get(): int
    {
      value
    }

    /** `clone`: a copy with the same value and the same tag. */
    function Clone(): (c: ConstDistribution)
      ensures c.Get() == Get() && c.GetType() == Const
    {
      ConstDistribution(value)
    }
  }

  /** A constant distribution yields its value on every call, in both overloads,
      is tagged `Const`, and so is each of its clones. */
  lemma ConstDistributionYieldsItsValue(v: int)
    ensures ConstDistribution(v).Get() == v && ConstDistribution(v).GetType() == Const
    ensures ConstDistribution(v).Clone() == ConstDistribution(v)
  {
  }

  /**
   * The random engine as an oracle: `words` is the sequence of raw values it
   * produces and `drawn` the number of them consumed so far. The engine's own
   * algorithm and seed are not part of this model.
   */
  datatype Engine = Engine(words: nat -> nat, drawn: nat)
  {
    function Peek(): nat
    {
      words(drawn)
    }

    function Advance(): Engine
    {
      Engine(words, drawn + 1)
    }
  }

  /** The integral `uniform_distribution`: a sampler parameterised by `[a, b]`. */
  datatype UniformInt = UniformInt(a: int, b: int)
  {
    /** `set(min, max)`: re-parameterise with new bounds. */
    function Set(min: int, max: int): (u: UniformInt)
      ensures u.a == min && u.b == max
    {
      UniformInt(min, max)
    }

    /** The value drawn from one raw engine word. Drawing requires `a <= b`, as the
        standard library's uniform integer distribution does. */
    function Sample(word: nat): (v: int)
      requires a <= b
      ensures a <= v <= b
      ensures a == b ==> v == a
    {
      a + word % (b - a + 1)
    }
  }

  /** The values of `n` successive draws from `u` with engine `g`. */
  function Draws(u: UniformInt, g: Engine, n: nat): seq<int>
    requires u.a <= u.b
    decreases n
  {
    if n == 0 then [] else [u.Sample(g.Peek())] + Draws(u, g.Advance(), n - 1)
  }

  /** Every one of any number of draws lies in `[a, b]`. */
  lemma {:induction false} DrawsWithinBounds(u: UniformInt, g: Engine, n: nat)
    requires u.a <= u.b
    ensures |Draws(u, g, n)| == n
    ensures forall i :: 0 <= i < n ==> u.a <= Draws(u, g, n)[i] <= u.b
    decreases n
  {
    if n > 0 {
      DrawsWithinBounds(u, g.Advance(), n - 1);
      var rest := Draws(u, g.Advance(), n - 1);
      assert Draws(u, g, n) == [u.Sample(g.Peek())] + rest;
      forall i | 0 <= i < n
        ensures u.a <= Draws(u, g, n)[i] <= u.b
      {
        if i > 0 { assert Draws(u, g, n)[i] == rest[i - 1]; }
      }
    }
  }

  /** A degenerate range `[m, m]` yields `m` on every draw. */
  lemma DegenerateRangeIsConstant(u: UniformInt, g: Engine, n: nat)
    requires u.a == u.b
    ensures |Draws(u, g, n)| == n
    ensures forall i :: 0 <= i < n ==> Draws(u, g, n)[i] == u.a
  {
    DrawsWithinBounds(u, g, n);
  }

  /**
   * `RangeDistribution<T>`: the bounds `min` and `max`, the sampler built from them
   * and the engine it draws with. `Synced()` holds while the sampler's bounds are
   * the stored ones.
   */
  class RangeDistribution
  {
    /** The type tag; every range distribution carries `Range`. */
    const kind: DistributionType := Range
    var min: int
    var max: int
    var generator: Engine
    var distribution: UniformInt

    ghost predicate Synced()
      reads this
    {
      distribution == UniformInt(min, max)
    }

    /** The C++ constructor default-constructs its engine, so every new distribution
        starts from the same engine state; here the starting engine is the given
        oracle, and no property depends on which one it is. */
    constructor (lo: int, hi: int, engine: Engine)
      ensures min == lo && max == hi && Synced()
      ensures generator == engine
    {
      min := lo;
      max := hi;
      generator := engine;
      distribution := UniformInt(lo, hi);
    }

    /** The copy constructor that `clone` uses: every field, the engine state included. */
    constructor Copy(other: RangeDistribution)
      ensures min == other.min && max == other.max
      ensures distribution == other.distribution && generator == other.generator
    {
      min := other.min;
      max := other.max;
      generator := other.generator;
      distribution := other.distribution;
    }

    /** `setMin`: stores the bound and re-parameterises the sampler with `(m, max)`. */
    method SetMin(m: int)
      modifies this`min, this`distribution
      ensures min == m && max == old(max) && generator == old(generator)
      ensures distribution == UniformInt(m, old(max)) && Synced()
    {
      min := m;
      distribution := distribution.Set(min, max);
    }

    /** `setMax`: stores the bound and re-parameterises the sampler with `(min, m)`. */
    method SetMax(m: int)
      modifies this`max, this`distribution
      ensures max == m && min == old(min) && generator == old(generator)
      ensures distribution == UniformInt(old(min), m) && Synced()
    {
      max := m;
      distribution := distribution.Set(min, max);
    }

    /** An assignment through the reference the non-const `getMin()` returns: the
        bound changes but the sampler does not, so they disagree unless the value
        was already the bound. */
    method AssignMin(m: int)
      modifies this`min
      ensures min == m && distribution == old(distribution)
      ensures old(Synced()) ==> (Synced() <==> m == old(min))
    {
      min := m;
    }

    /** An assignment through the reference the non-const `getMax()` returns. */
    method AssignMax(m: int)
      modifies this`max
      ensures max == m && distribution == old(distribution)
      ensures old(Synced()) ==> (Synced() <==> m == old(max))
    {
      max := m;
    }

    /** The non-const `get()`: draws from the sampler and advances the engine. */
    method Get() returns (v: int)
      requires distribution.a <= distribution.b
      modifies this`generator
      ensures v == old(distribution.Sample(generator.Peek()))
      ensures generator == old(generator).Advance()
      ensures Synced() ==> min <= v <= max
    {
      v := distribution.Sample(generator.Peek());
      generator := generator.Advance();
    }

    /** `get() const`: returns `min` without drawing; the engine is left alone. */
    method GetConst() returns (v: int)
      ensures v == min
    {
      v := min;
    }

    /** `clone`: a new object with the same bounds, sampler and engine state. */
    method Clone() returns (c: RangeDistribution)
      ensures fresh(c)
      ensures c.kind == kind
      ensures c.min == min && c.max == max
      ensures c.distribution == distribution && c.generator == generator
    {
      c := new RangeDistribution.Copy(this);
    }
  }

  /** A clone is independent: re-bounding it leaves the original as it was. */
  method CloneThenSetMin(d: RangeDistribution, m: int) returns (c: RangeDistribution)
    ensures fresh(c) && c.min == m && c.max == d.max && c.Synced()
    ensures d.min == old(d.min) && d.max == old(d.max)
    ensures d.distribution == old(d.distribution) && d.generator == old(d.generator)
  {
    c := d.Clone();
    c.SetMin(m);
  }

  /** A clone carries the engine's state, so its next draw is the one the original
      makes next. */
  method CloneRepeatsNextDraw(d: RangeDistribution) returns (fromOriginal: int, fromClone: int)
    requires d.distribution.a <= d.distribution.b
    modifies d
    ensures fromOriginal == fromClone
  {
    var c := d.Clone();
    fromOriginal := d.Get();
    fromClone := c.Get();
  }
}
