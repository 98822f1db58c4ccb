/**
 * `HPF_Gamma`: a block of independent variational Gamma distributions, one
 * shape and one rate per entry, and its random factory.
 */
module Gamma {
  import opened Py
  import opened NdArrays

  /**
   * What `HPF_Gamma.__init__` asserts of its arguments: equal shapes and
   * strictly positive entries.
   */
  predicate Admissible(shape: NdArray, rate: NdArray)
    requires WellFormed(shape) && WellFormed(rate)
  {
    Dims(shape) == Dims(rate) && AllPositive(shape) && AllPositive(rate)
  }

  class HpfGamma {
    var viShape: NdArray
    var viRate: NdArray
    var dims: Shape

    /** Shape and rate arrays agree with each other and with `dims`. */
    ghost predicate Valid()
      reads this
    {
      WellFormed(viShape) && WellFormed(viRate) && Dims(viShape) == dims && Dims(viRate) == dims
    }

    /** Every shape and every rate is strictly positive. */
    predicate Positive()
      reads this
      requires Valid()
    {
      AllPositive(viShape) && AllPositive(viRate)
    }

    /** Only arguments that pass the assertions of `__init__` construct a distribution. */
    constructor (shape: NdArray, rate: NdArray)
      requires WellFormed(shape) && WellFormed(rate) && Admissible(shape, rate)
      ensures viShape == shape && viRate == rate && dims == Dims(shape)
      ensures Valid() && Positive()
    {
      viShape := shape;
      viRate := rate;
      dims := Dims(shape);
    }

    /** `e_x`: the mean shape / rate of every Gamma in the block. */
    function EX(): (r: NdArray)
      reads this
      requires Valid() && NoZero(viRate)
      ensures WellFormed(r) && Dims(r) == dims
      ensures IsQuotient(r, viShape, viRate)
      ensures Positive() ==> AllPositive(r)
    {
      if Positive() then QuotientPositive(viShape, viRate); Quotient(viShape, viRate)
      else Quotient(viShape, viRate)
    }
  }

  /** The distribution was drawn by the factory for `dims` and the two priors. */
  ghost predicate Drawn(g: HpfGamma, dims: Shape, shapePrior: real, ratePrior: real)
    reads g
  {
    g.Valid() && g.Positive() && g.dims == dims &&
    Within(g.viShape, 0.5 * shapePrior, 1.5 * shapePrior) &&
    Within(g.viRate, 0.5 * ratePrior, 1.5 * ratePrior)
  }

  /** `HPF_Gamma(vi_shape, vi_rate)`, raising AssertionError when the assertions fail. */
  method NewGamma(shape: NdArray, rate: NdArray) returns (r: Result<HpfGamma>)
    requires WellFormed(shape) && WellFormed(rate)
    ensures r.Ok? <==> Admissible(shape, rate)
    ensures r.Err? ==> r.error == AssertionError
    ensures r.Ok? ==> fresh(r.value) && r.value.Valid() && r.value.Positive()
    ensures r.Ok? ==> r.value.viShape == shape && r.value.viRate == rate && r.value.dims == Dims(shape)
  {
    if Dims(shape) != Dims(rate) || !AllPositive(shape) || !AllPositive(rate) {
      return Err(AssertionError);
    }
    var g := new HpfGamma(shape, rate);
    r := Ok(g);
  }

  /**
   * `HPF_Gamma.random_gamma_factory`: every shape drawn uniformly from
   * [0.5 shapePrior, 1.5 shapePrior) and every rate from
   * [0.5 ratePrior, 1.5 ratePrior). The draw is a nondeterministic choice;
   * the construction succeeds exactly when there is nothing to draw or both
   * priors are positive.
   */
  method RandomGammaFactory(dims: Shape, shapePrior: real, ratePrior: real) returns (r: Result<HpfGamma>)
    ensures r.Ok? <==> HasZero(dims) || (shapePrior > 0.0 && ratePrior > 0.0)
    ensures r.Err? ==> r.error == AssertionError
    ensures r.Ok? ==> fresh(r.value) && Drawn(r.value, dims, shapePrior, ratePrior)
  {
    ghost var zero := Full(dims, 0.0);
    assert WellFormed(zero) && Dims(zero) == dims && Within(zero, 0.0, 1.0);
    var u1: NdArray :| WellFormed(u1) && Dims(u1) == dims && Within(u1, 0.0, 1.0);
    var u2: NdArray :| WellFormed(u2) && Dims(u2) == dims && Within(u2, 0.0, 1.0);
    var shape := UniformAround(u1, shapePrior);
    var rate := UniformAround(u2, ratePrior);
    UniformAroundBounds(u1, shapePrior);
    UniformAroundBounds(u2, ratePrior);
    r := NewGamma(shape, rate);
  }
}
