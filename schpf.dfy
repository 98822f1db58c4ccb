/**
 * The `scHPF` estimator: its hyperparameters, its variational
 * distributions xi, theta (cells) and eta, beta (genes), its loss history,
 * and the routines that set it up and train it.
 *
 * The coordinate-ascent updates inside the training loop are calls into a
 * compiled module not modelled here; in this model the loop only records
 * losses (from the oracle `lossAt`) and decides when to stop.
 */
module Model {
  import opened Py
  import opened NdArrays
  import opened Gamma
  import opened Convergence
  import opened Setup

  /** What `_setup` and `_fit` return: b', d', xi, eta, theta, beta. */
  datatype Params = Params(bp: real, dp: real, xi: HpfGamma, eta: HpfGamma, theta: HpfGamma, beta: HpfGamma)

  /** What `project` returns: b', xi, theta. */
  datatype Projection = Projection(bp: real, xi: HpfGamma, theta: HpfGamma)

  /**
   * A capacity block of shape (n,) and the loading block of shape (n, K)
   * it belongs to; the loadings are positive so that their means exist.
   */
  ghost predicate Paired(capacity: HpfGamma, loading: HpfGamma, nfactors: nat)
    reads capacity, loading
  {
    capacity.Valid() && loading.Valid() && capacity.dims.Shape1? &&
    loading.dims == Shape2(capacity.dims.n, nfactors) && loading.Positive()
  }

  ghost predicate ParamsValid(p: Params, nfactors: nat)
    reads p.xi, p.eta, p.theta, p.beta
  {
    Paired(p.xi, p.theta, nfactors) && Paired(p.eta, p.beta, nfactors) &&
    p.xi != p.eta && p.theta != p.beta
  }

  /** The prior update of a capacity block: a constant shape and rate0 plus the row sums of the loading means. */
  ghost predicate PriorUpdated(capacity: HpfGamma, loading: HpfGamma, shape: real, rate0: real, nfactors: nat)
    reads capacity, loading
  {
    Paired(capacity, loading, nfactors) &&
    Constant(capacity.viShape, shape) &&
    capacity.viRate == AddScalar(rate0, RowSums(loading.EX()))
  }

  lemma PriorRatesPositive(capacity: HpfGamma, loading: HpfGamma, rate0: real, nfactors: nat)
    requires Paired(capacity, loading, nfactors) && rate0 > 0.0
    ensures loading.Valid() && NoZero(loading.viRate)
    ensures AllPositive(AddScalar(rate0, RowSums(loading.EX())))
  {
    PositiveNoZero(loading.viRate);
    var m := loading.EX();
    forall i | 0 <= i < |m.rows| ensures Sum(m.rows[i]) >= 0.0 {
      SumPositive(m.rows[i]);
    }
  }

  /**
   * One block of the prior update before the loop: every shape set to
   * `shape` in place, the rates replaced by rate0 plus the row sums of the
   * loading means.
   */
  method UpdateCapacity(capacity: HpfGamma, loading: HpfGamma, shape: real, rate0: real, ghost nfactors: nat)
    requires Paired(capacity, loading, nfactors)
    modifies capacity
    ensures PriorUpdated(capacity, loading, shape, rate0, nfactors)
    ensures capacity.dims == old(capacity.dims)
    ensures rate0 > 0.0 ==> AllPositive(capacity.viRate)
  {
    PriorRatesPositive(capacity, loading, 1.0, nfactors);
    var newShape := FillLike(capacity.viShape, shape);
    var newRate := AddScalar(rate0, RowSums(loading.EX()));
    if rate0 > 0.0 {
      PriorRatesPositive(capacity, loading, rate0, nfactors);
    }
    capacity.viShape, capacity.viRate := newShape, newRate;
  }

  /**
   * `_score(capacity, loading)`: `loading.e_x * capacity.e_x[:, None]`,
   * the loading means of every row scaled by the row's capacity mean.
   */
  function Score(capacity: HpfGamma, loading: HpfGamma): (r: NdArray)
    reads capacity, loading
    requires capacity.Valid() && loading.Valid() && capacity.dims.Shape1? && loading.dims.Shape2?
    requires loading.dims.n == capacity.dims.n
    requires NoZero(capacity.viRate) && NoZero(loading.viRate)
    ensures r.Mat? && WellFormed(r) && Dims(r) == loading.dims
    ensures capacity.Positive() && loading.Positive() ==> AllPositive(r)
  {
    var l, c := loading.EX(), capacity.EX();
    if capacity.Positive() && loading.Positive() then
      ScaleRowsPositive(l, c);
      ScaleRows(l, c)
    else
      ScaleRows(l, c)
  }

  /**
   * Every score is the product of the two means: score * (loading rate *
   * capacity rate) == loading shape * capacity shape.
   */
  lemma ScoreIsProductOfMeans(capacity: HpfGamma, loading: HpfGamma)
    requires capacity.Valid() && loading.Valid() && capacity.dims.Shape1? && loading.dims.Shape2?
    requires loading.dims.n == capacity.dims.n
    requires NoZero(capacity.viRate) && NoZero(loading.viRate)
    ensures var r := Score(capacity, loading);
      forall i, k :: 0 <= i < |r.rows| && 0 <= k < r.cols ==>
        r.rows[i][k] * (loading.viRate.rows[i][k] * capacity.viRate.v[i]) ==
        loading.viShape.rows[i][k] * capacity.viShape.v[i]
  {
    var r, l, c := Score(capacity, loading), loading.EX(), capacity.EX();
    forall i, k | 0 <= i < |r.rows| && 0 <= k < r.cols
      ensures r.rows[i][k] * (loading.viRate.rows[i][k] * capacity.viRate.v[i]) ==
              loading.viShape.rows[i][k] * capacity.viShape.v[i]
    {
      ProductOfQuotients(l.rows[i][k], loading.viRate.rows[i][k], loading.viShape.rows[i][k],
                         c.v[i], capacity.viRate.v[i], capacity.viShape.v[i]);
    }
  }

  lemma ProductOfQuotients(q1: real, d1: real, s1: real, q2: real, d2: real, s2: real)
    requires q1 * d1 == s1 && q2 * d2 == s2
    ensures (q1 * q2) * (d1 * d2) == s1 * s2
  {
    calc {
      (q1 * q2) * (d1 * d2);
      (q1 * d1) * (q2 * d2);
    }
  }

  /**
   * One distribution of `_setup`: drawn by the factory when reinitialising
   * or when the model has none, otherwise the model's own object.
   */
  method Obtain(reinit: bool, current: HpfGamma?, dims: Shape, shapePrior: real, ratePrior: real)
    returns (r: Result<HpfGamma>)
    ensures r.Ok? <==> !Redraw(reinit, current != null) || FactoryOk(dims, shapePrior, ratePrior)
    ensures r.Err? ==> r.error == AssertionError
    ensures r.Ok? && Redraw(reinit, current != null) ==> fresh(r.value) && Drawn(r.value, dims, shapePrior, ratePrior)
    ensures r.Ok? && !Redraw(reinit, current != null) ==> r.value == current
  {
    if reinit || current == null {
      r := RandomGammaFactory(dims, shapePrior, ratePrior);
    } else {
      r := Ok(current);
    }
  }

  class ScHpf {
    const nfactors: nat
    const a: real
    const ap: real
    const c: real
    const cp: real
    const minIter: int
    const maxIter: int
    const checkFreq: int
    const epsilon: real
    const betterThanNAgo: int
    var bp: Option<real>
    var dp: Option<real>
    var xi: HpfGamma?
    var eta: HpfGamma?
    var theta: HpfGamma?
    var beta: HpfGamma?
    var loss: seq<real>

    /** Either no distributions yet, or all four, paired cells with cells and genes with genes. */
    ghost predicate Valid()
      reads this`xi, this`eta, this`theta, this`beta, xi, eta, theta, beta
    {
      (xi == null && eta == null && theta == null && beta == null) ||
      (xi != null && eta != null && theta != null && beta != null &&
       ParamsValid(Params(0.0, 0.0, xi, eta, theta, beta), nfactors))
    }

    /**
     * `scHPF(...)` with scHPF's defaults. The distributions start
     * unset and the loss history empty, whatever is passed for them.
     */
    constructor (nfactors: nat, a: real := 0.3, ap: real := 1.0, bp: Option<real> := None,
                 c: real := 0.3, cp: real := 1.0, dp: Option<real> := None,
                 minIter: int := 30, maxIter: int := 1000, checkFreq: int := 10,
                 epsilon: real := 0.001, betterThanNAgo: int := 5)
      ensures this.nfactors == nfactors && this.a == a && this.ap == ap && this.c == c && this.cp == cp
      ensures this.bp == bp && this.dp == dp
      ensures this.minIter == minIter && this.maxIter == maxIter && this.checkFreq == checkFreq
      ensures this.epsilon == epsilon && this.betterThanNAgo == betterThanNAgo
      ensures xi == null && eta == null && theta == null && beta == null && loss == []
      ensures Valid()
    {
      this.nfactors, this.a, this.ap, this.c, this.cp := nfactors, a, ap, c, cp;
      this.bp, this.dp := bp, dp;
      this.minIter, this.maxIter, this.checkFreq := minIter, maxIter, checkFreq;
      this.epsilon, this.betterThanNAgo := epsilon, betterThanNAgo;
      xi, eta, theta, beta := null, null, null, null;
      loss := [];
    }

    function PriorSet(): Priors {
      Priors(nfactors, a, ap, c, cp)
    }

    function Present(): Existing
      reads this`xi, this`eta, this`theta, this`beta
    {
      Existing(xi != null, theta != null, eta != null, beta != null)
    }

    /** o is none of the distribution objects the model holds. */
    ghost predicate Foreign(o: object)
      reads this`xi, this`eta, this`theta, this`beta
    {
      o != xi && o != eta && o != theta && o != beta
    }

    /**
     * How a setup's distributions relate to the model's: they are the
     * model's own four, or the ones the prior updates write (xi, and eta
     * unless the genes are frozen) are objects the model does not hold.
     */
    ghost predicate Aliasing(p: Params, freezeGenes: bool)
      reads this`xi, this`eta, this`theta, this`beta
    {
      (p.xi == xi && p.eta == eta && p.theta == theta && p.beta == beta) ||
      (Foreign(p.xi) && (freezeGenes || Foreign(p.eta)))
    }

    /** The stopping parameters of a run: min_iter is the argument if given, else the model's. */
    function RunConfig(minIterArg: Option<int>): (r: Config)
      ensures r.minIter == (if minIterArg.Some? then minIterArg.value else minIter)
      ensures r.maxIter == maxIter && r.checkFreq == checkFreq && r.epsilon == epsilon
      ensures r.betterThanNAgo == betterThanNAgo
    {
      Config(maxIter, minIterArg.GetOr(minIter), checkFreq, epsilon, betterThanNAgo)
    }

    /**
     * `_setup`: resolves b' and d' and returns the distributions to train
     * with, drawing each one afresh when reinitialising or when it is
     * missing, and keeping eta and beta as they are under frozen genes.
     * The model itself is not changed.
     */
    method Setup(data: Data, freezeGenes: bool, reinit: bool, clip: bool := true) returns (res: Result<Params>)
      requires Valid()
      ensures var fail := SetupFailure(PriorSet(), data, bp, dp, Present(), freezeGenes, reinit, clip);
        (res.Err? <==> fail.Some?) && (res.Err? ==> res.error == fail.value)
      ensures res.Ok? ==> ResolveHyper(bp, dp, PriorSet(), data, freezeGenes, clip) == Ok(Hyper(res.value.bp, res.value.dp))
      ensures res.Ok? ==> ParamsValid(res.value, nfactors) && Aliasing(res.value, freezeGenes)
      ensures res.Ok? ==>
        if Redraw(reinit, xi != null) then fresh(res.value.xi) && Drawn(res.value.xi, Shape1(data.ncells), ap, res.value.bp)
        else res.value.xi == xi
      ensures res.Ok? ==>
        if Redraw(reinit, theta != null) then
          fresh(res.value.theta) && Drawn(res.value.theta, Shape2(data.ncells, nfactors), a, res.value.bp)
        else res.value.theta == theta
      ensures res.Ok? && freezeGenes ==> res.value.eta == eta && res.value.beta == beta
      ensures res.Ok? && !freezeGenes ==>
        if Redraw(reinit, eta != null) then fresh(res.value.eta) && Drawn(res.value.eta, Shape1(data.ngenes), cp, res.value.dp)
        else res.value.eta == eta
      ensures res.Ok? && !freezeGenes ==>
        if Redraw(reinit, beta != null) then
          fresh(res.value.beta) && Drawn(res.value.beta, Shape2(data.ngenes, nfactors), c, res.value.dp)
        else res.value.beta == beta
    {
      var hyper := ResolveHyper(bp, dp, PriorSet(), data, freezeGenes, clip);
      if hyper.Err? {
        return Err(hyper.error);
      }
      var bp', dp' := hyper.value.bp, hyper.value.dp;

      var xi' := Obtain(reinit, xi, Shape1(data.ncells), ap, bp');
      if xi'.Err? {
        return Err(xi'.error);
      }
      var theta' := Obtain(reinit, theta, Shape2(data.ncells, nfactors), a, bp');
      if theta'.Err? {
        return Err(theta'.error);
      }
      var eta': Result<HpfGamma>, beta': Result<HpfGamma>;
      if freezeGenes {
        if eta == null || beta == null {
          return Err(ValueError(GeneDistributionsMissing));
        }
        var e: HpfGamma, b: HpfGamma := eta, beta;
        eta', beta' := Ok(e), Ok(b);
      } else {
        eta' := Obtain(reinit, eta, Shape1(data.ngenes), cp, dp');
        if eta'.Err? {
          return Err(eta'.error);
        }
        beta' := Obtain(reinit, beta, Shape2(data.ngenes, nfactors), c, dp');
        if beta'.Err? {
          return Err(beta'.error);
        }
      }
      res := Ok(Params(bp', dp', xi'.value, eta'.value, theta'.value, beta'.value));
    }

    /**
     * The updates before the loop: every xi shape becomes a' + K a and the
     * xi rates b' plus the row sums of theta's means; unless the genes are
     * frozen, likewise eta from c' + K c, d' and beta. These write into the
     * distribution objects, which may be the model's own.
     */
    method UpdatePriors(p: Params, freezeGenes: bool)
      requires Valid() && ParamsValid(p, nfactors) && Aliasing(p, freezeGenes)
      modifies if freezeGenes then {p.xi} else {p.xi, p.eta}
      ensures Valid() && unchanged(this)
      ensures ParamsValid(p, nfactors)
      ensures PriorUpdated(p.xi, p.theta, ap + nfactors as real * a, p.bp, nfactors)
      ensures p.xi.dims == old(p.xi.dims)
      ensures !freezeGenes ==> PriorUpdated(p.eta, p.beta, cp + nfactors as real * c, p.dp, nfactors)
      ensures !freezeGenes ==> p.eta.dims == old(p.eta.dims)
      ensures freezeGenes ==> unchanged(p.eta)
      ensures p.bp > 0.0 ==> AllPositive(p.xi.viRate)
      ensures !freezeGenes && p.dp > 0.0 ==> AllPositive(p.eta.viRate)
    {
      UpdateCapacity(p.xi, p.theta, ap + nfactors as real * a, p.bp, nfactors);
      if !freezeGenes {
        UpdateCapacity(p.eta, p.beta, cp + nfactors as real * c, p.dp, nfactors);
      }
      assert Valid() by {
        if xi != null && !(p.xi == xi && p.eta == eta && p.theta == theta && p.beta == beta) {
          assert unchanged(xi, eta, theta, beta);
        }
      }
    }

    /**
     * The loop of `_fit` over t < max_iter, reduced to what decides its
     * course: at every check iteration the oracle's loss is appended to the
     * model's history, the percent change to this run's list, and the two
     * stopping tests are applied, convergence first.
     */
    method Monitor(minIterArg: Option<int>, lossAt: int -> real) returns (outcome: Outcome)
      requires Valid()
      modifies this`loss
      ensures Valid()
      ensures outcome == Run(RunConfig(minIterArg), lossAt, 0, old(loss), []).outcome
      ensures loss == Run(RunConfig(minIterArg), lossAt, 0, old(loss), []).loss
    {
      var cfg := RunConfig(minIterArg);
      ghost var goal := Run(cfg, lossAt, 0, loss, []);
      var pct: seq<Pct> := [];
      var t := 0;
      while t < maxIter
        invariant 0 <= t
        invariant Run(cfg, lossAt, t, loss, pct) == goal
        decreases maxIter - t
      {
        if checkFreq == 0 {
          return Raised(ZeroDivisionError);
        }
        if t % checkFreq == 0 {
          var curr := lossAt(t);
          loss := loss + [curr];
          if |loss| >= 2 {
            pct := pct + [PctBetween(loss[|loss| - 2], curr)];
          } else {
            pct := pct + [Pct(100.0)];
          }
          if |loss| > 3 && t >= cfg.minIter {
            if |pct| < 2 {
              return Raised(IndexError);
            }
            if ConvergedTest(loss, pct, epsilon) {
              return Converged;
            }
            if |loss| > betterThanNAgo && betterThanNAgo != 0 {
              var nprev := NAgo(loss, betterThanNAgo);
              if nprev.None? {
                return Raised(IndexError);
              }
              if WorseTest(loss, nprev.value) {
                return GettingWorse;
              }
            }
          }
        }
        t := t + 1;
      }
      return Exhausted;
    }

    /**
     * The part of `_fit` before the loop: the setup, then the prior
     * updates, which write into the model's own xi and eta when these are
     * kept.
     */
    method Prepare(data: Data, freezeGenes: bool, reinit: bool) returns (res: Result<Params>)
      requires Valid()
      modifies if reinit then {} else if freezeGenes then {xi} else {xi, eta}
      ensures Valid()
      ensures var fail := SetupFailure(PriorSet(), data, bp, dp, Present(), freezeGenes, reinit, true);
        (res.Err? <==> fail.Some?) && (res.Err? ==> res.error == fail.value)
      ensures res.Err? ==> (xi != null ==> unchanged(xi)) && (eta != null ==> unchanged(eta))
      ensures res.Ok? ==> ResolveHyper(bp, dp, PriorSet(), data, freezeGenes, true) == Ok(Hyper(res.value.bp, res.value.dp))
      ensures res.Ok? ==> ParamsValid(res.value, nfactors)
      ensures res.Ok? ==> PriorUpdated(res.value.xi, res.value.theta, ap + nfactors as real * a, res.value.bp, nfactors)
      ensures res.Ok? && !freezeGenes ==>
        PriorUpdated(res.value.eta, res.value.beta, cp + nfactors as real * c, res.value.dp, nfactors)
      ensures res.Ok? && freezeGenes ==> res.value.eta == eta && res.value.beta == beta
      ensures res.Ok? ==> (if Redraw(reinit, xi != null) then fresh(res.value.xi) else res.value.xi == xi)
      ensures res.Ok? ==> (if Redraw(reinit, theta != null) then fresh(res.value.theta) else res.value.theta == theta)
      ensures res.Ok? && !freezeGenes ==>
        (if Redraw(reinit, eta != null) then fresh(res.value.eta) else res.value.eta == eta) &&
        (if Redraw(reinit, beta != null) then fresh(res.value.beta) else res.value.beta == beta)
    {
      res := Setup(data, freezeGenes, reinit);
      if res.Err? {
        return;
      }
      UpdatePriors(res.value, freezeGenes);
    }

    /**
     * `_fit`: setup, the prior updates, then the loop. Errors from the
     * setup leave everything as it was; an error from the loop comes after
     * the prior updates and after the losses recorded so far.
     */
    method FitCore(data: Data, freezeGenes: bool, reinit: bool, minIterArg: Option<int>, lossAt: int -> real)
      returns (res: Result<Params>)
      requires Valid()
      modifies this`loss, if reinit then {} else if freezeGenes then {xi} else {xi, eta}
      ensures Valid()
      ensures var fail := SetupFailure(PriorSet(), data, bp, dp, Present(), freezeGenes, reinit, true);
        fail.Some? ==> res == Err(fail.value) && loss == old(loss) &&
                       (xi != null ==> unchanged(xi)) && (eta != null ==> unchanged(eta))
      ensures var fail := SetupFailure(PriorSet(), data, bp, dp, Present(), freezeGenes, reinit, true);
        var run := Run(RunConfig(minIterArg), lossAt, 0, old(loss), []);
        fail.None? ==> loss == run.loss && (res.Err? <==> run.outcome.Raised?) &&
                       (res.Err? ==> res.error == run.outcome.error)
      ensures res.Ok? ==> ResolveHyper(bp, dp, PriorSet(), data, freezeGenes, true) == Ok(Hyper(res.value.bp, res.value.dp))
      ensures res.Ok? ==> ParamsValid(res.value, nfactors)
      ensures res.Ok? ==> PriorUpdated(res.value.xi, res.value.theta, ap + nfactors as real * a, res.value.bp, nfactors)
      ensures res.Ok? && !freezeGenes ==>
        PriorUpdated(res.value.eta, res.value.beta, cp + nfactors as real * c, res.value.dp, nfactors)
      ensures res.Ok? && freezeGenes ==> res.value.eta == eta && res.value.beta == beta
      ensures res.Ok? ==> (if Redraw(reinit, xi != null) then fresh(res.value.xi) else res.value.xi == xi)
      ensures res.Ok? ==> (if Redraw(reinit, theta != null) then fresh(res.value.theta) else res.value.theta == theta)
      ensures res.Ok? && !freezeGenes ==>
        (if Redraw(reinit, eta != null) then fresh(res.value.eta) else res.value.eta == eta) &&
        (if Redraw(reinit, beta != null) then fresh(res.value.beta) else res.value.beta == beta)
      ensures SetupFailure(PriorSet(), data, bp, dp, Present(), freezeGenes, reinit, true).None? && !reinit && xi != null ==>
        PriorUpdated(xi, theta, ap + nfactors as real * a, ResolveHyper(bp, dp, PriorSet(), data, freezeGenes, true).value.bp, nfactors)
      ensures SetupFailure(PriorSet(), data, bp, dp, Present(), freezeGenes, reinit, true).None? && !reinit && !freezeGenes && eta != null ==>
        PriorUpdated(eta, beta, cp + nfactors as real * c, ResolveHyper(bp, dp, PriorSet(), data, freezeGenes, true).value.dp, nfactors)
    {
      var prepared := Prepare(data, freezeGenes, reinit);
      if prepared.Err? {
        return prepared;
      }
      var outcome := Monitor(minIterArg, lossAt);
      if outcome.Raised? {
        return Err(outcome.error);
      }
      res := prepared;
    }

    /**
     * `fit`: trains and, on success, stores b', d' and the four
     * distributions in the model.
     */
    method Fit(data: Data, lossAt: int -> real, freezeGenes: bool := false, reinit: bool := true,
               minIterArg: Option<int> := None) returns (res: Result<Params>)
      requires Valid()
      modifies this
      modifies if reinit then {} else if freezeGenes then {xi} else {xi, eta}
      ensures Valid()
      ensures res.Ok? ==> bp == Some(res.value.bp) && dp == Some(res.value.dp)
      ensures res.Ok? ==> xi == res.value.xi && eta == res.value.eta && theta == res.value.theta && beta == res.value.beta
      ensures res.Ok? ==> ResolveHyper(old(bp), old(dp), PriorSet(), data, freezeGenes, true) == Ok(Hyper(res.value.bp, res.value.dp))
      ensures res.Ok? ==> PriorUpdated(xi, theta, ap + nfactors as real * a, res.value.bp, nfactors)
      ensures res.Ok? && !freezeGenes ==> PriorUpdated(eta, beta, cp + nfactors as real * c, res.value.dp, nfactors)
      ensures res.Ok? && freezeGenes ==> eta == old(eta) && beta == old(beta)
      ensures res.Err? ==> bp == old(bp) && dp == old(dp) && xi == old(xi) && eta == old(eta) &&
                           theta == old(theta) && beta == old(beta)
      ensures var fail := SetupFailure(PriorSet(), data, old(bp), old(dp), old(Present()), freezeGenes, reinit, true);
        var run := Run(RunConfig(minIterArg), lossAt, 0, old(loss), []);
        && (fail.Some? ==> res == Err(fail.value) && loss == old(loss) &&
                           (old(xi) != null ==> unchanged(old(xi))) && (old(eta) != null ==> unchanged(old(eta))))
        && (fail.None? ==> loss == run.loss && (res.Err? <==> run.outcome.Raised?) &&
                           (res.Err? ==> res.error == run.outcome.error))
      ensures res.Err? && SetupFailure(PriorSet(), data, old(bp), old(dp), old(Present()), freezeGenes, reinit, true).None? &&
              !reinit && old(xi) != null ==>
        PriorUpdated(old(xi), old(theta), ap + nfactors as real * a,
                     ResolveHyper(old(bp), old(dp), PriorSet(), data, freezeGenes, true).value.bp, nfactors)
      ensures res.Err? && SetupFailure(PriorSet(), data, old(bp), old(dp), old(Present()), freezeGenes, reinit, true).None? &&
              !reinit && !freezeGenes && old(eta) != null ==>
        PriorUpdated(old(eta), old(beta), cp + nfactors as real * c,
                     ResolveHyper(old(bp), old(dp), PriorSet(), data, freezeGenes, true).value.dp, nfactors)
    {
      res := FitCore(data, freezeGenes, reinit, minIterArg, lossAt);
      if res.Ok? {
        Store(res.value);
      }
    }

    /**
     * `project`: a run with the genes frozen and fresh cell distributions,
     * returning b', xi and theta. The model's distributions and
     * hyperparameters stay as they are; its loss history grows.
     */
    method Project(data: Data, lossAt: int -> real) returns (res: Result<Projection>)
      requires Valid()
      modifies this`loss
      ensures Valid()
      ensures var fail := SetupFailure(PriorSet(), data, bp, dp, Present(), true, true, true);
        var run := Run(RunConfig(None), lossAt, 0, old(loss), []);
        && (fail.Some? ==> res == Err(fail.value) && loss == old(loss) &&
                           (old(xi) != null ==> unchanged(old(xi))) && (old(eta) != null ==> unchanged(old(eta))))
        && (fail.None? ==> loss == run.loss && (res.Err? <==> run.outcome.Raised?) &&
                           (res.Err? ==> res.error == run.outcome.error))
      ensures res.Ok? ==> dp.Some? && eta != null && beta != null
      ensures res.Ok? ==> ResolveHyper(bp, dp, PriorSet(), data, true, true) == Ok(Hyper(res.value.bp, dp.value))
      ensures res.Ok? ==> fresh(res.value.xi) && fresh(res.value.theta)
      ensures res.Ok? ==> PriorUpdated(res.value.xi, res.value.theta, ap + nfactors as real * a, res.value.bp, nfactors)
    {
      var r := FitCore(data, true, true, None, lossAt);
      if r.Err? {
        return Err(r.error);
      }
      res := Ok(Projection(r.value.bp, r.value.xi, r.value.theta));
    }

    /** Records a setup's or a training run's b', d' and distributions as the model's own. */
    method Store(p: Params)
      requires ParamsValid(p, nfactors)
      modifies this`bp, this`dp, this`xi, this`eta, this`theta, this`beta
      ensures Valid()
      ensures bp == Some(p.bp) && dp == Some(p.dp)
      ensures xi == p.xi && eta == p.eta && theta == p.theta && beta == p.beta
    {
      bp, dp := Some(p.bp), Some(p.dp);
      xi, eta, theta, beta := p.xi, p.eta, p.theta, p.beta;
    }

    /** `_initialize`: a setup with fresh distributions, stored in the model without training. */
    method Initialize(data: Data, freezeGenes: bool := false) returns (res: Result<Params>)
      requires Valid()
      modifies this
      ensures Valid() && loss == old(loss)
      ensures var fail := SetupFailure(PriorSet(), data, old(bp), old(dp), old(Present()), freezeGenes, true, true);
        (res.Err? <==> fail.Some?) && (res.Err? ==> res.error == fail.value)
      ensures res.Ok? ==> bp == Some(res.value.bp) && dp == Some(res.value.dp)
      ensures res.Ok? ==> xi == res.value.xi && eta == res.value.eta && theta == res.value.theta && beta == res.value.beta
      ensures res.Ok? ==> ResolveHyper(old(bp), old(dp), PriorSet(), data, freezeGenes, true) == Ok(Hyper(res.value.bp, res.value.dp))
      ensures res.Ok? ==> fresh(xi) && fresh(theta) && Drawn(xi, Shape1(data.ncells), ap, res.value.bp)
      ensures res.Ok? ==> Drawn(theta, Shape2(data.ncells, nfactors), a, res.value.bp)
      ensures res.Ok? && !freezeGenes ==> fresh(eta) && fresh(beta) && Drawn(eta, Shape1(data.ngenes), cp, res.value.dp)
      ensures res.Ok? && !freezeGenes ==> Drawn(beta, Shape2(data.ngenes, nfactors), c, res.value.dp)
      ensures res.Ok? && freezeGenes ==> eta == old(eta) && beta == old(beta)
      ensures res.Err? ==> bp == old(bp) && dp == old(dp) && xi == old(xi) && eta == old(eta) &&
                           theta == old(theta) && beta == old(beta)
    {
      res := Setup(data, freezeGenes, true);
      if res.Ok? {
        Store(res.value);
      }
    }
  }
}
