/**
 * The branch table of `scHPF._setup`: how the hyperparameters b' and d'
 * are resolved, when a variational distribution is drawn afresh, and which
 * exception, if any, the setup raises.
 */
module Setup {
  import opened Py
  import opened NdArrays

  /**
   * What the setup reads of the count matrix: its shape and the two
   * empirical mean/variance ratios of the per-cell totals (`cellRatio`,
   * axis 1) and of the per-gene totals (`geneRatio`, axis 0).
   */
  datatype Data = Data(ncells: nat, ngenes: nat, cellRatio: real, geneRatio: real)

  /** The fixed hyperparameters the setup uses. */
  datatype Priors = Priors(nfactors: nat, a: real, ap: real, c: real, cp: real)

  /** Which of xi, theta, eta and beta the model already holds. */
  datatype Existing = Existing(xi: bool, theta: bool, eta: bool, beta: bool)

  datatype Hyper = Hyper(bp: real, dp: real)

  function Max(x: real, y: real): real {
    if x < y then y else x
  }

  /**
   * b' and d': a given value is kept; a missing b' is a' times the cell
   * ratio; a missing d' is an error under frozen genes and otherwise c'
   * times the gene ratio, raised to b' / 1000 when clipping and
   * b' > 1000 d'.
   */
  function ResolveHyper(bp: Option<real>, dp: Option<real>, pr: Priors, data: Data,
                        freezeGenes: bool, clip: bool): (r: Result<Hyper>)
    ensures r.Err? <==> dp.None? && freezeGenes
    ensures r.Err? ==> r.error == ValueError(DpMissingWithFrozenGenes)
    ensures r.Ok? && bp.Some? ==> r.value.bp == bp.value
    ensures r.Ok? && bp.None? ==> r.value.bp == pr.ap * data.cellRatio
    ensures r.Ok? && dp.Some? ==> r.value.dp == dp.value
    ensures r.Ok? && dp.None? && !clip ==> r.value.dp == pr.cp * data.geneRatio
    ensures r.Ok? && dp.None? && clip ==> r.value.dp == Max(pr.cp * data.geneRatio, r.value.bp / 1000.0)
    ensures r.Ok? && dp.None? && clip ==> r.value.bp <= 1000.0 * r.value.dp
  {
    var bp' := if bp.Some? then bp.value else pr.ap * data.cellRatio;
    if dp.Some? then Ok(Hyper(bp', dp.value))
    else if freezeGenes then Err(ValueError(DpMissingWithFrozenGenes))
    else
      var dp' := pr.cp * data.geneRatio;
      if clip && bp' > 1000.0 * dp' then Ok(Hyper(bp', bp' / 1000.0))
      else Ok(Hyper(bp', dp'))
  }

  /** A new distribution is drawn when reinitialising or when there is none. */
  predicate Redraw(reinit: bool, present: bool) {
    reinit || !present
  }

  /** The factory's HPF_Gamma passes its assertions: nothing to draw, or both priors positive. */
  predicate FactoryOk(dims: Shape, shapePrior: real, ratePrior: real) {
    HasZero(dims) || (shapePrior > 0.0 && ratePrior > 0.0)
  }

  /**
   * The exception the setup raises, in the order `_setup` meets them:
   * the d' check, then the xi and theta draws, then (frozen genes) the
   * presence of eta and beta or (otherwise) the eta and beta draws.
   */
  function SetupFailure(pr: Priors, data: Data, bp: Option<real>, dp: Option<real>, has: Existing,
                        freezeGenes: bool, reinit: bool, clip: bool): (r: Option<Error>)
    ensures r.Some? ==> r.value.ValueError? || r.value == AssertionError
    ensures r.Some? && r.value.ValueError? ==> freezeGenes
    ensures r == Some(ValueError(DpMissingWithFrozenGenes)) <==> dp.None? && freezeGenes
    ensures r.None? ==> ResolveHyper(bp, dp, pr, data, freezeGenes, clip).Ok?
    ensures r.None? && freezeGenes ==> has.eta && has.beta
    ensures !reinit && has.xi && has.theta && freezeGenes && has.eta && has.beta ==>
      (r.None? <==> dp.Some?)
  {
    match ResolveHyper(bp, dp, pr, data, freezeGenes, clip)
    case Err(e) => Some(e)
    case Ok(h) =>
      if Redraw(reinit, has.xi) && !FactoryOk(Shape1(data.ncells), pr.ap, h.bp) then Some(AssertionError)
      else if Redraw(reinit, has.theta) && !FactoryOk(Shape2(data.ncells, pr.nfactors), pr.a, h.bp) then Some(AssertionError)
      else if freezeGenes then
        if !has.eta || !has.beta then Some(ValueError(GeneDistributionsMissing)) else None
      else if Redraw(reinit, has.eta) && !FactoryOk(Shape1(data.ngenes), pr.cp, h.dp) then Some(AssertionError)
      else if Redraw(reinit, has.beta) && !FactoryOk(Shape2(data.ngenes, pr.nfactors), pr.c, h.dp) then Some(AssertionError)
      else None
  }

  /** Frozen genes without d' always fail, before anything is drawn. */
  lemma FrozenGenesNeedDp(pr: Priors, data: Data, bp: Option<real>, has: Existing, reinit: bool, clip: bool)
    ensures SetupFailure(pr, data, bp, None, has, true, reinit, clip) == Some(ValueError(DpMissingWithFrozenGenes))
  {
  }

  /**
   * Frozen genes without eta or beta always fail; with positive a', a and
   * b' the failure is the ValueError about the gene distributions.
   */
  lemma FrozenGenesNeedGeneDistributions(pr: Priors, data: Data, bp: Option<real>, dp: Option<real>,
                                         has: Existing, reinit: bool, clip: bool)
    requires !has.eta || !has.beta
    ensures SetupFailure(pr, data, bp, dp, has, true, reinit, clip).Some?
    ensures dp.Some? && pr.ap > 0.0 && pr.a > 0.0 &&
            ResolveHyper(bp, dp, pr, data, true, clip).value.bp > 0.0 ==>
              SetupFailure(pr, data, bp, dp, has, true, reinit, clip) == Some(ValueError(GeneDistributionsMissing))
  {
  }

  /**
   * With positive hyperparameters and positive empirical ratios (or a
   * positive b' and d' given), a setup that does not freeze the genes
   * never fails.
   */
  lemma PositiveSetupSucceeds(pr: Priors, data: Data, bp: Option<real>, dp: Option<real>,
                              has: Existing, reinit: bool, clip: bool)
    requires pr.a > 0.0 && pr.ap > 0.0 && pr.c > 0.0 && pr.cp > 0.0
    requires data.cellRatio > 0.0 && data.geneRatio > 0.0
    requires bp.Some? ==> bp.value > 0.0
    requires dp.Some? ==> dp.value > 0.0
    ensures SetupFailure(pr, data, bp, dp, has, false, reinit, clip) == None
  {
    var h := ResolveHyper(bp, dp, pr, data, false, clip).value;
    assert pr.ap * data.cellRatio > 0.0;
    assert pr.cp * data.geneRatio > 0.0;
    assert h.bp > 0.0;
    assert h.dp > 0.0;
  }
}
