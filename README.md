# scHPF training core in Dafny

This project models the core of scHPF's trainer. scHPF is single-cell hierarchical Poisson
factorization. The model lives in `schpf/scHPF_.py` and covers four things.

- **`HPF_Gamma`** (`gamma.dfy`): a block of variational Gamma distributions.
  - It is a class with its shape array, rate array and `dims`.
  - `__init__` asserts equal shapes and positive entries.
  - The random factory draws `np.random.uniform(0.5 p, 1.5 p)`.
  - `e_x` is the element-wise mean shape / rate.
- **`_setup`**: resolves the hyperparameters b' and d', then obtains xi, theta, eta and beta.
  - The branch table is the pure function `Setup.SetupFailure`, with `Setup.ResolveHyper` (`setup.dfy`).
  - The method is `Model.ScHpf.Setup` (`schpf.dfy`).
- **The prior updates before the loop**: xi's shapes become a' + K a and its rates b' plus
  the row sums of theta's means. Unless the genes are frozen, eta is updated the same way.
  These updates write into the distribution objects, which may be the model's own.
- **The training loop's stopping rule**.
  - At every check iteration a loss is appended to the model's persistent `loss` list, and
    a percent change to the run's local list.
  - The run stops on convergence or on getting worse.
  - `Convergence.Run` is the loop as a function; `Model.ScHpf.Monitor` is the loop itself,
    proved equal to it.
  - The lemmas in `convergence.dfy` state what a run records and why it stops.

`fit`, `project` and `_initialize` are the methods `Fit`, `Project` and `Initialize` on
the `Model.ScHpf` class. `Fit` and `Project` share `Prepare`, which does the setup plus the
prior updates, and `FitCore`, which is `_fit`. `Initialize` calls only `Setup`. `_score` is
`Model.Score`.

Supporting modules:

- `Py`: `Option`, `Result`, the exceptions that can leave these routines, and Python's
  list indexing with negative positions (`PyAt`).
- `NdArrays`: the 1-D and 2-D numpy arrays used, over reals. `FillLike` (`a[:] = x`),
  `RowSums` (`m.sum(1)`), `AddScalar` (`x + v`) and `ScaleRows` (`m * c[:, None]`) are
  definitions of the numpy operations they name. What the trainer does with them is stated
  by `Model.UpdateCapacity`, `Model.ScHpf.UpdatePriors` and `Model.Score`. `UniformEntry`
  and `UniformAround` are numpy's `uniform(0.5 p, 1.5 p)` as `low + (high - low) u`
  (schpf/scHPF_.py:43-46); `NdArrays.UniformAroundBounds` states their bounds.
- `Gamma.Admissible` is the three assertions of `HPF_Gamma.__init__` (schpf/scHPF_.py:52-54),
  stated through `Gamma.NewGamma` and the constructor.
- `Setup.Redraw` is the condition `reinit or x is None` under which `_setup` draws a
  distribution afresh (schpf/scHPF_.py:456, :458, :470, :472), stated through `Model.Obtain`.
  `Setup.FactoryOk` says whether the factory's `HPF_Gamma` passes those assertions for a
  shape and its priors, stated through `Gamma.RandomGammaFactory` and `Setup.SetupFailure`.
- `Convergence.StopAllowed` is the gate `len(self.loss) > 3 and t >= min_iter`
  (schpf/scHPF_.py:399), and `Convergence.Small` is `abs(p) < epsilon` (:401-402), never
  true for inf or nan. Both are stated through `Convergence.Decide`,
  `Convergence.ConvergedTest` and `Convergence.RunStopsOnlyWhenAllowed`.

The inputs the model cannot compute are parameters:

- The loss the trainer computes at iteration t is the oracle `lossAt: int -> real`. That
  loss is the negative Poisson log-likelihood of the validation data, or of the training
  data when none is given, divided by the number of nonzero entries. The log-likelihood
  comes from compiled code when it is available and from plain numpy otherwise.
- The per-axis mean/variance ratios of the count matrix are fields of `Setup.Data`.
- The uniform draws are a nondeterministic choice (`:|`) of arrays with entries in [0, 1).

Behaviour of `schpf/scHPF_.py` the model keeps:

- A stop is considered only when more than three losses are recorded and t >= min_iter.
  Convergence needs the last two percent changes below epsilon in magnitude, and no
  inflection among the last three losses. Getting worse is tested only after convergence
  has failed.
- `self.loss` is never cleared, so a second `fit` or a `project` on a trained model
  continues the old history.
  - The local `pct_change` list starts empty every time. The first percent change of a
    later run is measured against the previous run's last loss.
  - With three or more old losses and `min_iter <= 0`, the first check reads
    `pct_change[-2]` and raises IndexError (`Convergence.ReusedHistoryIndexError`).
- The getting-worse test reads `loss[-better_than_n_ago]`. The current loss is `loss[-1]`,
  so this is the loss better_than_n_ago - 1 checks before the current one, one check fewer
  than the docstring of `scHPF.__init__` (schpf/scHPF_.py:132-135) describes. With
  better_than_n_ago == 1 the test never fires (`Convergence.OneCheckAgoNeverGetsWorse`).
  The model follows the code.
- `project` appends to the model's `self.loss`. It reuses the model's b' when one is set,
  and ignores its own `min_iter` argument.
- `scHPF.__init__` accepts xi, theta, eta, beta and loss, but always starts with no
  distributions and an empty loss list.

## Model

| member | source | states |
|---|---|---|
| Gamma.HpfGamma.constructor | schpf/scHPF_.py:50-57 | only equal-shaped, all-positive shape and rate arrays construct a distribution; `dims` is their shape |
| Gamma.NewGamma | schpf/scHPF_.py:50-57 | `HPF_Gamma(s, r)` succeeds iff the shapes agree and both arrays are all positive, else AssertionError; the result holds s and r |
| Gamma.HpfGamma.EX | schpf/scHPF_.py:60-65 | `e_x` has the distribution's shape, is the element-wise quotient (e_x * rate == shape), and is all positive when the distribution is |
| Gamma.RandomGammaFactory | schpf/scHPF_.py:26-47 | the factory succeeds iff some dimension is 0 or both priors are positive, else AssertionError; a success is a fresh distribution of shape `dims` with shapes in [0.5 s, 1.5 s) and rates in [0.5 r, 1.5 r) |
| NdArrays.UniformAroundBounds | schpf/scHPF_.py:43-46 | numpy's uniform draw `low + (high - low) u` lies in [0.5 p, 1.5 p) when p > 0, and is all positive iff the array is empty or p > 0 |
| NdArrays.Quotient | schpf/scHPF_.py:65 | element-wise `s / d` keeps the shape and satisfies q * d == s entry by entry |
| NdArrays.QuotientPositive | schpf/scHPF_.py:65 | the quotient of two positive arrays is positive |
| NdArrays.SumPositive | schpf/scHPF_.py:343 | a sum of positive entries is non-negative, and positive when there is an entry |
| Setup.ResolveHyper | schpf/scHPF_.py:443-454 | b' is the given value, or a' times the cell ratio; d' is the given value, or a ValueError under frozen genes, or c' times the gene ratio, raised to b'/1000 when clipping needs it, so that then b' <= 1000 d' |
| Setup.SetupFailure | schpf/scHPF_.py:443-474 | the setup raises only ValueError or AssertionError, and ValueError only under frozen genes; the d' ValueError exactly when d' is missing under frozen genes; without a failure b' and d' resolve and, under frozen genes, eta and beta exist; with every distribution present, no reinitialisation and frozen genes, it succeeds exactly when d' is given |
| Setup.FrozenGenesNeedDp | schpf/scHPF_.py:445-448 | with frozen genes and no d', the setup always fails with the d' ValueError, before any draw |
| Setup.FrozenGenesNeedGeneDistributions | schpf/scHPF_.py:463-468 | with frozen genes and eta or beta missing, the setup always fails; with d' given and positive a', a and b' the failure is the gene-distribution ValueError |
| Setup.PositiveSetupSucceeds | schpf/scHPF_.py:443-474 | with positive hyperparameters and ratios, and positive b', d' when given, a setup without frozen genes never fails |
| Model.Obtain | schpf/scHPF_.py:456-459 | a distribution is drawn by the factory when reinitialising or when missing, and is otherwise the model's own object |
| Model.ScHpf.Setup | schpf/scHPF_.py:430-476 | the setup raises exactly the exception the branch table gives, in source order; otherwise b', d' are the resolved ones, each distribution is freshly drawn with the right shape and priors or is the model's own, eta and beta are kept under frozen genes, and the model is unchanged |
| Model.PriorRatesPositive | schpf/scHPF_.py:343 | with a positive base rate, b' plus the row sums of positive loading means is all positive |
| Model.UpdateCapacity | schpf/scHPF_.py:342-343 | after the update every capacity shape is the constant and the rates are rate0 plus the loading means' row sums; the shape is kept; the rates are positive when rate0 > 0 |
| Model.ScHpf.UpdatePriors | schpf/scHPF_.py:341-346 | xi is updated from a' + K a, b' and theta, and, unless frozen, eta from c' + K c, d' and beta; frozen eta is untouched; the model's fields and invariant are kept |
| Model.ScHpf.RunConfig | schpf/scHPF_.py:349-350 | a run uses the given min_iter, or the model's when none is given, and the model's max_iter, check_freq, epsilon and better_than_n_ago |
| Model.ScHpf.Monitor | schpf/scHPF_.py:348-425 | the loop ends with exactly the outcome of `Convergence.Run` and leaves exactly its loss history in `self.loss` |
| Convergence.PctBetween | schpf/scHPF_.py:386-387 | a percent change is non-finite exactly when the previous loss is 0 |
| Convergence.PctBetweenMeaning | schpf/scHPF_.py:387 | a finite percent change times abs(prev) is 100 (curr - prev), so it is positive iff the loss rose and 0 iff it stayed |
| Convergence.PctChange | schpf/scHPF_.py:384-389 | the first loss of the history gets 100, where `loss[-2]` raises IndexError; a later one is non-finite exactly when the loss before it is 0 |
| Convergence.Inflection | schpf/scHPF_.py:403-405 | an inflection is abs(loss[-3]) < abs(loss[-2]) > abs(loss[-1]): the magnitude rose and fell again; it therefore needs a nonzero previous loss, and two equal magnitudes at the end are never one |
| Convergence.ConvergedTest | schpf/scHPF_.py:401-406 | convergence needs a positive epsilon, two finite percent changes strictly between -epsilon and epsilon, and no inflection |
| Convergence.WorseTest | schpf/scHPF_.py:415-418 | getting worse is abs(nprev) < abs(curr) and abs(prev) < abs(curr), with nprev = `loss[-better_than_n_ago]`; it therefore needs a nonzero current loss, and never holds when nprev is the current loss or the previous loss equals the current one |
| Convergence.NAgo | schpf/scHPF_.py:415 | `loss[-b]` exists iff -len < b <= len; for b > 0 it is the loss b - 1 checks before the current one, so b = 1 is the current loss, and for b <= 0 it is read from the front |
| Convergence.Decide | schpf/scHPF_.py:399-420 | a check decides to stop only when stopping is allowed |
| Convergence.DecisionTable | schpf/scHPF_.py:399-420 | a stop is convergence, getting worse or an IndexError; with fewer than two percent changes it is the IndexError; convergence is tested before getting worse, and a getting-worse stop means the convergence test failed |
| Convergence.Run | schpf/scHPF_.py:350-425 | a run never ends before the iteration it started at, and the only exceptions it raises are ZeroDivisionError and IndexError |
| Convergence.RunRecordsOneLossPerCheck | schpf/scHPF_.py:350-389 | a run appends exactly the oracle's losses at its check iterations t % check_freq == 0 and one percent change per loss; it does at most max_iter iterations; it raises ZeroDivisionError iff check_freq == 0 and max_iter > 0 |
| Convergence.RunKeepsPctInStep | schpf/scHPF_.py:382-389 | every recorded percent change belongs to the loss history up to the loss appended with it |
| Convergence.PercentChangesOfRun | schpf/scHPF_.py:384-389 | a run keeps the old history as a prefix; its k-th percent change is 100 when no earlier loss exists and otherwise 100 (curr - prev) / abs(prev), where prev is the loss just before it |
| Convergence.RunEndsAtStopDecision | schpf/scHPF_.py:399-420 | a run that ends by a stop or an IndexError ended at a check iteration whose decision was exactly that |
| Convergence.RunStopsOnlyWhenAllowed | schpf/scHPF_.py:399-420 | a stop happens only with more than three losses and t >= min_iter; convergence only when both last percent changes are small and there is no inflection; getting worse only when convergence failed and `loss[-better_than_n_ago]` (better_than_n_ago - 1 checks before the current loss) and the previous loss are both smaller in magnitude than the current one |
| Convergence.CheckContinues | schpf/scHPF_.py:377-420 | after a check that decides to continue, the run continues until its first stop |
| Convergence.RunContinuesUntilStop | schpf/scHPF_.py:377-420 | every check before the last one, and the last one too when the run used all its iterations, decided to continue |
| Convergence.OneCheckAgoNeverGetsWorse | schpf/scHPF_.py:413-418 | with better_than_n_ago == 1 the getting-worse stop never fires |
| Convergence.FreshHistoryNeverIndexError | schpf/scHPF_.py:348-415 | on a model without earlier losses and with better_than_n_ago >= 0, a run never raises IndexError |
| Convergence.ReusedHistoryIndexError | schpf/scHPF_.py:399-402 | on a model with three or more old losses and min_iter <= 0, a run raises IndexError at its first check, after appending one loss |
| Model.Score | schpf/scHPF_.py:287-288 | `_score` has the loading's shape and is positive when both distributions are |
| Model.ScoreIsProductOfMeans | schpf/scHPF_.py:287-288 | every score is the product of the two means: score * (loading rate * capacity rate) == loading shape * capacity shape |
| Model.ScHpf.constructor | schpf/scHPF_.py:145-185 | the model holds the given hyperparameters with scHPF's defaults, no distributions and an empty loss list |
| Model.ScHpf.Prepare | schpf/scHPF_.py:338-346 | the setup's failure is returned unchanged, with the model's xi and eta untouched; otherwise the prior updates are applied to the set-up distributions; only xi, and eta unless the genes are frozen, may be written, and only when they are the model's own |
| Model.ScHpf.FitCore | schpf/scHPF_.py:291-427 | a setup error returns before any loss is recorded and leaves the model's xi and eta untouched; otherwise the loss history is the run's, the loop's exception is returned after the losses and after the prior updates of the model's own xi and, unless the genes are frozen, eta, and a success returns the prepared parameters; under frozen genes the model's eta is never written |
| Model.ScHpf.Store | schpf/scHPF_.py:270-275 | b', d' and the four distributions become the model's own |
| Model.ScHpf.Fit | schpf/scHPF_.py:258-276 | `fit` stores b', d' and the distributions on success, leaves them as they were on an error, leaves the contents of the model's xi and eta untouched on a setup error, and records the run's losses; a loop error is the exact exception of the run, raised after the prior updates of the model's own xi and, unless the genes are frozen, eta; under frozen genes eta and beta stay the model's, with eta's contents untouched |
| Model.ScHpf.Project | schpf/scHPF_.py:280-284 | `project` runs with frozen genes and fresh cell distributions, returns b', xi, theta, keeps the model's distributions and extends its loss history; a setup error is the branch table's, and a loop error is the exact exception of the run |
| Model.ScHpf.Initialize | schpf/scHPF_.py:479-488 | `_initialize` stores a fresh setup, without training, or leaves the model unchanged on a setup error; the stored b' and d' are the resolved ones, so one that was set is kept; xi, theta and, unless the genes are frozen, eta and beta are drawn within the factory bounds |

## Left out

- The coordinate-ascent updates inside the loop are calls into compiled code that is not
  part of this model. These are `compute_Xphi_data` and `compute_loading_shape_update` /
  `compute_loading_rate_update`, at schpf/scHPF_.py:351-373. With them go the loop's
  in-place reassignment of theta, beta, xi and eta, and the random Dirichlet phi of the
  first iteration. In the model, the loop changes only the loss history.
- The loss itself, `pois_llh` and `pois_llh_pointwise`, is the oracle `lossAt`. The choice
  between validation and training data is folded into it.
- `mean_var_ratio` is an input (`Setup.Data`): it is numpy mean and variance over a sparse
  matrix.
- `e_logx`, `entropy` and `sample` are left out. They need digamma, gammaln and a Gamma
  sampler, none of which the trainer's control flow uses.
- `cell_score` and `gene_score` are left out. They only pick defaults before calling
  `_score` (`Model.Score`).
- Printing, `verbose` and `message_function` are left out. They are side effects with no
  influence on control flow.
- The scikit-learn base class is left out, as are the COO-matrix handling and the float64
  casts.
- The check `t >= self.max_iter` at schpf/scHPF_.py:424 is never true inside
  `range(max_iter)`, so it has no counterpart in the model.
- Floating point: all values are mathematical reals. An infinite or NaN percent change (a
  previous loss of 0) is `Pct.NonFinite`, which is never small. No other value is modelled
  as non-finite.
- numpy broadcasting is modelled only for the shapes the core uses: (n,) with scalars, and
  (n, k) with (n,) rows.
- `nfactors` is a natural number. A negative `nfactors` makes numpy itself fail, and that
  failure is not modelled.
- Model.ScHpf.Setup: an eta or beta kept under frozen genes is assumed to be a valid
  distribution of the model (the class invariant). Shapes that differ from the new data are
  not checked, and `_setup` does not check them either.
