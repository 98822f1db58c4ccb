/**
 * The stopping rule of the training loop of scHPF: at every iteration t
 * with t % check_freq == 0 a loss is appended to the model's loss history,
 * a percent change to the run's own list, and the run stops when it has
 * converged or is getting worse. The loss values are given by an oracle
 * `lossAt`, the loss the trainer computes at iteration t.
 *
 * The model's loss history is never cleared, while the list of percent
 * changes starts empty at every run: a run on a model trained before sees
 * the earlier losses as `prev` and `loss[-3]`.
 */
module Convergence {
  import opened Py
  import NdArrays

  /** A recorded percent change: a real, or numpy's inf/nan when the previous loss is 0. */
  datatype Pct = Pct(value: real) | NonFinite

  /** The stopping parameters of one run (min_iter already resolved). */
  datatype Config = Config(maxIter: int, minIter: int, checkFreq: int, epsilon: real, betterThanNAgo: int)

  /** How a run ends: one of the two stops, all iterations done, or an exception. */
  datatype Outcome = Converged | GettingWorse | Exhausted | Raised(error: Error)

  /** What one check decides. */
  datatype Decision = Continue | Stop(outcome: Outcome)

  /** `100 * (curr - prev) / abs(prev)`; with prev == 0 numpy yields inf or nan. */
  function PctBetween(prev: real, curr: real): (p: Pct)
    ensures p.NonFinite? <==> prev == 0.0
  {
    if prev == 0.0 then NonFinite else Pct(100.0 * (curr - prev) / Abs(prev))
  }

  /**
   * A finite percent change times |prev| is 100 times the change, so its
   * sign is the sign of curr - prev.
   */
  lemma PctBetweenMeaning(prev: real, curr: real)
    requires prev != 0.0
    ensures PctBetween(prev, curr).value * Abs(prev) == 100.0 * (curr - prev)
    ensures PctBetween(prev, curr).value > 0.0 <==> curr > prev
    ensures PctBetween(prev, curr).value == 0.0 <==> curr == prev
  {
    var q := PctBetween(prev, curr).value;
    assert q * Abs(prev) == 100.0 * (curr - prev);
    if curr > prev {
      NdArrays.DivPositive(100.0 * (curr - prev), Abs(prev));
    } else if curr < prev {
      NdArrays.DivPositive(100.0 * (prev - curr), Abs(prev));
      assert q == -(100.0 * (prev - curr) / Abs(prev));
    }
  }

  /**
   * The percent change recorded right after the newest loss was appended:
   * 100 when there is no earlier loss (`loss[-2]` raises IndexError).
   */
  function PctChange(loss: seq<real>): (p: Pct)
    requires |loss| >= 1
    ensures |loss| < 2 ==> p == Pct(100.0)
    ensures p.NonFinite? <==> |loss| >= 2 && loss[|loss| - 2] == 0.0
  {
    if |loss| < 2 then Pct(100.0) else PctBetween(loss[|loss| - 2], loss[|loss| - 1])
  }

  /** `abs(p) < epsilon`; false for inf and nan. */
  predicate Small(p: Pct, epsilon: real) {
    p.Pct? && Abs(p.value) < epsilon
  }

  /** Stopping of either kind is considered only past three losses and past min_iter. */
  predicate StopAllowed(cfg: Config, t: int, loss: seq<real>) {
    |loss| > 3 && t >= cfg.minIter
  }

  /** The loss magnitude rose to `prev` and fell again at `curr`. */
  predicate Inflection(loss: seq<real>): (b: bool)
    requires |loss| >= 3
    ensures b ==> loss[|loss| - 2] != 0.0
    ensures Abs(loss[|loss| - 2]) == Abs(loss[|loss| - 1]) ==> !b
  {
    var prev, curr := loss[|loss| - 2], loss[|loss| - 1];
    Abs(loss[|loss| - 3]) < Abs(prev) && Abs(prev) > Abs(curr)
  }

  /** Converged: the last two percent changes are small and there is no inflection. */
  predicate ConvergedTest(loss: seq<real>, pct: seq<Pct>, epsilon: real): (b: bool)
    requires |loss| >= 3 && |pct| >= 2
    ensures b ==> epsilon > 0.0 && pct[|pct| - 1].Pct? && pct[|pct| - 2].Pct?
    ensures b ==> -epsilon < pct[|pct| - 1].value < epsilon && -epsilon < pct[|pct| - 2].value < epsilon
    ensures b ==> !Inflection(loss)
  {
    Small(pct[|pct| - 1], epsilon) && Small(pct[|pct| - 2], epsilon) && !Inflection(loss)
  }

  /** Getting worse: |curr| exceeds both the loss n checks ago and |prev|. */
  predicate WorseTest(loss: seq<real>, nprev: real): (b: bool)
    requires |loss| >= 2
    ensures b ==> loss[|loss| - 1] != 0.0
    ensures nprev == loss[|loss| - 1] || loss[|loss| - 2] == loss[|loss| - 1] ==> !b
  {
    var prev, curr := loss[|loss| - 2], loss[|loss| - 1];
    Abs(nprev) < Abs(curr) && Abs(prev) < Abs(curr)
  }

  /** `loss[-better_than_n_ago]` */
  function NAgo(loss: seq<real>, b: int): (r: Option<real>)
    ensures r.Some? <==> -|loss| < b <= |loss|
    ensures 0 < b <= |loss| ==> r == Some(loss[|loss| - b])
    ensures -|loss| < b <= 0 ==> r == Some(loss[-b])
  {
    PyAt(loss, -b)
  }

  /** The check at iteration t, after the newest loss and percent change were appended. */
  function Decide(cfg: Config, t: int, loss: seq<real>, pct: seq<Pct>): (d: Decision)
    requires |loss| >= 1 && |pct| >= 1
    ensures d.Stop? ==> StopAllowed(cfg, t, loss)
  {
    if !StopAllowed(cfg, t, loss) then Continue
    else if |pct| < 2 then Stop(Raised(IndexError))
    else if ConvergedTest(loss, pct, cfg.epsilon) then Stop(Converged)
    else if |loss| > cfg.betterThanNAgo && cfg.betterThanNAgo != 0 then
      match NAgo(loss, cfg.betterThanNAgo)
      case None => Stop(Raised(IndexError))
      case Some(nprev) => if WorseTest(loss, nprev) then Stop(GettingWorse) else Continue
    else Continue
  }

  /**
   * What one check can decide: a stop is one of the two stops or an
   * IndexError; with too few percent changes it is the IndexError, and
   * convergence is tested before getting worse.
   */
  lemma DecisionTable(cfg: Config, t: int, loss: seq<real>, pct: seq<Pct>)
    requires |loss| >= 1 && |pct| >= 1
    ensures var d := Decide(cfg, t, loss, pct);
      && (d.Stop? ==> d.outcome.Converged? || d.outcome.GettingWorse? || d.outcome == Raised(IndexError))
      && (StopAllowed(cfg, t, loss) && |pct| < 2 ==> d == Stop(Raised(IndexError)))
      && (StopAllowed(cfg, t, loss) && |pct| >= 2 && ConvergedTest(loss, pct, cfg.epsilon) ==> d == Stop(Converged))
      && (d == Stop(GettingWorse) ==> |pct| >= 2 && !ConvergedTest(loss, pct, cfg.epsilon))
  {
  }

  /**
   * The result of running iterations t, t + 1, ... : how the run ended, the
   * loss history and the percent changes at that point, and `upto`, the
   * first iteration whose check was not completed.
   */
  datatype RunResult = RunResult(outcome: Outcome, loss: seq<real>, pct: seq<Pct>, upto: int)

  /** The loop over iterations t .. maxIter - 1, as a function. */
  function Run(cfg: Config, lossAt: int -> real, t: int, loss: seq<real>, pct: seq<Pct>): (r: RunResult)
    ensures t <= r.upto
    ensures r.outcome.Raised? ==> r.outcome.error == ZeroDivisionError || r.outcome.error == IndexError
    decreases cfg.maxIter - t
  {
    if t >= cfg.maxIter then RunResult(Exhausted, loss, pct, t)
    else if cfg.checkFreq == 0 then RunResult(Raised(ZeroDivisionError), loss, pct, t)
    else if t % cfg.checkFreq != 0 then Run(cfg, lossAt, t + 1, loss, pct)
    else
      var loss' := loss + [lossAt(t)];
      var pct' := pct + [PctChange(loss')];
      match Decide(cfg, t, loss', pct')
      case Continue => Run(cfg, lossAt, t + 1, loss', pct')
      case Stop(o) => RunResult(o, loss', pct', t + 1)
  }

  /** The iterations in [lo, hi) that are checks, in order. */
  function Checks(lo: int, hi: int, checkFreq: int): seq<int>
    decreases hi - lo
  {
    if lo >= hi || checkFreq == 0 then []
    else (if lo % checkFreq == 0 then [lo] else []) + Checks(lo + 1, hi, checkFreq)
  }

  /** The losses the oracle gives at the iterations ts. */
  function LossesAt(lossAt: int -> real, ts: seq<int>): seq<real> {
    seq(|ts|, i requires 0 <= i < |ts| => lossAt(ts[i]))
  }

  lemma LossesAtCons(lossAt: int -> real, t: int, ts: seq<int>)
    ensures LossesAt(lossAt, [t] + ts) == [lossAt(t)] + LossesAt(lossAt, ts)
  {
  }

  /**
   * Every check appends exactly one loss, the oracle's value at that
   * iteration, and no other iteration appends anything; the run does at
   * most maxIter - t iterations; only check_freq == 0 raises
   * ZeroDivisionError, at the very first iteration.
   */
  lemma {:induction false} RunRecordsOneLossPerCheck(cfg: Config, lossAt: int -> real, t: int, loss: seq<real>, pct: seq<Pct>)
    ensures var r := Run(cfg, lossAt, t, loss, pct);
      && t <= r.upto
      && (t < cfg.maxIter ==> r.upto <= cfg.maxIter)
      && (r.outcome == Exhausted ==> r.upto == if t < cfg.maxIter then cfg.maxIter else t)
      && (r.outcome == Raised(ZeroDivisionError) <==> cfg.checkFreq == 0 && t < cfg.maxIter)
      && (r.outcome == Raised(ZeroDivisionError) ==> r.upto == t)
      && r.loss == loss + LossesAt(lossAt, Checks(t, r.upto, cfg.checkFreq))
      && |r.pct| == |pct| + |Checks(t, r.upto, cfg.checkFreq)|
      && r.pct[..|pct|] == pct
    decreases cfg.maxIter - t
  {
    var r := Run(cfg, lossAt, t, loss, pct);
    if t >= cfg.maxIter || cfg.checkFreq == 0 {
      assert Checks(t, r.upto, cfg.checkFreq) == [];
    } else if t % cfg.checkFreq != 0 {
      RunRecordsOneLossPerCheck(cfg, lossAt, t + 1, loss, pct);
      assert Checks(t, r.upto, cfg.checkFreq) == Checks(t + 1, r.upto, cfg.checkFreq);
    } else {
      var loss' := loss + [lossAt(t)];
      var pct' := pct + [PctChange(loss')];
      match Decide(cfg, t, loss', pct')
      case Continue =>
        RunRecordsOneLossPerCheck(cfg, lossAt, t + 1, loss', pct');
        var rest := Checks(t + 1, r.upto, cfg.checkFreq);
        assert Checks(t, r.upto, cfg.checkFreq) == [t] + rest;
        LossesAtCons(lossAt, t, rest);
        assert r.pct[..|pct'|] == pct';
        assert r.pct[..|pct|] == pct'[..|pct|];
      case Stop(o) =>
        assert Checks(t, r.upto, cfg.checkFreq) == [t];
        LossesAtCons(lossAt, t, []);
    }
  }

  /** Each recorded percent change belongs to the loss history up to the loss it was recorded with. */
  ghost predicate PctTracks(loss: seq<real>, pct: seq<Pct>) {
    |pct| <= |loss| &&
    forall k :: 0 <= k < |pct| ==> pct[k] == PctChange(loss[..|loss| - |pct| + k + 1])
  }

  lemma PctTracksAppend(loss: seq<real>, pct: seq<Pct>, x: real)
    requires PctTracks(loss, pct)
    ensures PctTracks(loss + [x], pct + [PctChange(loss + [x])])
  {
    var loss', pct' := loss + [x], pct + [PctChange(loss + [x])];
    forall k | 0 <= k < |pct'|
      ensures pct'[k] == PctChange(loss'[..|loss'| - |pct'| + k + 1])
    {
      if k < |pct| {
        assert loss'[..|loss'| - |pct'| + k + 1] == loss[..|loss| - |pct| + k + 1];
      } else {
        assert loss'[..|loss'| - |pct'| + k + 1] == loss';
      }
    }
  }

  /** A run keeps the percent changes in step with the loss history. */
  lemma {:induction false} RunKeepsPctInStep(cfg: Config, lossAt: int -> real, t: int, loss: seq<real>, pct: seq<Pct>)
    requires PctTracks(loss, pct)
    ensures PctTracks(Run(cfg, lossAt, t, loss, pct).loss, Run(cfg, lossAt, t, loss, pct).pct)
    decreases cfg.maxIter - t
  {
    if t >= cfg.maxIter || cfg.checkFreq == 0 {
    } else if t % cfg.checkFreq != 0 {
      RunKeepsPctInStep(cfg, lossAt, t + 1, loss, pct);
    } else {
      var loss' := loss + [lossAt(t)];
      var pct' := pct + [PctChange(loss')];
      PctTracksAppend(loss, pct, lossAt(t));
      match Decide(cfg, t, loss', pct')
      case Continue =>
        RunKeepsPctInStep(cfg, lossAt, t + 1, loss', pct');
      case Stop(o) =>
    }
  }

  /**
   * The percent changes of a whole run that starts from the loss history
   * `history`: one per appended loss; the k-th is 100 when no loss was
   * recorded before it, and otherwise 100 * (curr - prev) / |prev| where
   * prev is the loss recorded just before, possibly by an earlier run.
   */
  lemma PercentChangesOfRun(cfg: Config, lossAt: int -> real, history: seq<real>)
    ensures var r := Run(cfg, lossAt, 0, history, []);
      && |r.pct| == |r.loss| - |history|
      && r.loss[..|history|] == history
      && (forall k :: 0 <= k < |r.pct| && |history| + k == 0 ==> r.pct[k] == Pct(100.0))
      && (forall k :: 0 <= k < |r.pct| && |history| + k > 0 ==>
            r.pct[k] == PctBetween(r.loss[|history| + k - 1], r.loss[|history| + k]))
  {
    var r := Run(cfg, lossAt, 0, history, []);
    ContinuedRunPrefix(cfg, lossAt, 0, history, []);
    RunKeepsPctInStep(cfg, lossAt, 0, history, []);
    assert |r.pct| == |r.loss| - |history| by {
      RunRecordsOneLossPerCheck(cfg, lossAt, 0, history, []);
    }
    forall k | 0 <= k < |r.pct|
      ensures |history| + k == 0 ==> r.pct[k] == Pct(100.0)
      ensures |history| + k > 0 ==> r.pct[k] == PctBetween(r.loss[|history| + k - 1], r.loss[|history| + k])
    {
      var upto := r.loss[..|history| + k + 1];
      assert r.pct[k] == PctChange(upto);
      assert |history| + k > 0 ==> upto[|upto| - 2] == r.loss[|history| + k - 1];
      assert upto[|upto| - 1] == r.loss[|history| + k];
    }
  }

  /** A run result that ends with a stop or an IndexError ended at a check whose decision was exactly that. */
  ghost predicate EndsAtStopDecision(cfg: Config, t: int, r: RunResult) {
    r.outcome.Converged? || r.outcome.GettingWorse? || r.outcome == Raised(IndexError) ==>
      && t < r.upto && cfg.checkFreq != 0 && (r.upto - 1) % cfg.checkFreq == 0
      && |r.loss| >= 1 && |r.pct| >= 1
      && Decide(cfg, r.upto - 1, r.loss, r.pct) == Stop(r.outcome)
  }

  /** A run that ends with a stop or an IndexError ended at a check whose decision was exactly that. */
  lemma {:induction false} RunEndsAtStopDecision(cfg: Config, lossAt: int -> real, t: int, loss: seq<real>, pct: seq<Pct>)
    ensures var r := Run(cfg, lossAt, t, loss, pct);
      r.outcome.Converged? || r.outcome.GettingWorse? || r.outcome == Raised(IndexError) ==>
        && t < r.upto && cfg.checkFreq != 0 && (r.upto - 1) % cfg.checkFreq == 0
        && |r.loss| >= 1 && |r.pct| >= 1
        && Decide(cfg, r.upto - 1, r.loss, r.pct) == Stop(r.outcome)
    decreases cfg.maxIter - t
  {
    var r := Run(cfg, lossAt, t, loss, pct);
    if t >= cfg.maxIter || cfg.checkFreq == 0 {
    } else if t % cfg.checkFreq != 0 {
      RunEndsAtStopDecision(cfg, lossAt, t + 1, loss, pct);
      assert r == Run(cfg, lossAt, t + 1, loss, pct);
      assert EndsAtStopDecision(cfg, t + 1, r);
    } else {
      var loss' := loss + [lossAt(t)];
      var pct' := pct + [PctChange(loss')];
      var d := Decide(cfg, t, loss', pct');
      if d == Continue {
        RunEndsAtStopDecision(cfg, lossAt, t + 1, loss', pct');
        assert r == Run(cfg, lossAt, t + 1, loss', pct');
        assert EndsAtStopDecision(cfg, t + 1, r);
      } else {
        assert r == RunResult(d.outcome, loss', pct', t + 1);
      }
    }
  }

  /**
   * A run ends with a stop only at a check iteration where stopping is
   * allowed (more than three losses, t >= min_iter); a convergence stop
   * only when the convergence test holds; a getting-worse stop only when
   * the convergence test fails and `loss[-better_than_n_ago]`
   * and the previous one are both smaller in magnitude than the current.
   */
  lemma RunStopsOnlyWhenAllowed(cfg: Config, lossAt: int -> real, t: int, loss: seq<real>, pct: seq<Pct>)
    ensures var r := Run(cfg, lossAt, t, loss, pct);
      && (r.outcome.Converged? || r.outcome.GettingWorse? || r.outcome == Raised(IndexError) ==>
            && t < r.upto && cfg.checkFreq != 0 && (r.upto - 1) % cfg.checkFreq == 0
            && StopAllowed(cfg, r.upto - 1, r.loss))
      && (r.outcome.Converged? ==> |r.pct| >= 2 && ConvergedTest(r.loss, r.pct, cfg.epsilon))
      && (r.outcome.GettingWorse? ==>
            && |r.pct| >= 2 && !ConvergedTest(r.loss, r.pct, cfg.epsilon)
            && cfg.betterThanNAgo != 0 && |r.loss| > cfg.betterThanNAgo
            && NAgo(r.loss, cfg.betterThanNAgo).Some?
            && WorseTest(r.loss, NAgo(r.loss, cfg.betterThanNAgo).value))
      && (r.outcome == Raised(IndexError) ==>
            |r.pct| < 2 ||
            (cfg.betterThanNAgo != 0 && |r.loss| > cfg.betterThanNAgo && NAgo(r.loss, cfg.betterThanNAgo).None?))
  {
    RunEndsAtStopDecision(cfg, lossAt, t, loss, pct);
  }

  /**
   * The run from iteration t stops at the first check whose decision is a
   * stop: one loss and one percent change per check, and at every check
   * before the last one recorded (and at the last one too when all
   * iterations ran), the decision was to continue.
   */
  ghost predicate ContinuesUntilStop(cfg: Config, lossAt: int -> real, t: int, loss: seq<real>, pct: seq<Pct>) {
    var r := Run(cfg, lossAt, t, loss, pct);
    var ts := Checks(t, r.upto, cfg.checkFreq);
    |r.loss| == |loss| + |ts| && |r.pct| == |pct| + |ts| &&
    ContinuedAt(cfg, ts, r.loss, r.pct, |loss|, |pct|, r.outcome == Exhausted)
  }

  /** Every run continues until its first stop decision. */
  lemma {:induction false} RunContinuesUntilStop(cfg: Config, lossAt: int -> real, t: int, loss: seq<real>, pct: seq<Pct>)
    ensures ContinuesUntilStop(cfg, lossAt, t, loss, pct)
    decreases cfg.maxIter - t
  {
    if t >= cfg.maxIter || cfg.checkFreq == 0 {
      var r := Run(cfg, lossAt, t, loss, pct);
      assert Checks(t, r.upto, cfg.checkFreq) == [];
    } else if t % cfg.checkFreq != 0 {
      RunContinuesUntilStop(cfg, lossAt, t + 1, loss, pct);
      SkipContinues(cfg, lossAt, t, loss, pct);
    } else {
      var loss' := loss + [lossAt(t)];
      var pct' := pct + [PctChange(loss')];
      if Decide(cfg, t, loss', pct') == Continue {
        RunContinuesUntilStop(cfg, lossAt, t + 1, loss', pct');
        CheckContinues(cfg, lossAt, t, loss, pct);
      } else {
        StopContinues(cfg, lossAt, t, loss, pct);
      }
    }
  }

  /** The step of RunContinuesUntilStop past an iteration that is not a check. */
  lemma SkipContinues(cfg: Config, lossAt: int -> real, t: int, loss: seq<real>, pct: seq<Pct>)
    requires t < cfg.maxIter && cfg.checkFreq != 0 && t % cfg.checkFreq != 0
    requires ContinuesUntilStop(cfg, lossAt, t + 1, loss, pct)
    ensures ContinuesUntilStop(cfg, lossAt, t, loss, pct)
  {
    var r := Run(cfg, lossAt, t, loss, pct);
    assert r == Run(cfg, lossAt, t + 1, loss, pct);
    assert Checks(t, r.upto, cfg.checkFreq) == Checks(t + 1, r.upto, cfg.checkFreq);
  }

  /** The step of RunContinuesUntilStop past a check that decided to continue. */
  lemma CheckContinues(cfg: Config, lossAt: int -> real, t: int, loss: seq<real>, pct: seq<Pct>)
    requires t < cfg.maxIter && cfg.checkFreq != 0 && t % cfg.checkFreq == 0
    requires Decide(cfg, t, loss + [lossAt(t)], pct + [PctChange(loss + [lossAt(t)])]) == Continue
    requires ContinuesUntilStop(cfg, lossAt, t + 1, loss + [lossAt(t)], pct + [PctChange(loss + [lossAt(t)])])
    ensures ContinuesUntilStop(cfg, lossAt, t, loss, pct)
  {
    var loss' := loss + [lossAt(t)];
    var pct' := pct + [PctChange(loss')];
    var r := Run(cfg, lossAt, t, loss, pct);
    assert r == Run(cfg, lossAt, t + 1, loss', pct');
    ContinuedRunPrefix(cfg, lossAt, t + 1, loss', pct');
    var rest := Checks(t + 1, r.upto, cfg.checkFreq);
    assert Checks(t, r.upto, cfg.checkFreq) == [t] + rest;
    assert r.loss[..|loss| + 1] == loss';
    assert r.pct[..|pct| + 1] == pct';
    ContinueStep(cfg, t, rest, r.loss, r.pct, |loss|, |pct|, r.outcome == Exhausted);
  }

  /** The step of RunContinuesUntilStop at a check that decided to stop: the run ends there. */
  lemma StopContinues(cfg: Config, lossAt: int -> real, t: int, loss: seq<real>, pct: seq<Pct>)
    requires t < cfg.maxIter && cfg.checkFreq != 0 && t % cfg.checkFreq == 0
    requires Decide(cfg, t, loss + [lossAt(t)], pct + [PctChange(loss + [lossAt(t)])]).Stop?
    ensures ContinuesUntilStop(cfg, lossAt, t, loss, pct)
  {
    var r := Run(cfg, lossAt, t, loss, pct);
    assert Checks(t, r.upto, cfg.checkFreq) == [t];
  }

  /**
   * Every check in ts decided to continue, the last one only when `all`
   * holds; the decision at ts[j] saw the first nl + j + 1 losses and the
   * first np + j + 1 percent changes.
   */
  ghost predicate ContinuedAt(cfg: Config, ts: seq<int>, loss: seq<real>, pct: seq<Pct>, nl: nat, np: nat, all: bool) {
    nl + |ts| <= |loss| && np + |ts| <= |pct| &&
    forall j :: 0 <= j < |ts| && (j < |ts| - 1 || all) ==>
      Decide(cfg, ts[j], loss[..nl + j + 1], pct[..np + j + 1]) == Continue
  }

  /** Prepending a check that decided to continue to a run of continuing checks. */
  lemma ContinueStep(cfg: Config, t: int, rest: seq<int>, loss: seq<real>, pct: seq<Pct>, nl: nat, np: nat, all: bool)
    requires ContinuedAt(cfg, rest, loss, pct, nl + 1, np + 1, all)
    requires Decide(cfg, t, loss[..nl + 1], pct[..np + 1]) == Continue
    ensures ContinuedAt(cfg, [t] + rest, loss, pct, nl, np, all)
  {
    var ts := [t] + rest;
    forall j | 0 <= j < |ts| && (j < |ts| - 1 || all)
      ensures Decide(cfg, ts[j], loss[..nl + j + 1], pct[..np + j + 1]) == Continue
    {
      if j > 0 {
        assert ts[j] == rest[j - 1];
        assert nl + j + 1 == nl + 1 + (j - 1) + 1;
      }
    }
  }

  /** A run only appends: the history and percent changes it started from are prefixes of its result. */
  lemma ContinuedRunPrefix(cfg: Config, lossAt: int -> real, t: int, loss: seq<real>, pct: seq<Pct>)
    ensures var r := Run(cfg, lossAt, t, loss, pct);
      t <= r.upto && |loss| <= |r.loss| && r.loss[..|loss|] == loss && |pct| <= |r.pct| && r.pct[..|pct|] == pct
  {
    RunRecordsOneLossPerCheck(cfg, lossAt, t, loss, pct);
    var r := Run(cfg, lossAt, t, loss, pct);
    assert r.loss[..|loss|] == loss;
  }

  /** With better_than_n_ago == 1, `loss[-1]` is the current loss itself: never a getting-worse stop. */
  lemma OneCheckAgoNeverGetsWorse(cfg: Config, lossAt: int -> real, t: int, loss: seq<real>, pct: seq<Pct>)
    requires cfg.betterThanNAgo == 1
    ensures Run(cfg, lossAt, t, loss, pct).outcome != GettingWorse
  {
    RunStopsOnlyWhenAllowed(cfg, lossAt, t, loss, pct);
  }

  /**
   * On a model with no earlier losses and a non-negative better_than_n_ago,
   * no list read goes out of range: the run never raises IndexError.
   */
  lemma FreshHistoryNeverIndexError(cfg: Config, lossAt: int -> real)
    requires cfg.betterThanNAgo >= 0
    ensures Run(cfg, lossAt, 0, [], []).outcome != Raised(IndexError)
  {
    var r := Run(cfg, lossAt, 0, [], []);
    RunStopsOnlyWhenAllowed(cfg, lossAt, 0, [], []);
    PercentChangesOfRun(cfg, lossAt, []);
    assert |r.pct| == |r.loss|;
  }

  /**
   * On a model that already holds three or more losses, a run with
   * min_iter <= 0 appends one loss at iteration 0 and then raises
   * IndexError reading the second-to-last percent change, which this run
   * has not recorded.
   */
  lemma ReusedHistoryIndexError(cfg: Config, lossAt: int -> real, history: seq<real>)
    requires |history| >= 3 && cfg.minIter <= 0 && 0 < cfg.maxIter && cfg.checkFreq != 0
    ensures Run(cfg, lossAt, 0, history, []).outcome == Raised(IndexError)
    ensures Run(cfg, lossAt, 0, history, []).loss == history + [lossAt(0)]
  {
  }
}
