/**
 * Small vocabulary shared by the model: optional values, results that may
 * carry one of the exceptions the trainer can raise, and Python's list
 * indexing with negative positions.
 */
module Py {

  datatype Option<+T> = None | Some(value: T) {
    /** The value if present, otherwise `default` (Python's `x if x is not None else default`). */
    function GetOr(default: T): T {
      match this
      case Some(v) => v
      case None => default
    }
  }

  /** Why a `ValueError` was raised while setting up the variational distributions. */
  datatype ValueReason =
    | DpMissingWithFrozenGenes        // dp is None and freeze_genes is set
    | GeneDistributionsMissing        // freeze_genes is set but eta or beta is None

  /** The exceptions that leave the training routines. */
  datatype Error =
    | ValueError(reason: ValueReason)
    | AssertionError                  // an HPF_Gamma built from bad shapes or non-positive entries
    | ZeroDivisionError               // `t % check_freq` with check_freq == 0
    | IndexError                      // a list read past either end

  datatype Result<+T> = Ok(value: T) | Err(error: Error)

  function Abs(x: real): (r: real)
    ensures r >= 0.0 && (r == x || r == -x)
  {
    if x < 0.0 then -x else x
  }

  /**
   * Python's `s[i]`: non-negative positions count from the front, negative
   * ones from the back, and anything else raises IndexError (None here).
   */
  function PyAt<T>(s: seq<T>, i: int): (r: Option<T>)
    ensures r.Some? <==> -|s| <= i < |s|
    ensures 0 <= i < |s| ==> r == Some(s[i])
    ensures -|s| <= i < 0 ==> r == Some(s[|s| + i])
  {
    if 0 <= i < |s| then Some(s[i])
    else if -|s| <= i < 0 then Some(s[|s| + i])
    else None
  }
}
