/**
 * Go's `error` values as the core sees them. Errors are compared by value here;
 * the one identity the core relies on is the shared give-up sentinel
 * (`results.ErrGiveUpReconciliation`), which is the constructor `GiveUp`.
 */
module Errors {
  datatype Error = Nil | Plain(text: string) | GiveUp

  /**
   * An error other than the sentinel. The cluster calls and checks of this model return
   * only such errors, and the reason the sentinel keeps is one too: the corrected
   * `Results.StoredReason` does not store the sentinel as its own reason. A user hook may
   * return any `Error`, the sentinel included.
   */
  type Reason = e: Error | !e.GiveUp? witness Nil
}
