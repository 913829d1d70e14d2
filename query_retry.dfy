/** The `retry` option of the query client in client/src/lib/query-client.ts. */
module QueryRetry {
  import opened Wrappers

  /**
   * Whether a failed query is tried again: never for a response with status 401 or 403, and
   * otherwise while fewer than three failures have happened. `status` is `None` for an error
   * without a response.
   */
  function ShouldRetry(failureCount: int, status: Option<int>): (retry: bool)
    ensures status == Some(401) || status == Some(403) ==> !retry
    ensures status != Some(401) && status != Some(403) ==> (retry <==> failureCount < 3)
  {
    if status == Some(401) || status == Some(403) then false else failureCount < 3
  }

  /** Once a query stops being retried it is never retried at a later count. */
  lemma RetryMonotone(n: int, m: int, status: Option<int>)
    requires n <= m
    ensures !ShouldRetry(n, status) ==> !ShouldRetry(m, status)
    ensures ShouldRetry(m, status) ==> ShouldRetry(n, status)
  {
  }

  /** The failure counts at which one error is retried, for counts from `lo` up to `hi`. */
  function RetriedCounts(lo: int, hi: int, status: Option<int>): (n: nat)
    decreases hi - lo
  {
    if lo >= hi then 0 else (if ShouldRetry(lo, status) then 1 else 0) + RetriedCounts(lo + 1, hi, status)
  }

  /** Counting from 0, an error other than 401 or 403 is retried exactly three times. */
  lemma ThreeRetries(hi: int, status: Option<int>)
    requires hi >= 3 && status != Some(401) && status != Some(403)
    ensures RetriedCounts(0, hi, status) == 3
  {
    NoRetriesFrom(3, hi, status);
    assert RetriedCounts(2, hi, status) == 1;
    assert RetriedCounts(1, hi, status) == 2;
  }

  /** A 401 or 403 is never retried, at any count. */
  lemma NeverRetriedWhenRefused(lo: int, hi: int, status: Option<int>)
    requires status == Some(401) || status == Some(403)
    ensures RetriedCounts(lo, hi, status) == 0
  {
    NoRetriesFrom(lo, hi, status);
  }

  lemma {:induction false} NoRetriesFrom(lo: int, hi: int, status: Option<int>)
    requires lo >= 3 || status == Some(401) || status == Some(403)
    ensures RetriedCounts(lo, hi, status) == 0
    decreases hi - lo
  {
    if lo < hi {
      NoRetriesFrom(lo + 1, hi, status);
    }
  }
}
