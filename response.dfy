/**
  The response classifier (`myrequests_get_handle_response`): a
  first-match-wins decision on the status code, the three caller flags and
  the retry counter.
 */
module ResponsePolicy {

  import opened Wrappers
  import opened Errors

  /** Statuses retried after a one-second pause, with no cap on the number of retries. */
  const RetryStatuses: set<int> := {429, 500, 502, 503, 504, 509}

  /** Statuses an index server uses for "no captures found". */
  const NoCaptureStatuses: set<int> := {400, 404}

  /** What the classifier decides: retry, stop with this response, or raise. */
  datatype Verdict = Retry(retries: nat) | Done(retries: nat) | Fatal(reason: Failure)

  /** The three carve-outs that accept a status as a non-error before any other rule. */
  predicate CarvedOut(status: int, cdx: bool, allow404: bool, expected: Option<int>) {
    || (cdx && status in NoCaptureStatuses)
    || (allow404 && status == 404)
    || expected == Some(status)
  }

  predicate IsRedirect(status: int) {
    300 <= status < 400
  }

  /** What `raise_for_status` lets through: every status outside 2xx raises. */
  predicate IsSuccess(status: int) {
    200 <= status < 300
  }

  /**
    Classifies one response. `retries` counts the retryable statuses seen so
    far in this call.
   */
  function Classify(status: int, retries: nat, cdx: bool, allow404: bool, expected: Option<int>): (v: Verdict)
    ensures CarvedOut(status, cdx, allow404, expected) ==> v == Done(retries)
    ensures v.Retry? <==> !CarvedOut(status, cdx, allow404, expected) && status in RetryStatuses
    ensures v.Retry? ==> v.retries == retries + 1
    ensures v.Done? ==> v.retries == retries
    ensures v.Fatal? <==>
              && !CarvedOut(status, cdx, allow404, expected)
              && status !in RetryStatuses
              && !IsRedirect(status)
              && !IsSuccess(status)
    ensures v.Fatal? ==> v.reason == if status in NoCaptureStatuses then InvalidRequest(status) else StatusError(status)
  {
    if cdx && status in NoCaptureStatuses then Done(retries)
    else if allow404 && status == 404 then Done(retries)
    else if expected.Some? && status == expected.value then Done(retries)
    else if status in RetryStatuses then Retry(retries + 1)
    else if status in NoCaptureStatuses then Fatal(InvalidRequest(status))
    else if IsRedirect(status) then Done(retries)
    else if !IsSuccess(status) then Fatal(StatusError(status))
    else Done(retries)
  }

  /** A caller that expects a retryable status gets it back at once instead of a retry. */
  lemma ExpectedStatusBeatsRetry(status: int, retries: nat, cdx: bool, allow404: bool)
    requires status in RetryStatuses
    ensures Classify(status, retries, cdx, allow404, Some(status)) == Done(retries)
  {
  }

  /** Without a carve-out, 400 and 404 raise rather than retry or return. */
  lemma NoCaptureWithoutCarveOutRaises(status: int, retries: nat, expected: Option<int>)
    requires status in NoCaptureStatuses && expected != Some(status)
    ensures Classify(status, retries, false, false, expected) == Fatal(InvalidRequest(status))
  {
  }
}
