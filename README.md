# A verified model of the cdx_toolkit_async request helper

`cdx_toolkit_async/myrequests.py` wraps one HTTP GET to a crawl-index or
archive server in a retry and classification policy. This project models
that policy in Dafny and proves what it promises:

- **Normalisation** (`Prepare`): the `from_ts` query parameter is renamed to
  `from`, `limit` is made an int, and `User-Agent` is filled in when the
  exact key `user-agent` is missing. The caller's two dictionaries are
  changed in place, so they are objects (`ParamDict`, `HeaderDict`), and
  `PrepareParams` is a method proved against the functions
  `NormalizeParams` and `NormalizeHeaders`.
- **Response classification** (`ResponsePolicy.Classify`): a first-match-wins
  decision that yields `Retry(n)`, `Done(n)` or `Fatal(reason)`.
- **Transport errors** (`TransportPolicy.HandleTransportError`): counts the
  failure. It aborts on a DNS failure for an unseen host, or past 100
  failures. Otherwise it returns the new count.
- **Known hostnames** (`Hostnames`): the seeded set, a class whose only
  update adds one host.
- **The retry loop** (`Fetch.RetryLoop`, called by `Fetch.Get`): a `while`
  loop over a finite script of attempt outcomes. It is proved equal to the
  specification `Fetch.Run`, which iterates `Fetch.Step`. `Fetch.Get`
  normalises first and records the hostname after the loop. `FetchProperties` proves what the loop does
  over whole scripts.

The exceptions the helper raises are the constructors of `Errors.Failure`.
A call ends in one of three ways: `Returned`, `Raised` or `OutOfAttempts`.
`OutOfAttempts` means the script ran out while the loop still wanted to
retry. The loop's state includes a count of one-second pauses (`sleeps`),
which stands in for the clock.

What the code does that a reader may not expect:

- A status that `raise_for_status` rejects (a 403, a 501) raises
  `httpx.HTTPStatusError`. That is an `httpx.HTTPError`, so it is caught by
  the unexpected-error branch of the loop. A response rejected this way
  therefore does increment `connect_errors`. It is retried without a pause
  and re-raised at the fifth counted error. Only the responses the
  classifier does not reject leave `connect_errors` alone
  (`Fetch.StepCounters`, `FetchProperties.StatusErrorsReachLimit`).
- The DNS test looks for the resolver's message in the whole diagnostic
  line, which includes the URL and the rendered parameters. The marker in
  the parameters alone makes any transport error fatal for an unseen host
  (`TransportPolicy.MarkerInParamsAborts`).
- Unexpected errors have no counter of their own: they increment
  `connect_errors`, shared with transport errors. After four transport
  errors, a single unexpected error is re-raised.
- The `user-agent` test is case-sensitive. A caller's `User-Agent` is
  overwritten.
- When both `from_ts` and `from` are present, `from_ts` wins.
- The hostname is recorded on every normal exit of the loop. That includes
  carve-outs and redirects, not only 2xx.

## Model

| member | source | states |
|---|---|---|
| `Prepare.NormalizeParams` | cdx_toolkit_async/myrequests.py:40-48 | An empty dict is untouched. It fails exactly when `limit` is present, not an int, and `int()` refuses it. On success: no `from_ts` is left; `from` holds the old `from_ts` (overwriting any `from`), else keeps its old value; `limit` is an int, unchanged if it was one, and the parsed number if it was a string. The key set is as renamed, and every other key is unchanged. |
| `Prepare.ToInt` | cdx_toolkit_async/myrequests.py:46-48 | `int()` keeps an int and refuses `None`. |
| `Prepare.NormalizeHeaders` | cdx_toolkit_async/myrequests.py:50-55 | Headers holding `user-agent` are returned as they are. Otherwise `User-Agent` is `pypi_cdx_toolkit_async/<version>`. At most that key is added, and every other entry is unchanged. |
| `Prepare.NormalizeParamsIdempotent` | cdx_toolkit_async/myrequests.py:40-48 | Normalising normalised parameters changes nothing. |
| `Prepare.NormalizeHeadersIdempotent` | cdx_toolkit_async/myrequests.py:50-55 | Normalising headers twice equals normalising once. |
| `Prepare.CapitalisedUserAgentReplaced` | cdx_toolkit_async/myrequests.py:52-53 | A caller's own `User-Agent` is overwritten when `user-agent` is absent. |
| `Prepare.PrepareParams` | cdx_toolkit_async/myrequests.py:40-55 | The method changes the caller's dicts in place to exactly `NormalizeParams` and `NormalizeHeaders`. A missing header dict becomes a fresh one. When `int()` raises, the rename has already happened and the headers are untouched. |
| `Text.ParseInt` | cdx_toolkit_async/myrequests.py:48 | `int()` on a string: a result is only produced for a nonempty string, a negative result only with a leading `-`, and every nonempty string of ASCII digits is accepted as a nonnegative number. Its inverse is the decimal rendering (`Text.ParseShowInt`). |
| `Text.ParseShowInt` | cdx_toolkit_async/myrequests.py:48 | `int()` on the decimal rendering of any integer gives that integer back. |
| `Text.DigitsValueOfShowNat` | cdx_toolkit_async/myrequests.py:93 | The digits written for a count denote that count. |
| `Text.Contains` | cdx_toolkit_async/myrequests.py:95 | The `in` test: a found part is no longer than the string, and a prefix is always found. `ContainsAt` and `ContainsHasPosition` give both directions against an explicit position. |
| `Text.ContainsAt` | cdx_toolkit_async/myrequests.py:95 | An occurrence of the part at any position satisfies the `in` test. |
| `Text.ContainsHasPosition` | cdx_toolkit_async/myrequests.py:95 | Every `in` match is an occurrence at some position. |
| `Text.ContainsInSuffix` | cdx_toolkit_async/myrequests.py:95 | A part found in the tail of a string is found in the whole. |
| `Text.ContainsInPrefix` | cdx_toolkit_async/myrequests.py:95 | A part found in the head of a string is found in the whole. |
| `ResponsePolicy.Classify` | cdx_toolkit_async/myrequests.py:57-89 | Any carve-out (cdx with 400/404, allow404 with 404, the expected status) gives `Done` with unchanged retries. The result is `Retry` iff the status is in {429,500,502,503,504,509} and no carve-out matched, with retries + 1. Every `Done` keeps retries. The result is `Fatal` iff no carve-out matched and the status is not retryable, not 3xx and not 2xx. The reason is `InvalidRequest` for 400/404 and `StatusError` otherwise. |
| `ResponsePolicy.ExpectedStatusBeatsRetry` | cdx_toolkit_async/myrequests.py:65-67 | An expected status that is also retryable is returned, not retried. |
| `ResponsePolicy.NoCaptureWithoutCarveOutRaises` | cdx_toolkit_async/myrequests.py:82-85 | Without a carve-out, 400 and 404 raise the invalid-request error. |
| `Hostnames.DnsFatal` | cdx_toolkit_async/myrequests.py:34-38 | A DNS failure is fatal only for a host outside the seed or when the set has lost its seed, and a host for which it is not fatal is already recorded, so recording it changes nothing. |
| `Hostnames.SeedNeverDnsFatal` | cdx_toolkit_async/myrequests.py:27-38 | The three seeded hosts never make a DNS failure fatal while the set contains the seed. |
| `Hostnames.RecordedNeverDnsFatal` | cdx_toolkit_async/myrequests.py:34-38 | Once a host is recorded, a DNS failure on it is never fatal. |
| `Hostnames.WithHost` | cdx_toolkit_async/myrequests.py:108-111 | Recording keeps every host and adds exactly the given one. |
| `Hostnames.WithHostIdempotent` | cdx_toolkit_async/myrequests.py:108-111 | Recording the same host twice equals recording it once. |
| `Hostnames.KnownHostnames.constructor` | cdx_toolkit_async/myrequests.py:27-31 | The set starts as the three seeded hosts. |
| `Hostnames.KnownHostnames.Update` | cdx_toolkit_async/myrequests.py:108-111 | The set in place becomes `WithHost` of its old value, so it contains the old set and stays seeded. |
| `TransportPolicy.Diagnostic` | cdx_toolkit_async/myrequests.py:93 | The line starts with the decimal count and ends with the error text. |
| `TransportPolicy.HandleTransportError` | cdx_toolkit_async/myrequests.py:91-106 | A returned count is the input + 1 and at most 100. An input + 1 over 100 always raises. It raises only the invalid-hostname error or the too-many error carrying the diagnostic line. It raises invalid-hostname iff the diagnostic line holds the DNS marker and the host is unseen. Whenever no fatal DNS failure applies (the marker is absent or the host is known), it returns iff input + 1 is at most 100. |
| `TransportPolicy.UnseenHostDnsFailureAborts` | cdx_toolkit_async/myrequests.py:93-97 | A DNS marker in the error text, on an unseen host, raises invalid-hostname whatever the count. |
| `TransportPolicy.MarkerInParamsAborts` | cdx_toolkit_async/myrequests.py:93-97 | The marker in the rendered parameters is enough: any transport error then raises invalid-hostname for an unseen host. |
| `TransportPolicy.SeededHostDnsFailureRetries` | cdx_toolkit_async/myrequests.py:95-106 | A DNS failure on a seeded host under the cap returns input + 1. |
| `Fetch.Step` | cdx_toolkit_async/myrequests.py:121-139 | One iteration: one that goes round again has counted a retry or an error (so the loop cannot spin without counting), and no iteration raises the `limit` error of normalisation. |
| `Fetch.Run` | cdx_toolkit_async/myrequests.py:118-139 | The whole loop over a script: it never raises the `limit` error, and a script used up without an ending has counted at least one retry or error per attempt. |
| `Fetch.RunFrom` | cdx_toolkit_async/myrequests.py:121-139 | The loop from the i-th attempt is one iteration on that attempt followed by the loop from the next one. |
| `Fetch.Iterate` | cdx_toolkit_async/myrequests.py:122-139 | One pass of the loop body, written with the loop's variables, yields exactly `Step`: the response checks, the transport-error handler or the unexpected-error branch, with the same counters, pauses and escaping exception. |
| `Fetch.Fetch` | cdx_toolkit_async/myrequests.py:113-142 | A call raises the `limit` error with nothing attempted exactly when normalisation refuses `limit`. A call whose script ran out has counted at least one retry or error per attempt. |
| `Fetch.CountUnexpected` | cdx_toolkit_async/myrequests.py:135-139 | The branch adds one to `connect_errors` and takes no pause. It re-raises exactly when the count reaches 5. |
| `Fetch.StepCounters` | cdx_toolkit_async/myrequests.py:121-139 | A transport error that is retried leaves `retries` alone, adds one error and one pause. A response the classifier does not reject leaves `connect_errors` alone: it is either a retry (+1 retries, +1 pause) or the returned response. A `raise_for_status` rejection and an unexpected error go through `CountUnexpected`. Any other exception propagates. No raise changes retries or pauses. |
| `Fetch.RetryLoop` | cdx_toolkit_async/myrequests.py:118-139 | The `while retry` loop, started with retries = connect_errors = 0, ends exactly as `Run` does from the start state: the same response, exception, final counters and pauses. |
| `Fetch.Get` | cdx_toolkit_async/myrequests.py:113-144 | The call gives exactly `Fetch`: a refused `limit` raises before any attempt, and otherwise the result is the loop's. The hostname set gains the URL's host iff the call returned a response, and is unchanged when it raised. The caller's dicts are left normalised: the parameters hold `NormalizeParams` of their old value (only renamed when `limit` was refused), and the headers hold `NormalizeHeaders` of theirs (untouched when `limit` was refused). |
| `FetchProperties.RetryableThenSuccess` | cdx_toolkit_async/myrequests.py:67-81 | n retryable statuses (any of them, in any order, none matched by a carve-out) and then a 2xx return the 2xx after exactly n retries and n pauses, with no error counted. There is no cap. |
| `FetchProperties.TransportErrorsReachCap` | cdx_toolkit_async/myrequests.py:99-106 | For any host, when no diagnostic line of the script carries the DNS marker with the host unseen, the 101st transport failure raises the too-many error, after 100 pauses. |
| `FetchProperties.SoftErrorStep` | cdx_toolkit_async/myrequests.py:131-134 | A transport error that is not a fatal DNS failure costs one error and one pause while the count stays within 100, and raises the too-many error with the diagnostic line past it. |
| `FetchProperties.NoFatalDnsTail` | cdx_toolkit_async/myrequests.py:95-97 | If no transport error of a script is a fatal DNS failure, neither is any of its tail, counted from one failure later. |
| `FetchProperties.UnseenHostDnsFailureRaisesAtOnce` | cdx_toolkit_async/myrequests.py:95-97 | A DNS failure on an unseen host raises on its first occurrence, with no pause and the counters untouched. |
| `FetchProperties.SeededHostDnsFailureRetried` | cdx_toolkit_async/myrequests.py:95-106 | A DNS failure on a seeded host is paused on and retried. |
| `FetchProperties.IndexQueryNoCaptures` | cdx_toolkit_async/myrequests.py:58-62 | An index query answered 400/404 returns that response, with both counters unchanged. |
| `FetchProperties.UnexpectedErrorsReachLimit` | cdx_toolkit_async/myrequests.py:135-139 | Unexpected errors re-raise when the shared counter reaches 5, with no pause. |
| `FetchProperties.StatusErrorsReachLimit` | cdx_toolkit_async/myrequests.py:88 | A status rejected by `raise_for_status` is counted as an unexpected error. Five in a fresh call raise it. |
| `FetchProperties.RunCounters` | cdx_toolkit_async/myrequests.py:118-139 | Over any script the counters never decrease. There are at least as many pauses as retries, and no more pauses than retries plus counted errors. A call that does not raise ends with at most 100 counted errors. |

## Left out

- The HTTP request itself (`session.get`, its 30-second timeouts, `follow_redirects=False`): each attempt is an abstract outcome in a finite script. `OutOfAttempts` exists only because the script is finite.
- The ambient session lookup through `contextvars`: there is no session in the model.
- `anyio.sleep(1)`: a pause only increments the `sleeps` counter.
- All logging and its severity levels, including the body dumps at debug level.
- The optional trio and python_socks error types: they are folded into `SoftError`, together with httpx's transport and decoding errors.
- `urlparse(url).hostname`: the caller supplies the host in `Call`, as `NoHost` or a name.
- `repr(params)` in the diagnostic line: the caller supplies it as `paramsText`. The model's maps do not keep Python's insertion order.
- `__version__` (cdx_toolkit_async/__init__.py is not part of this model): it is the `version` parameter.
- The URL inside the invalid-request RuntimeError message: `InvalidRequest` carries only the status.
- Text.ParseInt: rejects some strings Python's `int()` accepts: surrounding whitespace, underscores between digits, non-ASCII digits. Floats are not modelled as parameter values.
- Concurrent calls sharing the hostname set.
- `Raised` records the loop's own variables. When the handler raises, its local increment of `connect_errors` is not written back, as in the source.
