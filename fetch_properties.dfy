/** What the retry loop guarantees over whole scripts of attempts. */
module FetchProperties {

  import opened Errors
  import opened Hostnames
  import Text
  import opened ResponsePolicy
  import TransportPolicy
  import opened Fetch

  /**
    n retryable statuses (any of them, in any order), then a 2xx: the 2xx
    is returned after exactly n retries and n pauses, and no error is
    counted.
   */
  lemma {:induction false} RetryableThenSuccess(call: Call, known: set<Host>, attempts: seq<Attempt>,
                                                final: int, s: State)
    requires |attempts| > 0
    requires forall i :: 0 <= i < |attempts| - 1 ==>
               && attempts[i].Response? && attempts[i].status in RetryStatuses
               && !CarvedOut(attempts[i].status, call.cdx, call.allow404, call.expectStatus)
    requires attempts[|attempts| - 1] == Response(final)
    requires IsSuccess(final)
    ensures Run(call, known, attempts, s) ==
            Returned(final, State(s.retries + |attempts| - 1, s.connectErrors, s.sleeps + |attempts| - 1))
    decreases |attempts|
  {
    if |attempts| > 1 {
      assert forall i :: 0 <= i < |attempts[1..]| ==> attempts[1..][i] == attempts[i + 1];
      RetryableThenSuccess(call, known, attempts[1..], final, State(s.retries + 1, s.connectErrors, s.sleeps + 1));
    }
  }

  /**
    No transport error of the script, taken as the (c + i + 1)-th failure,
    makes a DNS failure fatal: the host is known, or no diagnostic line
    carries the DNS marker.
   */
  predicate NoFatalDns(call: Call, known: set<Host>, attempts: seq<Attempt>, c: nat) {
    || call.host in known
    || forall i :: 0 <= i < |attempts| && attempts[i].SoftError? ==>
         !Text.Contains(TransportPolicy.Diagnostic(c + i + 1, call.url, call.paramsText, attempts[i].message),
                        TransportPolicy.DnsMarker)
  }

  lemma NoFatalDnsTail(call: Call, known: set<Host>, attempts: seq<Attempt>, c: nat)
    requires |attempts| > 0 && NoFatalDns(call, known, attempts, c)
    ensures NoFatalDns(call, known, attempts[1..], c + 1)
  {
    if call.host !in known {
      forall i | 0 <= i < |attempts[1..]| && attempts[1..][i].SoftError?
        ensures !Text.Contains(TransportPolicy.Diagnostic(c + 1 + i + 1, call.url, call.paramsText, attempts[1..][i].message),
                               TransportPolicy.DnsMarker)
      {
        assert attempts[1..][i] == attempts[i + 1];
      }
    }
  }

  /** A transport error that is not a fatal DNS failure costs one error and one pause, up to the cap. */
  lemma SoftErrorStep(call: Call, known: set<Host>, attempts: seq<Attempt>, s: State)
    requires |attempts| > 0 && attempts[0].SoftError?
    requires NoFatalDns(call, known, attempts, s.connectErrors)
    ensures s.connectErrors + 1 <= TransportPolicy.MaxTransportFailures ==>
              Run(call, known, attempts, s) == Run(call, known, attempts[1..], State(s.retries, s.connectErrors + 1, s.sleeps + 1))
    ensures s.connectErrors + 1 > TransportPolicy.MaxTransportFailures ==>
              Run(call, known, attempts, s) ==
              Raised(TooManyFailures(TransportPolicy.Diagnostic(s.connectErrors + 1, call.url, call.paramsText, attempts[0].message)), s)
  {
    var d := TransportPolicy.Diagnostic(s.connectErrors + 0 + 1, call.url, call.paramsText, attempts[0].message);
    assert call.host in known || !Text.Contains(d, TransportPolicy.DnsMarker);
  }

  /**
    Transport errors that never make a DNS failure fatal: the 101st failure
    of the call raises, after one pause for each of the 100 before it.
   */
  lemma {:induction false} TransportErrorsReachCap(call: Call, known: set<Host>, attempts: seq<Attempt>, s: State)
    requires NoFatalDns(call, known, attempts, s.connectErrors)
    requires s.connectErrors <= TransportPolicy.MaxTransportFailures
    requires |attempts| == TransportPolicy.MaxTransportFailures + 1 - s.connectErrors
    requires forall i :: 0 <= i < |attempts| ==> attempts[i].SoftError?
    ensures Run(call, known, attempts, s) ==
            Raised(TooManyFailures(TransportPolicy.Diagnostic(101, call.url, call.paramsText, attempts[|attempts| - 1].message)),
                   State(s.retries, 100, s.sleeps + 100 - s.connectErrors))
    decreases |attempts|
  {
    SoftErrorStep(call, known, attempts, s);
    if |attempts| > 1 {
      NoFatalDnsTail(call, known, attempts, s.connectErrors);
      TransportErrorsReachCap(call, known, attempts[1..], State(s.retries, s.connectErrors + 1, s.sleeps + 1));
    }
  }

  /** A DNS failure on a host never seen raises on its first occurrence, before any pause. */
  lemma UnseenHostDnsFailureRaisesAtOnce(call: Call, known: set<Host>, attempts: seq<Attempt>, s: State)
    requires |attempts| > 0 && attempts[0].SoftError?
    requires Text.Contains(attempts[0].message, TransportPolicy.DnsMarker) && call.host !in known
    ensures Run(call, known, attempts, s) == Raised(InvalidHostname(call.url), s)
  {
    TransportPolicy.UnseenHostDnsFailureAborts(s.connectErrors, call.url, call.paramsText, attempts[0].message, call.host, known);
  }

  /** A DNS failure on a seeded host is paused on and retried. */
  lemma SeededHostDnsFailureRetried(call: Call, known: set<Host>, attempts: seq<Attempt>, s: State)
    requires |attempts| > 0 && attempts[0].SoftError?
    requires call.host in Seed && Seed <= known
    requires s.connectErrors < TransportPolicy.MaxTransportFailures
    ensures Run(call, known, attempts, s) ==
            Run(call, known, attempts[1..], State(s.retries, s.connectErrors + 1, s.sleeps + 1))
  {
  }

  /** An index query answered 400 or 404 returns that response, with both counters as they were. */
  lemma IndexQueryNoCaptures(call: Call, known: set<Host>, attempts: seq<Attempt>, s: State)
    requires call.cdx && |attempts| > 0 && attempts[0].Response? && attempts[0].status in NoCaptureStatuses
    ensures Run(call, known, attempts, s) == Returned(attempts[0].status, s)
  {
  }

  /**
    Unexpected errors share the transport counter and re-raise when it
    reaches 5, without any pause.
   */
  lemma {:induction false} UnexpectedErrorsReachLimit(call: Call, known: set<Host>, attempts: seq<Attempt>, s: State)
    requires s.connectErrors < UnexpectedLimit
    requires |attempts| == UnexpectedLimit - s.connectErrors
    requires forall i :: 0 <= i < |attempts| ==> attempts[i].UnexpectedError?
    ensures Run(call, known, attempts, s) ==
            Raised(ProtocolError(attempts[|attempts| - 1].message), State(s.retries, UnexpectedLimit, s.sleeps))
    decreases |attempts|
  {
    if |attempts| > 1 {
      UnexpectedErrorsReachLimit(call, known, attempts[1..], State(s.retries, s.connectErrors + 1, s.sleeps));
    }
  }

  /**
    A status that `raise_for_status` rejects and no rule above it handles
    (a 403, a 501) is counted like an unexpected error: after four of them
    in a fresh call the fifth is raised.
   */
  lemma {:induction false} StatusErrorsReachLimit(call: Call, known: set<Host>, attempts: seq<Attempt>,
                                                  code: int, s: State)
    requires Classify(code, 0, call.cdx, call.allow404, call.expectStatus) == Fatal(StatusError(code))
    requires s.connectErrors < UnexpectedLimit
    requires |attempts| == UnexpectedLimit - s.connectErrors
    requires forall i :: 0 <= i < |attempts| ==> attempts[i] == Response(code)
    ensures Run(call, known, attempts, s) == Raised(StatusError(code), State(s.retries, UnexpectedLimit, s.sleeps))
    decreases |attempts|
  {
    if |attempts| > 1 {
      StatusErrorsReachLimit(call, known, attempts[1..], code, State(s.retries, s.connectErrors + 1, s.sleeps));
    }
  }

  /**
    Over any script the counters only grow; there are at least as many
    pauses as retries and no more than retries plus counted errors; and a
    call that did not raise has counted at most 100 errors.
   */
  lemma {:induction false} RunCounters(call: Call, known: set<Host>, attempts: seq<Attempt>, s: State)
    ensures var f := Run(call, known, attempts, s).final;
            && s.retries <= f.retries && s.connectErrors <= f.connectErrors && s.sleeps <= f.sleeps
            && f.retries - s.retries <= f.sleeps - s.sleeps
            && f.sleeps - s.sleeps <= (f.retries - s.retries) + (f.connectErrors - s.connectErrors)
    ensures s.connectErrors <= TransportPolicy.MaxTransportFailures && !Run(call, known, attempts, s).Raised? ==>
              Run(call, known, attempts, s).final.connectErrors <= TransportPolicy.MaxTransportFailures
    decreases |attempts|
  {
    if attempts != [] {
      match Step(call, known, s, attempts[0])
      case Continue(s') =>
        RunCounters(call, known, attempts[1..], s');
      case Finish(r) =>
    }
  }
}
