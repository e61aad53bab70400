/**
  The retry loop of `myrequests_get`. The network is replaced by a finite
  script of attempt outcomes; the loop consumes one per iteration. `Step`
  and `Run` are the specification of one iteration and of the whole loop;
  `RetryLoop` is the loop itself, proved equal to `Run`, and `Get` is the
  whole call around it.
 */
module Fetch {

  import opened Wrappers
  import opened Errors
  import opened Hostnames
  import Prepare
  import ResponsePolicy
  import TransportPolicy

  /** What one `session.get` produced. */
  datatype Attempt =
    /** A response with this status code. */
    | Response(status: int)
    /** A transport or decoding error (`httpx.TransportError`, `httpx.DecodingError`, a socket or proxy error), with its text. */
    | SoftError(message: string)
    /** Another `httpx.HTTPError` or an `httpcore.ProtocolError`, with its text. */
    | UnexpectedError(message: string)
    /** Any other exception, with its text. */
    | OtherError(message: string)

  /** The fixed inputs of one call. `paramsText` is `repr` of the parameters after normalisation. */
  datatype Call = Call(url: string, host: Host, paramsText: string, cdx: bool, allow404: bool, expectStatus: Option<int>)

  /** The loop's variables, and the number of one-second pauses taken so far. */
  datatype State = State(retries: nat, connectErrors: nat, sleeps: nat)

  const Start := State(0, 0, 0)

  /** The number of counted errors at which an unexpected error is re-raised. */
  const UnexpectedLimit := 5

  /**
    How a call ends: the response returned, the exception raised (with the
    loop's variables at that moment), or the script ran out while the loop
    still wanted another attempt.
   */
  datatype GetResult = Returned(status: int, final: State) | Raised(reason: Failure, final: State) | OutOfAttempts(final: State)

  datatype Next = Continue(next: State) | Finish(result: GetResult)

  /** The `except (httpx.HTTPError, httpcore.ProtocolError)` branch: count, and re-raise at the limit, with no pause. */
  function CountUnexpected(s: State, reason: Failure): (n: Next)
    ensures n.Continue? ==> n.next == s.(connectErrors := s.connectErrors + 1)
    ensures n.Finish? <==> s.connectErrors + 1 >= UnexpectedLimit
    ensures n.Finish? ==> n.result == Raised(reason, s.(connectErrors := s.connectErrors + 1))
  {
    var errors := s.connectErrors + 1;
    if errors >= UnexpectedLimit then Finish(Raised(reason, s.(connectErrors := errors)))
    else Continue(s.(connectErrors := errors))
  }

  /** One iteration of the loop on one attempt. */
  function Step(call: Call, known: set<Host>, s: State, a: Attempt): (n: Next)
    // every iteration that goes round again has counted a retry or an error
    ensures n.Continue? ==> s.retries + s.connectErrors < n.next.retries + n.next.connectErrors
    ensures n.Finish? && n.result.Raised? ==> n.result.reason != LimitNotInt
  {
    match a
    case Response(status) =>
      (match ResponsePolicy.Classify(status, s.retries, call.cdx, call.allow404, call.expectStatus)
       case Retry(r) => Continue(s.(retries := r, sleeps := s.sleeps + 1))
       case Done(r) => Finish(Returned(status, s.(retries := r)))
       case Fatal(reason) =>
         if reason.StatusError? then CountUnexpected(s, reason) else Finish(Raised(reason, s)))
    case SoftError(message) =>
      (match TransportPolicy.HandleTransportError(s.connectErrors, call.url, call.paramsText, message, call.host, known)
       case Recovered(count) => Continue(s.(connectErrors := count, sleeps := s.sleeps + 1))
       case Abort(reason) => Finish(Raised(reason, s)))
    case UnexpectedError(message) => CountUnexpected(s, ProtocolError(message))
    case OtherError(message) => Finish(Raised(Uncaught(message), s))
  }

  /**
    What one iteration does to the counters. A transport error never
    touches the retry counter and a classified response never the error
    counter; a status that `raise_for_status` rejects lands in the
    unexpected-error branch.
   */
  lemma StepCounters(call: Call, known: set<Host>, s: State, a: Attempt)
    ensures a.SoftError? && Step(call, known, s, a).Continue? ==>
              Step(call, known, s, a).next == State(s.retries, s.connectErrors + 1, s.sleeps + 1)
    ensures a.Response? && !ResponsePolicy.Classify(a.status, s.retries, call.cdx, call.allow404, call.expectStatus).Fatal? ==>
              || Step(call, known, s, a) == Continue(State(s.retries + 1, s.connectErrors, s.sleeps + 1))
              || Step(call, known, s, a) == Finish(Returned(a.status, s))
    ensures a.Response? && ResponsePolicy.Classify(a.status, s.retries, call.cdx, call.allow404, call.expectStatus) == ResponsePolicy.Fatal(StatusError(a.status)) ==>
              Step(call, known, s, a) == CountUnexpected(s, StatusError(a.status))
    ensures a.UnexpectedError? ==> Step(call, known, s, a) == CountUnexpected(s, ProtocolError(a.message))
    ensures a.OtherError? ==> Step(call, known, s, a) == Finish(Raised(Uncaught(a.message), s))
    ensures Step(call, known, s, a).Finish? && Step(call, known, s, a).result.Raised? ==>
              Step(call, known, s, a).result.final.retries == s.retries && Step(call, known, s, a).result.final.sleeps == s.sleeps
  {
  }

  /** The whole loop from state `s` over the remaining attempts. */
  function Run(call: Call, known: set<Host>, attempts: seq<Attempt>, s: State): (r: GetResult)
    ensures r.Raised? ==> r.reason != LimitNotInt
    // a script used up without an ending has counted every one of its attempts
    ensures r.OutOfAttempts? ==> s.retries + s.connectErrors + |attempts| <= r.final.retries + r.final.connectErrors
    decreases |attempts|
  {
    if attempts == [] then OutOfAttempts(s)
    else match Step(call, known, s, attempts[0])
      case Continue(s') => Run(call, known, attempts[1..], s')
      case Finish(r) => r
  }

  /** `Run` from the i-th attempt is one `Step` followed by `Run` from the next. */
  lemma RunFrom(call: Call, known: set<Host>, attempts: seq<Attempt>, i: nat, s: State)
    requires i < |attempts|
    ensures Run(call, known, attempts[i..], s) ==
            match Step(call, known, s, attempts[i])
            case Continue(s') => Run(call, known, attempts[i + 1..], s')
            case Finish(r) => r
  {
  }

  /** The whole call: normalisation, then the loop from the start state. */
  function Fetch(call: Call, params: Option<map<string, Prepare.Value>>, attempts: seq<Attempt>, known: set<Host>): (r: GetResult)
    ensures r == Raised(LimitNotInt, Start) <==> params.Some? && Prepare.NormalizeParams(params.value).None?
    ensures r.OutOfAttempts? ==> |attempts| <= r.final.retries + r.final.connectErrors
  {
    if params.Some? && Prepare.NormalizeParams(params.value).None? then Raised(LimitNotInt, Start)
    else Run(call, known, attempts, Start)
  }

  /**
    One pass of the loop body: the request, then the response checks or the
    `except` clause that caught the error, on the loop's variables `s`.
   */
  method Iterate(call: Call, known: set<Host>, s: State, a: Attempt) returns (n: Next)
    ensures n == Step(call, known, s, a)
  {
    var retries, connectErrors, sleeps := s.retries, s.connectErrors, s.sleeps;
    match a {
    case Response(code) =>
      var verdict := ResponsePolicy.Classify(code, retries, call.cdx, call.allow404, call.expectStatus);
      match verdict {
        case Retry(r) =>
          retries, sleeps := r, sleeps + 1;
          n := Continue(State(retries, connectErrors, sleeps));
        case Done(r) =>
          retries := r;
          n := Finish(Returned(code, State(retries, connectErrors, sleeps)));
        case Fatal(reason) =>
          // a RuntimeError escapes the loop; an HTTPStatusError is an httpx.HTTPError
          if !reason.StatusError? {
            return Finish(Raised(reason, s));
          }
          connectErrors := connectErrors + 1;
          if connectErrors >= UnexpectedLimit {
            n := Finish(Raised(reason, State(retries, connectErrors, sleeps)));
          } else {
            n := Continue(State(retries, connectErrors, sleeps));
          }
      }
    case SoftError(message) =>
      var handled := TransportPolicy.HandleTransportError(connectErrors, call.url, call.paramsText, message, call.host, known);
      match handled {
        case Recovered(count) =>
          connectErrors, sleeps := count, sleeps + 1;
          n := Continue(State(retries, connectErrors, sleeps));
        case Abort(reason) =>
          n := Finish(Raised(reason, s));
      }
    case UnexpectedError(message) =>
      connectErrors := connectErrors + 1;
      if connectErrors >= UnexpectedLimit {
        n := Finish(Raised(ProtocolError(message), State(retries, connectErrors, sleeps)));
      } else {
        n := Continue(State(retries, connectErrors, sleeps));
      }
    case OtherError(message) =>
      n := Finish(Raised(Uncaught(message), s));
    }
  }

  /**
    The `while retry` loop of `myrequests_get`: it returns
    the response that stopped it or the exception that escaped it.
   */
  method RetryLoop(call: Call, known: set<Host>, attempts: seq<Attempt>) returns (r: GetResult)
    ensures r == Run(call, known, attempts, Start)
  {
    var retry := true;
    var s := Start;
    var i := 0;
    var status := 0;
    while retry
      invariant i <= |attempts|
      invariant retry ==> Run(call, known, attempts[i..], s) == Run(call, known, attempts, Start)
      invariant !retry ==> Run(call, known, attempts, Start) == Returned(status, s)
      decreases |attempts| - i
    {
      if i == |attempts| {
        return OutOfAttempts(s);
      }
      RunFrom(call, known, attempts, i, s);
      var next := Iterate(call, known, s, attempts[i]);
      match next {
        case Continue(s') =>
          s := s';
        case Finish(Returned(code, s')) =>
          retry, status, s := false, code, s';
        case Finish(escaped) =>
          return escaped;
      }
      i := i + 1;
    }
    r := Returned(status, s);
  }

  /**
    `myrequests_get`: normalise, run the loop, and record the hostname only
    when the loop ends by returning a response; an exception leaves the set
    as it was.
   */
  method Get(call: Call, params: Prepare.ParamDict?, headers: Prepare.HeaderDict?, version: string,
             attempts: seq<Attempt>, known: KnownHostnames)
    returns (r: GetResult)
    requires known.Valid()
    modifies params, headers, known
    ensures known.Valid()
    ensures r == Fetch(call, if params == null then None else Some(old(params.entries)), attempts, old(known.hosts))
    ensures known.hosts == if r.Returned? then WithHost(old(known.hosts), call.host) else old(known.hosts)
    // the caller's own dictionaries are left normalised
    ensures params != null && Prepare.NormalizeParams(old(params.entries)).Some? ==>
              params.entries == Prepare.NormalizeParams(old(params.entries)).value
    ensures params != null && Prepare.NormalizeParams(old(params.entries)).None? ==>
              params.entries == Prepare.RenameFromTs(old(params.entries))
    ensures headers != null ==>
              headers.entries == if params != null && Prepare.NormalizeParams(old(params.entries)).None?
                                 then old(headers.entries)
                                 else Prepare.NormalizeHeaders(old(headers.entries), version)
  {
    var prepared := Prepare.PrepareParams(params, headers, version);
    if prepared.LimitError? {
      return Raised(LimitNotInt, Start);
    }
    r := RetryLoop(call, known.hosts, attempts);
    if r.Returned? {
      known.Update(call.host);
    }
  }
}
