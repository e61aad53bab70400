/**
  The transport-error handler (`myrequests_get_handle_error`): counts the
  failure, aborts on a DNS failure for an unseen host or past 100 failures,
  and otherwise lets the loop retry.
 */
module TransportPolicy {

  import Text
  import opened Errors
  import opened Hostnames

  /** The resolver's message for an unknown name. */
  const DnsMarker := "Name or service not known"

  /** The most transport failures a call survives. */
  const MaxTransportFailures := 100

  /**
    The diagnostic line built for logging and raising: the failure count,
    the URL, the parameters as Python renders them, and the error text.
   */
  function Diagnostic(count: nat, url: string, paramsText: string, errText: string): (line: string)
    ensures Text.ShowNat(count) <= line
    ensures |errText| <= |line| && line[|line| - |errText|..] == errText
  {
    Text.ShowNat(count) + " failures for url " + url + " " + paramsText + ": " + errText
  }

  /** The handler either returns the new count or raises. */
  datatype Handled = Recovered(count: nat) | Abort(reason: Failure)

  /**
    Handles one transport error after `count` earlier ones. The DNS test
    looks at the whole diagnostic line, not only at the error text.
   */
  function HandleTransportError(count: nat, url: string, paramsText: string, errText: string,
                                host: Host, known: set<Host>): (h: Handled)
    ensures h.Recovered? ==> h.count == count + 1 && h.count <= MaxTransportFailures
    ensures count + 1 > MaxTransportFailures ==> h.Abort?
    ensures h.Abort? ==>
              || h.reason == InvalidHostname(url)
              || h.reason == TooManyFailures(Diagnostic(count + 1, url, paramsText, errText))
    ensures h == Abort(InvalidHostname(url)) <==>
              Text.Contains(Diagnostic(count + 1, url, paramsText, errText), DnsMarker) && DnsFatal(host, known)
    ensures !(Text.Contains(Diagnostic(count + 1, url, paramsText, errText), DnsMarker) && DnsFatal(host, known)) ==>
              (h.Recovered? <==> count + 1 <= MaxTransportFailures)
  {
    var n := count + 1;
    var message := Diagnostic(n, url, paramsText, errText);
    if Text.Contains(message, DnsMarker) && DnsFatal(host, known) then Abort(InvalidHostname(url))
    else if n > MaxTransportFailures then Abort(TooManyFailures(message))
    else Recovered(n)
  }

  /** A DNS failure on a host never seen before aborts at once, whatever the count. */
  lemma UnseenHostDnsFailureAborts(count: nat, url: string, paramsText: string, errText: string,
                                   host: Host, known: set<Host>)
    requires Text.Contains(errText, DnsMarker) && host !in known
    ensures HandleTransportError(count, url, paramsText, errText, host, known) == Abort(InvalidHostname(url))
  {
    var prefix := Text.ShowNat(count + 1) + " failures for url " + url + " " + paramsText + ": ";
    assert Diagnostic(count + 1, url, paramsText, errText) == prefix + errText;
    Text.ContainsInSuffix(prefix, errText, DnsMarker);
  }

  /**
    The marker found in the rendered parameters, not in the error, is
    enough: any transport error then aborts for an unseen host.
   */
  lemma MarkerInParamsAborts(count: nat, url: string, paramsText: string, errText: string,
                             host: Host, known: set<Host>)
    requires Text.Contains(paramsText, DnsMarker) && host !in known
    ensures HandleTransportError(count, url, paramsText, errText, host, known) == Abort(InvalidHostname(url))
  {
    var prefix := Text.ShowNat(count + 1) + " failures for url " + url + " ";
    var line := Diagnostic(count + 1, url, paramsText, errText);
    var j := Text.ContainsHasPosition(paramsText, DnsMarker);
    assert line == prefix + paramsText + ": " + errText;
    assert line[|prefix| + j..|prefix| + j + |DnsMarker|] == paramsText[j..j + |DnsMarker|];
    Text.ContainsAt(line, DnsMarker, |prefix| + j);
  }

  /** A DNS failure on a seeded host is retried like any other transport error. */
  lemma SeededHostDnsFailureRetries(count: nat, url: string, paramsText: string, errText: string,
                                    host: Host, known: set<Host>)
    requires host in Seed && Seed <= known && count < MaxTransportFailures
    ensures HandleTransportError(count, url, paramsText, errText, host, known) == Recovered(count + 1)
  {
  }
}
