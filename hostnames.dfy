/**
  The process-wide set of hostnames the helper has fetched from
  (`previously_seen_hostnames`), consulted to decide whether a DNS failure
  is a typo (fatal) or a transient resolver problem (retried).
 */
module Hostnames {

  /** `urlparse(url).hostname`: absent for a URL without a network location, else a name. */
  datatype Host = NoHost | Name(name: string)

  /** The hosts of the archive providers the set starts with. */
  const Seed: set<Host> := {Name("commoncrawl.s3.amazonaws.com"), Name("data.commoncrawl.org"), Name("web.archive.org")}

  /** `dns_fatal`: a DNS failure is fatal for a host never seen before. */
  function DnsFatal(host: Host, known: set<Host>): (fatal: bool)
    ensures fatal ==> host !in Seed || !(Seed <= known)
    ensures !fatal ==> WithHost(known, host) == known
  {
    host !in known
  }

  /** The set after recording `host`. */
  function WithHost(known: set<Host>, host: Host): (r: set<Host>)
    ensures known <= r && host in r
    ensures forall h :: h in r && h != host ==> h in known
  {
    if host in known then known else known + {host}
  }

  /** Recording a host twice is recording it once. */
  lemma WithHostIdempotent(known: set<Host>, host: Host)
    ensures WithHost(WithHost(known, host), host) == WithHost(known, host)
  {
  }

  /** A seeded host is never fatal, whatever has been added since. */
  lemma SeedNeverDnsFatal(known: set<Host>, host: Host)
    requires Seed <= known && host in Seed
    ensures !DnsFatal(host, known)
  {
  }

  /** Once recorded, a host is never again fatal. */
  lemma RecordedNeverDnsFatal(known: set<Host>, host: Host)
    ensures !DnsFatal(host, WithHost(known, host))
  {
  }

  /** The module-level set itself: seeded, and only ever grown. */
  class KnownHostnames {
    var hosts: set<Host>

    ghost predicate Valid()
      reads this
    {
      Seed <= hosts
    }

    constructor ()
      ensures Valid() && hosts == Seed
    {
      hosts := Seed;
    }

    /** `myrequests_get_update_seen_hostnames`. */
    method Update(host: Host)
      requires Valid()
      modifies this
      ensures Valid()
      ensures hosts == WithHost(old(hosts), host)
    {
      if host !in hosts {
        hosts := hosts + {host};
      }
    }
  }
}
