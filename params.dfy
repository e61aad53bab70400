/**
  The request normaliser (`myrequests_get_prepare_params`): renames the
  caller's `from_ts` parameter to `from`, makes `limit` an int, and fills in
  the default `User-Agent` header. It works in place on the caller's two
  dictionaries, so they are objects here.
 */
module Prepare {

  import opened Wrappers
  import Text

  /** A query-parameter value: the Python types the parameters carry. */
  datatype Value = IntV(i: int) | BoolV(b: bool) | StrV(s: string) | NoneV

  const FromTs := "from_ts"
  const From := "from"
  const Limit := "limit"
  const UserAgentLower := "user-agent"
  const UserAgentKey := "User-Agent"

  /** The header value the helper identifies itself with. */
  function UserAgent(version: string): string {
    "pypi_cdx_toolkit_async/" + version
  }

  /** `isinstance(v, int)`: a Python bool is an int too. */
  predicate IsPyInt(v: Value) {
    v.IntV? || v.BoolV?
  }

  /** `int(v)`; `None` stands for the ValueError or TypeError it raises. */
  function ToInt(v: Value): (r: Option<int>)
    ensures v.IntV? ==> r == Some(v.i)
    ensures v.NoneV? ==> r.None?
  {
    match v
    case IntV(i) => Some(i)
    case BoolV(b) => Some(if b then 1 else 0)
    case StrV(s) => Text.ParseInt(s)
    case NoneV => None
  }

  function RenameFromTs(m: map<string, Value>): map<string, Value> {
    if FromTs in m then m[From := m[FromTs]] - {FromTs} else m
  }

  function CoerceLimit(m: map<string, Value>): Option<map<string, Value>> {
    if Limit in m && !IsPyInt(m[Limit]) then
      match ToInt(m[Limit])
      case Some(n) => Some(m[Limit := IntV(n)])
      case None => None
    else Some(m)
  }

  /**
    The parameters after normalisation, or `None` when `int()` raises on the
    limit. An empty dictionary is falsy and left alone.
   */
  function NormalizeParams(m: map<string, Value>): (r: Option<map<string, Value>>)
    ensures m == map[] ==> r == Some(m)
    ensures r.None? <==> Limit in m && !IsPyInt(m[Limit]) && ToInt(m[Limit]).None?
    ensures r.Some? ==> FromTs !in r.value
    ensures r.Some? && FromTs in m ==> From in r.value && r.value[From] == m[FromTs]
    ensures r.Some? && FromTs !in m && From in m ==> From in r.value && r.value[From] == m[From]
    ensures r.Some? && Limit in m ==> Limit in r.value && IsPyInt(r.value[Limit])
    ensures r.Some? && Limit in m && IsPyInt(m[Limit]) ==> r.value[Limit] == m[Limit]
    ensures r.Some? && Limit in m && m[Limit].StrV? ==>
              r.value[Limit] == IntV(Text.ParseInt(m[Limit].s).value)
    ensures r.Some? ==> r.value.Keys == if FromTs in m then m.Keys - {FromTs} + {From} else m.Keys
    ensures r.Some? ==> forall k :: k in m && k != FromTs && k != From && k != Limit ==> r.value[k] == m[k]
  {
    if m == map[] then Some(m) else CoerceLimit(RenameFromTs(m))
  }

  /** The headers after normalisation; the key test is case-sensitive. */
  function NormalizeHeaders(h: map<string, string>, version: string): (r: map<string, string>)
    ensures UserAgentLower in h ==> r == h
    ensures UserAgentLower !in h ==> UserAgentKey in r && r[UserAgentKey] == UserAgent(version)
    ensures r.Keys == h.Keys || r.Keys == h.Keys + {UserAgentKey}
    ensures forall k :: k in h && k != UserAgentKey ==> r[k] == h[k]
  {
    if UserAgentLower in h then h else h[UserAgentKey := UserAgent(version)]
  }

  /** Normalising parameters that were already normalised changes nothing. */
  lemma NormalizeParamsIdempotent(m: map<string, Value>)
    requires NormalizeParams(m).Some?
    ensures NormalizeParams(NormalizeParams(m).value) == NormalizeParams(m)
  {
  }

  /** Normalising headers twice gives what normalising once gave. */
  lemma NormalizeHeadersIdempotent(h: map<string, string>, version: string)
    ensures NormalizeHeaders(NormalizeHeaders(h, version), version) == NormalizeHeaders(h, version)
  {
  }

  /** A caller's own `User-Agent` is replaced, because only the lower-case key is looked for. */
  lemma CapitalisedUserAgentReplaced(h: map<string, string>, version: string)
    requires UserAgentKey in h && UserAgentLower !in h && h[UserAgentKey] != UserAgent(version)
    ensures NormalizeHeaders(h, version)[UserAgentKey] != h[UserAgentKey]
  {
  }

  /** The caller's query-parameter dictionary. */
  class ParamDict {
    var entries: map<string, Value>

    constructor (entries: map<string, Value>)
      ensures this.entries == entries
    {
      this.entries := entries;
    }
  }

  /** The caller's header dictionary. */
  class HeaderDict {
    var entries: map<string, string>

    constructor (entries: map<string, string>)
      ensures this.entries == entries
    {
      this.entries := entries;
    }
  }

  /** What the normaliser hands back: the header dictionary to send, or the limit `int()` refused. */
  datatype Prepared = Ready(headers: HeaderDict) | LimitError(limit: Value)

  /**
    Normalises `params` and `headers` in place. A missing header dictionary
    is replaced by a fresh one. When `int()` raises on the limit, the
    rename has already happened and the headers are not touched.
   */
  method PrepareParams(params: ParamDict?, headers: HeaderDict?, version: string) returns (r: Prepared)
    modifies params, headers
    ensures r.LimitError? <==> params != null && NormalizeParams(old(params.entries)).None?
    ensures params != null && r.Ready? ==> params.entries == NormalizeParams(old(params.entries)).value
    ensures params != null && r.LimitError? ==>
              params.entries == RenameFromTs(old(params.entries)) && r.limit == old(params.entries)[Limit]
    ensures r.Ready? ==> r.headers.entries == NormalizeHeaders(if headers == null then map[] else old(headers.entries), version)
    ensures r.Ready? && headers != null ==> r.headers == headers
    ensures r.Ready? && headers == null ==> fresh(r.headers)
    ensures r.LimitError? && headers != null ==> headers.entries == old(headers.entries)
  {
    if params != null && params.entries != map[] {
      if FromTs in params.entries {
        params.entries := params.entries[From := params.entries[FromTs]];
        params.entries := params.entries - {FromTs};
      }
      if Limit in params.entries {
        var limit := params.entries[Limit];
        if !IsPyInt(limit) {
          match ToInt(limit)
          case None =>
            return LimitError(limit);
          case Some(n) =>
            params.entries := params.entries[Limit := IntV(n)];
        }
      }
    }
    var h := headers;
    if h == null {
      h := new HeaderDict(map[]);
    }
    if UserAgentLower !in h.entries {
      h.entries := h.entries[UserAgentKey := UserAgent(version)];
    }
    r := Ready(h);
  }
}
