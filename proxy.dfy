/** Proxy handling of the HTTP sessions: formatting a proxy string into the
    per-scheme dictionary, and the round-robin rotation a session performs
    before each request. */
module Proxy {
  import opened Wrappers
  import opened Text

  /** A proxy string that already names one of the accepted schemes. */
  predicate HasScheme(p: string) {
    "http://" <= p || "https://" <= p || "socks5://" <= p
  }

  /** `format_proxy(proxy)`: both keys carry the same URL; a string without
      an accepted scheme is taken as `host:port` behind `http://`. */
  function FormatProxy(p: string): (r: map<string, string>)
    ensures r.Keys == {"http", "https"}
    ensures r["http"] == r["https"]
    ensures HasScheme(p) ==> r["http"] == p
    ensures !HasScheme(p) ==> r["http"] == "http://" + p
  {
    if "http://" <= p || "https://" <= p then map["http" := p, "https" := p]
    else if "socks5://" <= p then map["http" := p, "https" := p]
    else map["http" := "http://" + p, "https" := "http://" + p]
  }

  /** Every formatted proxy names an accepted scheme. */
  lemma FormatProxyHasScheme(p: string)
    ensures HasScheme(FormatProxy(p)["http"])
  {
    if !HasScheme(p) {
      assert ("http://" + p)[..7] == "http://";
    }
  }

  /** Formatting an already formatted proxy changes nothing. */
  lemma FormatProxyIdempotent(p: string)
    ensures FormatProxy(FormatProxy(p)["http"]) == FormatProxy(p)
  {
    FormatProxyHasScheme(p);
  }

  /** The `proxies` argument of a session: one string, a list of strings,
      or anything else (`None`, a dictionary). */
  datatype ProxyArg = ProxyStr(s: string) | ProxyList(items: seq<string>) | ProxyOther

  /** The entries `proxy_cycle` repeats; empty when the session has no cycle. */
  function ProxyCycle(arg: ProxyArg): (c: seq<map<string, string>>)
    ensures arg.ProxyStr? ==> c == [FormatProxy(arg.s)]
    ensures arg.ProxyList? ==> |c| == |arg.items| && forall k :: 0 <= k < |c| ==> c[k] == FormatProxy(arg.items[k])
    ensures arg.ProxyOther? ==> c == []
  {
    match arg
    case ProxyStr(s) => [FormatProxy(s)]
    case ProxyList(items) => seq(|items|, k requires 0 <= k < |items| => FormatProxy(items[k]))
    case ProxyOther => []
  }

  /** A session has a cycle exactly when it was given a string or a
      non-empty list, and then every entry has both keys. */
  lemma ProxyCycleShape(arg: ProxyArg)
    ensures |ProxyCycle(arg)| > 0 <==> arg.ProxyStr? || (arg.ProxyList? && arg.items != [])
    ensures forall k :: 0 <= k < |ProxyCycle(arg)| ==> ProxyCycle(arg)[k].Keys == {"http", "https"}
  {
  }

  /** The `proxies` a session takes on for one cycle entry: the entry
      itself, except that the `http://localhost` entry means "no proxy". */
  function SessionProxies(entry: map<string, string>): (r: map<string, string>)
    requires "http" in entry
    ensures entry["http"] == "http://localhost" ==> r == map[]
    ensures entry["http"] != "http://localhost" ==> r == entry
  {
    if entry["http"] != "http://localhost" then entry else map[]
  }

  /** `localhost`, with or without its scheme, switches proxying off. */
  lemma LocalhostMeansNoProxy(p: string)
    requires p == "localhost" || p == "http://localhost"
    ensures SessionProxies(FormatProxy(p)) == map[]
  {
    if p == "localhost" {
      assert p[0] == 'l';
      assert "http://"[0] == 'h' && "https://"[0] == 'h' && "socks5://"[0] == 's';
      assert !HasScheme(p);
    } else {
      assert "http://" <= p;
    }
  }

  /** The proxy state of a session (`TLSRotating` or `RequestsRotating`). */
  class RotatingSession {
    /** The entries of `proxy_cycle`; empty when there is no cycle. */
    var cycle: seq<map<string, string>>
    /** The entry `next(proxy_cycle)` returns next. */
    var position: nat
    /** The session's current `proxies`. */
    var proxies: map<string, string>
    /** The number of requests sent so far. */
    ghost var served: nat
    /** How many times the cycle has been gone through completely. */
    ghost var rounds: nat

    /** Round robin: request number `served` takes entry `position`, so
        `position` is `served` modulo the cycle length. */
    ghost predicate Valid()
      reads this
    {
      && (forall k :: 0 <= k < |cycle| ==> "http" in cycle[k])
      && (|cycle| > 0 ==> position < |cycle| && served == rounds * |cycle| + position)
      && (|cycle| == 0 ==> position == 0)
    }

    /** `RotatingProxySession.__init__(proxies)` on a fresh session. */
    constructor (arg: ProxyArg)
      ensures Valid()
      ensures cycle == ProxyCycle(arg) && position == 0 && served == 0 && rounds == 0
      ensures proxies == map[]
    {
      cycle := ProxyCycle(arg);
      position := 0;
      proxies := map[];
      served := 0;
      rounds := 0;
    }

    /** The proxy step at the start of `request`/`execute_request`: take the
        next entry of the cycle, round robin, and make it the session's
        proxies. Without a cycle the proxies are left alone. */
    method Advance()
      requires Valid()
      modifies this
      ensures Valid()
      ensures cycle == old(cycle) && served == old(served) + 1
      ensures |cycle| == 0 ==> proxies == old(proxies) && position == old(position)
      ensures |cycle| > 0 ==> proxies == SessionProxies(cycle[old(position)])
      ensures |cycle| > 0 ==> position == if old(position) + 1 < |cycle| then old(position) + 1 else 0
    {
      if |cycle| > 0 {
        var next := cycle[position];
        if position + 1 < |cycle| {
          position := position + 1;
        } else {
          position := 0;
          rounds := rounds + 1;
        }
        if next["http"] != "http://localhost" {
          proxies := next;
        } else {
          proxies := map[];
        }
      }
      served := served + 1;
    }
  }
}
