/** Gateway URLs and the two ways the client compares them. */
module Gateways {
  import opened Prelude

  datatype UrlParts = UrlParts(scheme: string, hostname: string, port: string)

  /** A gateway URL: its text without surrounding blanks, and what parsing made of it. */
  datatype Url = Url(text: string, parts: Option<UrlParts>)

  const NO_URL := Url("", None)

  /** Region names are never blank; the empty string means "no region" throughout. */
  type Regions = m: map<string, Url> | "" !in m

  /** The host that identifies a gateway. The port belongs to it unless it is the scheme's own. */
  function HostKey(url: Url): (key: string)
    ensures key == "" <==> url.text == ""
  {
    if url.text == "" then ""
    else if url.parts.None? || url.parts.value.hostname == "" then Lower(url.text)
    else
      var p := url.parts.value;
      var host := Lower(p.hostname);
      if p.port == "" || (p.scheme == "https" && p.port == "443") || (p.scheme == "http" && p.port == "80")
      then host
      else host + ":" + p.port
  }

  /** A port that adds nothing to a host name: none, or the scheme's own. */
  predicate ImpliedPort(p: UrlParts) {
    p.port == "" || (p.scheme == "https" && p.port == "443") || (p.scheme == "http" && p.port == "80")
  }

  /** Host names that agree but for case, and the same port, an implied one being none. */
  predicate SameGateway(p: UrlParts, q: UrlParts) {
    && EqualFold(p.hostname, q.hostname)
    && if ImpliedPort(p) then ImpliedPort(q) else !ImpliedPort(q) && p.port == q.port
  }

  /** An IPv6 address without a port that reads like a shorter one with a port. */
  predicate ReadsLike(p: UrlParts, q: UrlParts) {
    ImpliedPort(p) && !ImpliedPort(q) && Lower(p.hostname) == Lower(q.hostname) + ":" + q.port
  }

  /** Two parsed URLs have one key exactly when they name the same gateway, but for an address with a colon in it
      that reads like another with a port. */
  lemma KeysNameGateways(a: Url, b: Url)
    requires a.text != "" && b.text != "" && a.parts.Some? && b.parts.Some?
    requires a.parts.value.hostname != "" && b.parts.value.hostname != ""
    requires ':' !in a.parts.value.port && ':' !in b.parts.value.port
    ensures var p, q := a.parts.value, b.parts.value;
            && (HostKey(a) == HostKey(b) <==> SameGateway(p, q) || ReadsLike(p, q) || ReadsLike(q, p))
            && (ReadsLike(p, q) ==> ':' in p.hostname)
  {
    var p, q := a.parts.value, b.parts.value;
    SplitsAtTheLastColon(Lower(p.hostname), p.port, Lower(q.hostname), q.port);
    if ReadsLike(p, q) {
      assert Lower(p.hostname)[|q.hostname|] == ':';
      assert p.hostname[|q.hostname|] == ':';
    }
  }

  lemma SplitsAtTheLastColon(x: string, a: string, y: string, b: string)
    requires ':' !in a && ':' !in b
    ensures x + ":" + a == y + ":" + b ==> x == y && a == b
  {
    var s, t := x + ":" + a, y + ":" + b;
    if s == t {
      assert s[|x|] == ':' && t[|y|] == ':';
      assert forall i :: |x| < i < |s| ==> s[i] == a[i - |x| - 1];
      assert forall i :: |y| < i < |t| ==> t[i] == b[i - |y| - 1];
      assert |x| == |y|;
      assert x == s[..|x|] && y == t[..|y|] && a == s[|x| + 1..] && b == t[|y| + 1..];
    }
  }

  /** Compares host names only, so two ports of one host are the same gateway here. */
  predicate SameGatewayHost(a: Url, b: Url) {
    if a.text == "" || b.text == "" then false
    else if a.parts.None? || b.parts.None? then EqualFold(a.text, b.text)
    else EqualFold(a.parts.value.hostname, b.parts.value.hostname)
  }

  /** The two comparisons agree on URLs that do not parse; on parsed ones without a colon in the host name, which
      share a host exactly when their names agree but for case, one key means one host, and one host means one key
      where neither has a port of its own. A blank URL is no gateway to either. */
  lemma ComparisonsAgree(a: Url, b: Url)
    ensures a.text == "" || b.text == "" ==> !SameGatewayHost(a, b)
    ensures a.text != "" && b.text != "" && a.parts.None? && b.parts.None? ==>
              (SameGatewayHost(a, b) <==> Lower(a.text) == Lower(b.text))
              && (HostKey(a) == HostKey(b) <==> SameGatewayHost(a, b))
    ensures a.text != "" && b.text != "" && a.parts.Some? && b.parts.Some? ==>
              var p, q := a.parts.value, b.parts.value;
              && (SameGatewayHost(a, b) <==> Lower(p.hostname) == Lower(q.hostname))
              && (p.hostname != "" && q.hostname != "" && ':' !in p.hostname + q.hostname + p.port + q.port ==>
                    && (HostKey(a) == HostKey(b) ==> SameGatewayHost(a, b))
                    && (p.port == "" && q.port == "" && SameGatewayHost(a, b) ==> HostKey(a) == HostKey(b)))
  {
    if a.text != "" && b.text != "" && a.parts.Some? && b.parts.Some? {
      var p, q := a.parts.value, b.parts.value;
      if p.hostname != "" && q.hostname != "" && ':' !in p.hostname + q.hostname + p.port + q.port {
        assert forall c :: c in p.hostname || c in q.hostname || c in p.port || c in q.port ==>
                             c in p.hostname + q.hostname + p.port + q.port;
        KeysNameGateways(a, b);
        KeysNameGateways(b, a);
      }
    }
  }

  /** Where a tunnel-status heartbeat goes: the serving gateway, and central when it is another host. */
  function StatusReportTargets(server: Url, central: Url): seq<Url> {
    if central.text != "" && !SameGatewayHost(server, central) then [server, central] else [server]
  }

  /** A report target is the serving gateway by host exactly when it is the session URL itself, so
      the heartbeat's two tests for "the gateway serving this session" never disagree. */
  lemma ServingTargetIsSessionUrl(server: Url, central: Url, target: Url)
    requires server.text != ""
    requires target in StatusReportTargets(server, central)
    ensures SameGatewayHost(target, server) <==> target == server
  {
    if target != server {
      assert target == central;
      assert !SameGatewayHost(server, central);
    }
  }

  /** The serving gateway is told first, and central after it exactly when it is on another host; nobody else is. */
  lemma WhoIsTold(server: Url, central: Url)
    requires server.text != ""
    ensures var targets := StatusReportTargets(server, central);
            && targets != [] && targets[0] == server
            && (|targets| > 1 <==> central.text != "" && !SameGatewayHost(server, central))
            && (|targets| > 1 ==> targets == [server, central])
  {
  }

  /** The control plane a roster advertises, if any. */
  function CentralOf(regions: Regions): Url {
    if "central" in regions then regions["central"] else NO_URL
  }
}
