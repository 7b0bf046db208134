/**
 * The relay's CORS middleware (server/index.mjs): which origins are echoed
 * back, the headers every response carries, and the preflight short cut.
 */
module Cors {
  import opened Js
  import opened Text

  /** ASCII lower-casing, which is all the case-insensitive flag changes for this pattern. */
  function Lower(c: char): char
  {
    if 'A' <= c <= 'Z' then (c as int + 32) as char else c
  }

  predicate SameIgnoringCase(a: string, b: string)
  {
    |a| == |b| && forall i :: 0 <= i < |a| ==> Lower(a[i]) == Lower(b[i])
  }

  predicate AllDigits(s: string)
  {
    forall i :: 0 <= i < |s| ==> IsDigit(s[i])
  }

  /** `s` starts, ignoring case, with `lit` and continues with one or more digits. */
  predicate LiteralThenDigits(s: string, lit: string)
  {
    |lit| < |s| && SameIgnoringCase(s[..|lit|], lit) && AllDigits(s[|lit|..])
  }

  /** The test `/^http:\/\/(localhost|127\.0\.0\.1):\d+$/i.test(origin)`. */
  predicate AllowedOrigin(origin: string)
  {
    LiteralThenDigits(origin, "http://localhost:") || LiteralThenDigits(origin, "http://127.0.0.1:")
  }

  /** `origin` spells `http://<host>:<port>` for a loopback host and a decimal port, ignoring case. */
  predicate LoopbackUrl(origin: string, host: string, port: string)
  {
    && (host == "localhost" || host == "127.0.0.1")
    && port != "" && AllDigits(port)
    && SameIgnoringCase(origin, "http://" + host + ":" + port)
  }

  /** The reference reading of the origin rule. */
  ghost predicate LoopbackOrigin(origin: string)
  {
    exists host, port :: LoopbackUrl(origin, host, port)
  }

  lemma LiteralThenDigitsIff(s: string, lit: string)
    ensures LiteralThenDigits(s, lit)
            <==> exists port :: port != "" && AllDigits(port) && SameIgnoringCase(s, lit + port)
  {
    if LiteralThenDigits(s, lit) {
      var port := s[|lit|..];
      assert s == s[..|lit|] + port;
      assert SameIgnoringCase(s, lit + port);
    }
    if exists port :: port != "" && AllDigits(port) && SameIgnoringCase(s, lit + port) {
      var port :| port != "" && AllDigits(port) && SameIgnoringCase(s, lit + port);
      forall i | 0 <= i < |lit|
        ensures Lower(s[..|lit|][i]) == Lower(lit[i])
      {
        assert (lit + port)[i] == lit[i];
      }
      forall i | |lit| <= i < |s|
        ensures IsDigit(s[i])
      {
        assert (lit + port)[i] == port[i - |lit|];
      }
      assert AllDigits(s[|lit|..]);
    }
  }

  /** For one loopback host: the literal-then-digits test is the existence of a port. */
  lemma HostIff(origin: string, host: string)
    requires host == "localhost" || host == "127.0.0.1"
    ensures LiteralThenDigits(origin, "http://" + host + ":")
            <==> exists port :: LoopbackUrl(origin, host, port)
  {
    var lit := "http://" + host + ":";
    LiteralThenDigitsIff(origin, lit);
    if LiteralThenDigits(origin, lit) {
      var port :| port != "" && AllDigits(port) && SameIgnoringCase(origin, lit + port);
      assert LoopbackUrl(origin, host, port);
    }
  }

  /** The middleware's test accepts exactly the loopback origins. */
  lemma AllowedOriginIff(origin: string)
    ensures AllowedOrigin(origin) <==> LoopbackOrigin(origin)
  {
    assert "http://" + "localhost" + ":" == "http://localhost:";
    assert "http://" + "127.0.0.1" + ":" == "http://127.0.0.1:";
    HostIff(origin, "localhost");
    HostIff(origin, "127.0.0.1");
  }

  const AllowOrigin := "Access-Control-Allow-Origin"
  const AllowMethods := "Access-Control-Allow-Methods"
  const AllowHeaders := "Access-Control-Allow-Headers"

  /** What the middleware does: answer a preflight (`res.sendStatus`), or pass the request on. */
  datatype Outcome =
    | Preflight(status: int, headers: map<string, string>)
    | PassOn(headers: map<string, string>)

  /**
   * The middleware for a request with method `verb` and `Origin` header
   * `origin` (None when absent).
   */
  function Middleware(verb: string, origin: Option<string>): (r: Outcome)
    ensures var o := if origin.Some? then origin.value else "";
            && (AllowOrigin in r.headers <==> LoopbackOrigin(o))
            && (AllowOrigin in r.headers ==> r.headers[AllowOrigin] == o)
    ensures AllowMethods in r.headers && r.headers[AllowMethods] == "GET,POST,OPTIONS"
    ensures AllowHeaders in r.headers && r.headers[AllowHeaders] == "*"
    ensures r.headers.Keys <= {AllowOrigin, AllowMethods, AllowHeaders}
    ensures r.Preflight? <==> verb == "OPTIONS"
    ensures r.Preflight? ==> r.status == 200
  {
    var o := if origin.Some? then origin.value else "";
    AllowedOriginIff(o);
    var base := map[AllowMethods := "GET,POST,OPTIONS", AllowHeaders := "*"];
    var headers := if AllowedOrigin(o) then base[AllowOrigin := o] else base;
    if verb == "OPTIONS" then Preflight(200, headers) else PassOn(headers)
  }

  /** Any decimal port on either loopback host is echoed. */
  lemma LoopbackWithPort(host: string, port: string)
    requires host == "localhost" || host == "127.0.0.1"
    requires port != "" && AllDigits(port)
    ensures AllowedOrigin("http://" + host + ":" + port)
  {
    var o := "http://" + host + ":" + port;
    assert LoopbackUrl(o, host, port);
    AllowedOriginIff(o);
  }

  /** The dev-server origins are echoed. */
  lemma AcceptedOrigins()
    ensures AllowedOrigin("http://localhost:5173")
    ensures AllowedOrigin("http://127.0.0.1:3000")
  {
    assert "http://localhost:5173" == "http://" + "localhost" + ":" + "5173";
    LoopbackWithPort("localhost", "5173");
    assert "http://127.0.0.1:3000" == "http://" + "127.0.0.1" + ":" + "3000";
    LoopbackWithPort("127.0.0.1", "3000");
  }

  /** Case is ignored. */
  lemma UpperCaseOriginAccepted()
    ensures AllowedOrigin("HTTP://LocalHost:8080")
  {
    var o := "HTTP://LocalHost:8080";
    assert o[..17] == "HTTP://LocalHost:";
    assert SameIgnoringCase(o[..17], "http://localhost:");
    assert o[17..] == "8080";
  }

  /** No port, another scheme, a path after the port, or no origin at all: not echoed. */
  lemma RejectedOrigins()
    ensures !AllowedOrigin("http://localhost")
    ensures !AllowedOrigin("https://localhost:5173")
    ensures !AllowedOrigin("http://127.0.0.1:80/x")
    ensures !AllowedOrigin("")
  {
    assert "https://localhost:5173"[..17] == "https://localhost";
    assert "https://localhost:5173"[4] == 's';
    assert "http://127.0.0.1:80/x"[17..][2] == '/';
  }
}
