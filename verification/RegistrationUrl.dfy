/** The server URL under which a managed cluster is registered with Argo CD.

    Strings are Go strings byte by byte: a char below 256 stands for one byte.  Escaping follows section 2.1
    (percent-encoding) and section 3.4 (query) of RFC 3986, with '+' for a space as in HTML forms. */
module RegistrationUrl {
  import opened Kube

  predicate IsBytes(s: string) { forall i | 0 <= i < |s| :: s[i] as int < 256 }

  predicate Unreserved(c: char) {
    'a' <= c <= 'z' || 'A' <= c <= 'Z' || '0' <= c <= '9' || c in "-_.~"
  }

  function HexDigit(n: nat): char
    requires n < 16
  {
    if n < 10 then '0' + n as char else 'A' + (n - 10) as char
  }

  function HexValue(c: char): Option<nat> {
    if '0' <= c <= '9' then Some((c - '0') as nat)
    else if 'A' <= c <= 'F' then Some(10 + (c - 'A') as nat)
    else if 'a' <= c <= 'f' then Some(10 + (c - 'a') as nat)
    else None
  }

  function EscapeChar(c: char): string
    requires c as int < 256
  {
    if Unreserved(c) then [c]
    else if c == ' ' then "+"
    else ['%', HexDigit(c as int / 16), HexDigit(c as int % 16)]
  }

  /** url.QueryEscape. */
  function Escape(s: string): string
    requires IsBytes(s)
  {
    if s == "" then "" else EscapeChar(s[0]) + Escape(s[1..])
  }

  /** url.QueryUnescape. */
  function Unescape(s: string): Option<string> {
    if s == "" then Some("")
    else if s[0] == '%' then
      if |s| < 3 || HexValue(s[1]).None? || HexValue(s[2]).None? then None
      else match Unescape(s[3..])
        case None => None
        case Some(rest) => Some([(16 * HexValue(s[1]).value + HexValue(s[2]).value) as char] + rest)
    else match Unescape(s[1..])
      case None => None
      case Some(rest) => Some([if s[0] == '+' then ' ' else s[0]] + rest)
  }

  /** A configured proxy server as url.Parse takes it apart; authority is its host part as written. */
  datatype Origin = Origin(scheme: string, authority: string, hostname: string, port: string, hasUser: bool,
                           path: string, rawQuery: string, forceQuery: bool, fragment: string)
  {
    /** What the parser guarantees. */
    predicate Parsed() { '?' !in authority && '#' !in authority && AllDigits(port) }
  }

  type ParsedOrigin = o: Origin | o.Parsed() witness Origin("", "", "", "", false, "", "", false, "")

  type ByteString = s: string | IsBytes(s) witness ""

  predicate AllDigits(s: string) { forall i | 0 <= i < |s| :: '0' <= s[i] <= '9' }

  function Number(digits: string): nat
    requires AllDigits(digits)
  {
    if digits == "" then 0
    else 10 * Number(digits[..|digits| - 1]) + (digits[|digits| - 1] - '0') as nat
  }

  /** An HTTPS origin and nothing more. */
  predicate IsAcceptedOrigin(o: Origin)
    requires o.Parsed()
  {
    && o.scheme == "https" && o.hostname != "" && !o.hasUser && o.path in ["", "/"]
    && o.rawQuery == "" && !o.forceQuery && o.fragment == ""
    && (o.port != "" ==> 1 <= Number(o.port) <= 65535)
  }

  const AGENT_NAME := "agentName"

  /** server is None when no proxy server is configured; the answer is None when the configured one is refused. */
  function ServerUrl(server: Option<Origin>, cluster: string): Option<string>
    requires IsBytes(cluster) && (server.Some? ==> server.value.Parsed())
  {
    match server
    case None => Some("https://" + cluster + "-control-plane")
    case Some(o) =>
      if IsAcceptedOrigin(o) then Some("https://" + o.authority + o.path + "?" + AGENT_NAME + "=" + Escape(cluster)) else None
  }

  // ---- Reading the name back ----

  /** What comes before the first c, and what comes after it, if it occurs. */
  function Cut(s: string, c: char): (string, Option<string>) {
    if s == "" then ("", None)
    else if s[0] == c then ("", Some(s[1..]))
    else var (before, after) := Cut(s[1..], c); ([s[0]] + before, after)
  }

  lemma {:induction false} CutAt(a: string, c: char, b: string)
    requires c !in a
    ensures Cut(a + [c] + b, c) == (a, Some(b)) && Cut(a, c) == (a, None)
  {
    if a == "" {
      assert a + [c] + b == [c] + b;
      assert ([c] + b)[1..] == b;
    } else {
      assert (a + [c] + b)[1..] == a[1..] + [c] + b;
      CutAt(a[1..], c, b);
      assert a == [a[0]] + a[1..] && (a + [c] + b)[0] == a[0] != c;
    }
  }

  lemma CutShorter(s: string, c: char)
    ensures Cut(s, c).1.Some? ==> |Cut(s, c).1.value| < |s|
  {
  }

  /** Value of the first parameter of that name in a query. */
  function Parameter(query: string, name: string): Option<string>
    decreases |query|
  {
    var (pair, others) := Cut(query, '&');
    var (key, value) := Cut(pair, '=');
    if Unescape(key) == Some(name) then Unescape(if value.Some? then value.value else "")
    else if others.Some? then CutShorter(query, '&'); Parameter(others.value, name)
    else None
  }

  /** Value of a query parameter of a URL. */
  function QueryValue(url: string, name: string): Option<string> {
    var (_, query) := Cut(Cut(url, '#').0, '?');
    if query.Some? then Parameter(query.value, name) else None
  }

  function AgentName(url: string): Option<string> { QueryValue(url, AGENT_NAME) }

  lemma HexBack(n: nat)
    requires n < 16
    ensures HexValue(HexDigit(n)) == Some(n)
  {
  }

  lemma EscapeCharSafe(c: char)
    requires c as int < 256
    ensures forall d | d in EscapeChar(c) :: d !in "&=#?"
  {
  }

  lemma {:induction false} EscapeSafe(s: string)
    requires IsBytes(s)
    ensures forall d | d in Escape(s) :: d !in "&=#?"
  {
    if s != "" {
      EscapeCharSafe(s[0]);
      EscapeSafe(s[1..]);
    }
  }

  /** Unescaping undoes escaping for every byte string. */
  lemma {:induction false} UnescapeEscape(s: string)
    requires IsBytes(s)
    ensures Unescape(Escape(s)) == Some(s)
  {
    if s != "" {
      var c, rest := s[0], Escape(s[1..]);
      UnescapeEscape(s[1..]);
      assert s == [c] + s[1..];
      if Unreserved(c) || c == ' ' {
        assert Escape(s)[1..] == rest;
      } else {
        var n := c as int;
        HexBack(n / 16);
        HexBack(n % 16);
        assert Escape(s)[3..] == rest;
        assert 16 * (n / 16) + n % 16 == n;
      }
    }
  }

  predicate AllUnreserved(s: string) { forall i | 0 <= i < |s| :: Unreserved(s[i]) }

  lemma {:induction false} UnescapePlain(s: string)
    requires AllUnreserved(s)
    ensures Unescape(s) == Some(s)
  {
    if s != "" {
      UnescapePlain(s[1..]);
      assert s == [s[0]] + s[1..];
    }
  }

  predicate Plain(s: string) { '&' !in s && '=' !in s && '#' !in s && '?' !in s }

  lemma UnreservedIsPlain(s: string)
    requires AllUnreserved(s)
    ensures Plain(s)
  {
  }

  lemma ReadBack(base: string, name: string, value: string)
    requires '?' !in base && '#' !in base && AllUnreserved(name) && Plain(value)
    ensures QueryValue(base + "?" + name + "=" + value, name) == Unescape(value)
  {
    var query := name + "=" + value;
    var url := base + "?" + query;
    UnreservedIsPlain(name);
    UnescapePlain(name);
    CutAt(url, '#', "");
    CutAt(base, '?', query);
    CutAt(query, '&', "");
    CutAt(name, '=', value);
    assert base + ['?'] + query == url == base + "?" + name + "=" + value;
  }

  /** For every accepted origin and every cluster name, the printed URL carries the name. */
  lemma NameRoundTrip(o: Origin, cluster: string)
    requires o.Parsed() && IsAcceptedOrigin(o) && IsBytes(cluster)
    ensures AgentName(ServerUrl(Some(o), cluster).value) == Some(cluster)
  {
    var base := "https://" + o.authority + o.path;
    EscapeSafe(cluster);
    UnescapeEscape(cluster);
    assert AllUnreserved(AGENT_NAME);
    ReadBack(base, AGENT_NAME, Escape(cluster));
  }

  /** Distinct clusters get distinct URLs, behind a shared proxy as in the legacy form. */
  lemma DistinctClustersDistinctUrls(server: Option<Origin>, a: string, b: string)
    requires IsBytes(a) && IsBytes(b) && (server.Some? ==> server.value.Parsed())
    requires ServerUrl(server, a).Some? && ServerUrl(server, a) == ServerUrl(server, b)
    ensures a == b
  {
    match server {
      case Some(o) =>
        NameRoundTrip(o, a);
        NameRoundTrip(o, b);
      case None =>
        var p, q := "https://", "-control-plane";
        assert |p + a + q| == |p + b + q|;
        assert a == (p + a + q)[|p|..|p| + |a|];
        assert b == (p + b + q)[|p|..|p| + |b|];
    }
  }
}
