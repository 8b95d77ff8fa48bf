/**
 * The API's endpoints: each case's path under the base URL and the query items
 * it attaches. The URL is kept as its three parts; percent-encoding and the
 * textual form are `URLComponents`' business.
 */
module Endpoints {
  import opened Wrappers

  datatype Endpoint =
    | Submolts
    | GlobalFeed(sort: string, limit: int)
    | SubmoltFeed(name: string)
    | PostDetail(id: string)
    | Search(query: string)
    | AgentProfile(name: string)

  const BaseUrl: string := "https://www.moltbook.com/api/v1"

  datatype QueryItem = QueryItem(name: string, value: string)

  /** A URL as the client assembles it: the base, the path appended to it, and the query items set on it. */
  datatype Url = Url(base: string, path: string, query: Option<seq<QueryItem>>)

  function Path(e: Endpoint): (p: string)
    ensures |p| > 1 && p[0] == '/'
  {
    match e
    case Submolts => "/submolts"
    case GlobalFeed(_, _) => "/posts"
    case SubmoltFeed(name) => "/submolts/" + name + "/feed"
    case PostDetail(id) => "/posts/" + id
    case Search(_) => "/search"
    case AgentProfile(_) => "/agents/profile"
  }

  /** nil, not an empty list, for the endpoints that take no parameters in the query. */
  function QueryItems(e: Endpoint): (q: Option<seq<QueryItem>>)
    ensures q.None? <==> e.Submolts? || e.SubmoltFeed? || e.PostDetail?
    ensures q.Some? ==> |q.value| > 0
  {
    match e
    case GlobalFeed(sort, limit) => Some([QueryItem("sort", sort), QueryItem("limit", Decimal(limit))])
    case Search(query) => Some([QueryItem("q", query)])
    case AgentProfile(name) => Some([QueryItem("name", name)])
    case _ => None
  }

  function EndpointUrl(e: Endpoint): (u: Url)
    ensures u.base == BaseUrl
  {
    Url(BaseUrl, Path(e), QueryItems(e))
  }

  // `String(Int)`: an optional minus sign, then the decimal digits without leading zeros.

  function DigitChar(d: nat): (c: char)
    requires d < 10
    ensures '0' <= c <= '9' && c as int == '0' as int + d
  {
    "0123456789"[d]
  }

  function DigitValue(c: char): (d: nat)
    requires '0' <= c <= '9'
    ensures d < 10 && DigitChar(d) == c
  {
    (c as int - '0' as int) as nat
  }

  function Digits(n: nat): (s: string)
    ensures |s| > 0 && forall i :: 0 <= i < |s| ==> '0' <= s[i] <= '9'
    ensures s[0] == '0' ==> n == 0
  {
    if n < 10 then [DigitChar(n)] else Digits(n / 10) + [DigitChar(n % 10)]
  }

  function Decimal(n: int): (s: string)
    ensures |s| > 0
    ensures n < 0 <==> s[0] == '-'
  {
    if n < 0 then "-" + Digits(-n) else Digits(n)
  }

  predicate AllDigits(s: string) {
    forall i :: 0 <= i < |s| ==> '0' <= s[i] <= '9'
  }

  /** The value of a string of decimal digits, most significant first. */
  function DigitsValue(s: string): nat
    requires |s| > 0 && AllDigits(s)
  {
    if |s| == 1 then DigitValue(s[0]) else DigitsValue(s[..|s| - 1]) * 10 + DigitValue(s[|s| - 1])
  }

  /** Reads back a decimal integer: an optional minus sign and at least one digit, nothing else. */
  function ParseDecimal(s: string): (r: Option<int>)
    ensures r.Some? ==> |s| > 0
  {
    if |s| > 0 && s[0] == '-' then
      var t := s[1..];
      if |t| > 0 && AllDigits(t) then Some(0 - DigitsValue(t) as int) else None
    else if |s| > 0 && AllDigits(s) then Some(DigitsValue(s))
    else None
  }

  lemma {:induction false} DigitsRoundTrip(n: nat)
    ensures DigitsValue(Digits(n)) == n
  {
    if n >= 10 {
      var s := Digits(n);
      DigitsRoundTrip(n / 10);
      assert s[..|s| - 1] == Digits(n / 10) && s[|s| - 1] == DigitChar(n % 10);
      assert DigitsValue(s) == (n / 10) * 10 + n % 10;
    }
  }

  /** The `limit` query value reads back as the limit the feed was asked for, negative ones included. */
  lemma DecimalRoundTrip(n: int)
    ensures ParseDecimal(Decimal(n)) == Some(n)
  {
    var s := Decimal(n);
    if n < 0 {
      var m: nat := -n;
      assert s == "-" + Digits(m);
      NegativeRoundTrip(m);
      assert 0 - m == n;
    } else {
      assert s == Digits(n);
      NaturalRoundTrip(n);
    }
  }

  lemma NaturalRoundTrip(n: nat)
    ensures ParseDecimal(Digits(n)) == Some(n)
  {
    var d := Digits(n);
    DigitsRoundTrip(n);
    assert AllDigits(d);
    assert d[0] != '-';
  }

  lemma NegativeRoundTrip(m: nat)
    requires m > 0
    ensures ParseDecimal("-" + Digits(m)) == Some(0 - m)
  {
    var d := Digits(m);
    DigitsRoundTrip(m);
    assert ("-" + d)[1..] == d;
    assert AllDigits(d);
  }

  // The inverse of `EndpointUrl`: which endpoint a path and query list were built from.

  predicate HasPrefix(s: string, prefix: string) {
    |prefix| <= |s| && s[..|prefix|] == prefix
  }

  predicate HasSuffix(s: string, suffix: string) {
    |suffix| <= |s| && s[|s| - |suffix|..] == suffix
  }

  /** The endpoint whose request has this path and these query items, if there is one. */
  function Route(path: string, query: Option<seq<QueryItem>>): Option<Endpoint> {
    if query.None? then
      if path == "/submolts" then Some(Submolts)
      else if |path| >= 15 && HasPrefix(path, "/submolts/") && HasSuffix(path, "/feed") then
        Some(SubmoltFeed(path[10..|path| - 5]))
      else if HasPrefix(path, "/posts/") then Some(PostDetail(path[7..]))
      else None
    else
      var items := query.value;
      if path == "/posts" && |items| == 2 && items[0].name == "sort" && items[1].name == "limit" then
        match ParseDecimal(items[1].value)
        case Some(limit) => Some(GlobalFeed(items[0].value, limit))
        case None => None
      else if path == "/search" && |items| == 1 && items[0].name == "q" then Some(Search(items[0].value))
      else if path == "/agents/profile" && |items| == 1 && items[0].name == "name" then Some(AgentProfile(items[0].value))
      else None
  }

  /** Every endpoint's request names that endpoint and no other. */
  lemma RouteInvertsUrl(e: Endpoint)
    ensures Route(Path(e), QueryItems(e)) == Some(e)
  {
    match e
    case Submolts =>
    case GlobalFeed(sort, limit) =>
      DecimalRoundTrip(limit);
    case SubmoltFeed(name) =>
      var p := Path(e);
      assert p[..10] == "/submolts/" && p[|p| - 5..] == "/feed" && p[10..|p| - 5] == name;
      assert p != "/submolts";
    case PostDetail(id) =>
      var p := Path(e);
      assert p[..7] == "/posts/" && p[7..] == id;
      assert p[1] == 'p';
      assert !HasPrefix(p, "/submolts/") && p != "/submolts";
    case Search(_) =>
    case AgentProfile(_) =>
  }

  /** Distinct endpoints never share a URL. */
  lemma UrlInjective(e1: Endpoint, e2: Endpoint)
    requires EndpointUrl(e1) == EndpointUrl(e2)
    ensures e1 == e2
  {
    RouteInvertsUrl(e1);
    RouteInvertsUrl(e2);
  }
}
