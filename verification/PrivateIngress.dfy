// The routing rules of the private gateways: what they print and what they admit.
module PrivateIngress {
  import opened Common
  import opened Text
  import opened Patterns
  import opened ApiProtocol

  /****** Rules ******/

  datatype Matcher =
    | Host(name: string)
    | Path(path: string)
    | Method(verb: string)
    | HeaderRegexp(header: string, expression: string, re: Regex)
    | All(parts: seq<Matcher>)
    | Any(parts: seq<Matcher>)
    | Group(inner: Matcher)

  function Joined(parts: seq<Matcher>, separator: string): string {
    if parts == [] then ""
    else if |parts| == 1 then Print(parts[0])
    else
      var last := parts[|parts| - 1];
      Joined(parts[..|parts| - 1], separator) + separator + Print(last)
  }

  function Print(m: Matcher): string {
    match m
    case Host(name) => "Host(`" + name + "`)"
    case Path(path) => "Path(`" + path + "`)"
    case Method(verb) => "Method(`" + verb + "`)"
    case HeaderRegexp(header, expression, _) => "HeaderRegexp(`" + header + "`, `" + expression + "`)"
    case All(parts) => Joined(parts, " && ")
    case Any(parts) => Joined(parts, " || ")
    case Group(inner) => "(" + Print(inner) + ")"
  }

  function HeaderOf(header: string, r: Request): Option<string> {
    if header == "Upgrade" then r.upgrade
    else if header == "Connection" then r.connection
    else if header == "X-Azure-FDID" then r.frontDoor
    else None
  }

  // Expressions are case-insensitive and only match a header that is there.
  ghost predicate Admits(m: Matcher, r: Request) {
    match m
    case Host(name) => r.host == name
    case Path(path) => r.uri.path == path
    case Method(verb) => r.verb == verb
    case HeaderRegexp(header, _, re) => HeaderOf(header, r).Some? && Found(re, Lower(HeaderOf(header, r).value))
    case All(parts) => forall part | part in parts :: Admits(part, r)
    case Any(parts) => exists part | part in parts :: Admits(part, r)
    case Group(inner) => Admits(inner, r)
  }

  function Exact(text: string): Regex {
    Cat(Begin, Cat(Literal(text), End))
  }

  const API_PATHS := ["/chat/completions", "/v1/chat/completions", "/responses", "/v1/responses", "/embeddings", "/v1/embeddings"]
  const WSS_PATHS := ["/responses", "/v1/responses"]

  function Paths(paths: seq<string>): Matcher {
    Group(Any(seq(|paths|, i requires 0 <= i < |paths| => Path(paths[i]))))
  }

  function UpgradeHeader(): Matcher {
    HeaderRegexp("Upgrade", "(?i)^websocket$", Exact("websocket"))
  }

  function ConnectionHeader(): Matcher {
    HeaderRegexp("Connection", "(?i)(^|[, \\t])upgrade([, \\t]|$)", ConnectionPattern())
  }

  function WebSocket(): Matcher {
    All([Method("GET"), Paths(WSS_PATHS), UpgradeHeader(), ConnectionHeader()])
  }

  function ApiProtocols(): Matcher {
    Group(Any([Group(All([Method("POST"), Paths(API_PATHS)])), Group(WebSocket())]))
  }

  function Binding(id: string): Matcher {
    HeaderRegexp("X-Azure-FDID", "(?i)^" + id + "$", Exact(Lower(id)))
  }

  datatype Plane = Api | Admin

  // native_api_rule and native_admin_rule.
  function NativeRule(plane: Plane, host: string, id: Option<string>): Matcher {
    All([Host(host)] + (if plane.Api? then [ApiProtocols()] else []) + (if id.Some? then [Binding(id.value)] else []))
  }

  // native_health_rule.
  function HealthRule(host: string): Matcher {
    All([Host(host), Method("GET"), Path("/readyz")])
  }

  /****** What the rules admit ******/

  lemma ExactFound(text: string, s: string)
    ensures Found(Exact(text), s) <==> s == text
  {
    AnchoredFound(Cat(Literal(text), End), s);
    forall j: nat | j <= |s|
      ensures Matches(Cat(Literal(text), End), s, 0, j) <==> j == |s| && s == text
    {
      LiteralThen(text, End, s, 0, j);
      assert s[0..] == s;
      if text <= s && |text| == |s| { assert s[..|text|] == s; }
    }
    assert Matches(Cat(Literal(text), End), s, 0, |s|) <==> s == text;
  }

  lemma AdmitsAny(paths: seq<string>, r: Request)
    ensures Admits(Paths(paths), r) <==> r.uri.path in paths
  {
    var parts := seq(|paths|, i requires 0 <= i < |paths| => Path(paths[i]));
    assert Paths(paths) == Group(Any(parts));
    if r.uri.path in paths {
      var i :| 0 <= i < |paths| && paths[i] == r.uri.path;
      assert parts[i] in parts && Admits(parts[i], r);
    }
    assert Admits(Group(Any(parts)), r) <==> exists part | part in parts :: Admits(part, r);
  }

  lemma AdmitsTwo(a: Matcher, b: Matcher, r: Request)
    ensures Admits(All([a, b]), r) <==> Admits(a, r) && Admits(b, r)
    ensures Admits(Any([a, b]), r) <==> Admits(a, r) || Admits(b, r)
  {
    assert [a, b][0] == a && [a, b][1] == b;
    assert forall part | part in [a, b] :: part == a || part == b;
  }

  lemma AdmitsFour(a: Matcher, b: Matcher, c: Matcher, d: Matcher, r: Request)
    ensures Admits(All([a, b, c, d]), r) <==> Admits(a, r) && Admits(b, r) && Admits(c, r) && Admits(d, r)
  {
    var parts := [a, b, c, d];
    assert parts[0] == a && parts[1] == b && parts[2] == c && parts[3] == d;
    assert forall part | part in parts :: part in {a, b, c, d};
  }

  lemma AdmitsGroup(m: Matcher, r: Request)
    ensures Admits(Group(m), r) <==> Admits(m, r)
  {
  }

  lemma HeadersAdmit(r: Request)
    ensures Admits(UpgradeHeader(), r) && Admits(ConnectionHeader(), r) <==> Handshake(r)
  {
    hide Pieces, Found, ConnectionPattern, Exact;
    ExactFound("websocket", Lower(HeaderText(r.upgrade)));
    ConnectionMatches(Lower(HeaderText(r.connection)));
    assert "Connection"[0] != "Upgrade"[0];
    assert Lower("") == "";
    assert r.connection.None? ==> "upgrade" !in Pieces("", SEPARATORS) by { EmptyPieces(); }
  }

  lemma EmptyPieces()
    ensures Pieces("", SEPARATORS) == [""] && "upgrade" !in Pieces("", SEPARATORS)
  {
  }

  // The protocol part of the API rule.
  lemma ProtocolsAdmit(r: Request)
    ensures Admits(ApiProtocols(), r) <==>
              (r.verb == "POST" && r.uri.path in API_PATHS) || (r.verb == "GET" && ResponsesPath(r.uri.path) && Handshake(r))
  {
    hide Admits, Handshake, UpgradeHeader, ConnectionHeader, Paths;
    var post := All([Method("POST"), Paths(API_PATHS)]);
    AdmitsGroup(Any([Group(post), Group(WebSocket())]), r);
    AdmitsTwo(Group(post), Group(WebSocket()), r);
    AdmitsGroup(post, r);
    AdmitsGroup(WebSocket(), r);
    AdmitsTwo(Method("POST"), Paths(API_PATHS), r);
    AdmitsFour(Method("GET"), Paths(WSS_PATHS), UpgradeHeader(), ConnectionHeader(), r);
    AdmitsAny(API_PATHS, r);
    AdmitsAny(WSS_PATHS, r);
    HeadersAdmit(r);
    VerbAdmits("GET", r);
    VerbAdmits("POST", r);
  }

  lemma VerbAdmits(verb: string, r: Request)
    ensures Admits(Method(verb), r) <==> r.verb == verb
  {
  }

  predicate FromFrontDoor(id: Option<string>, r: Request) {
    id.Some? ==> r.frontDoor.Some? && Lower(r.frontDoor.value) == Lower(id.value)
  }

  // What the printed rule of either plane admits.
  lemma NativeAdmits(plane: Plane, host: string, id: Option<string>, r: Request)
    ensures Admits(NativeRule(plane, host, id), r) <==>
              r.host == host && (plane.Api? ==> Admits(ApiProtocols(), r)) && FromFrontDoor(id, r)
  {
    hide ApiProtocols, Found, Exact;
    var parts := [Host(host)] + (if plane.Api? then [ApiProtocols()] else []) + (if id.Some? then [Binding(id.value)] else []);
    assert parts[0] == Host(host);
    assert plane.Api? ==> parts[1] == ApiProtocols();
    assert id.Some? ==> parts[|parts| - 1] == Binding(id.value);
    assert forall part | part in parts :: part == Host(host) || (plane.Api? && part == ApiProtocols()) || (id.Some? && part == Binding(id.value));
    if id.Some? { BindingAdmits(id.value, r); }
    assert Admits(All(parts), r) <==> forall part | part in parts :: Admits(part, r);
    assert Admits(Host(host), r) <==> r.host == host;
  }

  lemma BindingAdmits(id: string, r: Request)
    ensures Admits(Binding(id), r) <==> FromFrontDoor(Some(id), r)
  {
    if r.frontDoor.Some? { ExactFound(Lower(id), Lower(r.frontDoor.value)); }
    assert "X-Azure-FDID"[0] != "Upgrade"[0] && "X-Azure-FDID"[0] != "Connection"[0];
  }

  // Everything the API rule admits passes the firewall.
  lemma AdmittedPasses(host: string, id: Option<string>, r: Request)
    requires WellFormed(r.uri) && Admits(NativeRule(Api, host, id), r)
    ensures Passes(ApiMethodRules(), r)
  {
    hide Admits, NativeRule, ApiProtocols, Passes, ApiMethodRules, Handshake, WellFormed;
    NativeAdmits(Api, host, id, r);
    ProtocolsAdmit(r);
    PassesIsGate(r);
  }

  // On GET requests for its host that came through the bound Front Door the two
  // gates agree.
  lemma GatesAgreeOnGet(host: string, id: Option<string>, r: Request)
    requires WellFormed(r.uri) && r.verb == "GET" && r.host == host && FromFrontDoor(id, r)
    ensures Admits(NativeRule(Api, host, id), r) <==> Passes(ApiMethodRules(), r)
  {
    hide Admits, NativeRule, ApiProtocols, Passes, ApiMethodRules, Handshake, WellFormed;
    NativeAdmits(Api, host, id, r);
    ProtocolsAdmit(r);
    PassesIsGate(r);
    assert "GET"[0] != "POST"[0];
  }
}
