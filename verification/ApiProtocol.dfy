// The method gate of the API: four blocking rules of the web application firewall,
// read as a predicate on requests and compared with the private ingress.
module ApiProtocol {
  import opened Common
  import opened Text
  import opened Patterns

  /****** Requests ******/

  datatype Uri = Uri(authority: Option<string>, path: string, query: Option<string>)

  const DELIMITERS := {'/', '?', '#'}

  predicate WellFormed(uri: Uri) {
    && (uri.authority.Some? ==> uri.authority.value != "" && forall c | c in uri.authority.value :: c !in DELIMITERS)
    && uri.path != "" && uri.path[0] == '/' && (forall c | c in uri.path :: c != '?')
    && (uri.query.Some? ==> '\n' !in uri.query.value)
  }

  function Scheme(authority: Option<string>): string {
    if authority.Some? then "https://" + authority.value else ""
  }

  function QueryText(query: Option<string>): string {
    if query.Some? then "?" + query.value else ""
  }

  function UriText(uri: Uri): string {
    Scheme(uri.authority) + (uri.path + QueryText(uri.query))
  }

  // Headers are absent or have one value.
  datatype Request = Request(verb: string, host: string, uri: Uri, upgrade: Option<string>, connection: Option<string>,
                             frontDoor: Option<string>)

  /****** Rules of the firewall ******/

  datatype Variable = RequestMethod | RequestUri | RequestHeader

  datatype Selector = Absent | Unset | Named(name: string)

  datatype Pattern = Exactly(text: string) | Expression(re: Regex)

  datatype Condition = Condition(
    variable: Variable, selector: Selector, values: seq<Pattern>, negate: Option<bool>, transforms: Option<seq<string>>)

  // A field of a rule that may be missing, null or a number.
  datatype Number = Missing | NullNumber | Number(value: int)

  datatype RuleType = MatchRule | RateLimitRule | OtherRule

  datatype Rule = Rule(
    name: string, priority: int, enabled: bool, kind: RuleType, block: bool, conditions: seq<Condition>,
    duration: Number, threshold: Number, groupBy: Option<seq<Json>>)

  // The value of a variable; a missing header reads as the empty text.
  function ValueOf(c: Condition, r: Request): string {
    match c.variable
    case RequestMethod => r.verb
    case RequestUri => UriText(r.uri)
    case RequestHeader =>
      if c.selector == Named("Upgrade") && r.upgrade.Some? then r.upgrade.value
      else if c.selector == Named("Connection") && r.connection.Some? then r.connection.value
      else ""
  }

  ghost predicate PatternHolds(p: Pattern, value: string) {
    match p
    case Exactly(text) => value == text
    case Expression(re) => Found(re, value)
  }

  function Read(c: Condition, r: Request): string {
    if c.transforms == Some(["Lowercase"]) then Lower(ValueOf(c, r)) else ValueOf(c, r)
  }

  ghost predicate Holds(c: Condition, r: Request) {
    (exists p | p in c.values :: PatternHolds(p, Read(c, r))) != (c.negate == Some(true))
  }

  ghost predicate Blocks(rule: Rule, r: Request) {
    rule.enabled && rule.block && forall c | c in rule.conditions :: Holds(c, r)
  }

  // The firewall lets a request through when no rule blocks it.
  ghost predicate Passes(rules: seq<Rule>, r: Request) {
    forall rule | rule in rules :: !Blocks(rule, r)
  }

  /****** The four rules ******/

  // ^(https://[^/?#]+)?/(v1/)?responses(\?.*)?$
  function UriPattern(): Regex {
    Cat(Begin, Cat(SchemePattern(), PathPattern()))
  }

  const SEPARATORS := {',', ' ', '\t'}

  // (^|[, \t])upgrade([, \t]|$)
  function ConnectionPattern(): Regex {
    WordPattern("upgrade", SEPARATORS)
  }

  function Get(): Condition {
    Condition(RequestMethod, Absent, [Exactly("GET")], None, None)
  }

  function Block(name: string, priority: int, conditions: seq<Condition>): Rule {
    Rule(name, priority, true, MatchRule, true, conditions, Missing, Missing, None)
  }

  function UnsupportedMethods(): Rule {
    Block("BlockUnsupportedApiMethods", 10,
          [Condition(RequestMethod, Absent, [Exactly("POST"), Exactly("GET")], Some(true), None)])
  }

  function NonResponsesGet(): Rule {
    Block("BlockNonResponsesGet", 11,
          [Get(), Condition(RequestUri, Absent, [Expression(UriPattern())], Some(true), None)])
  }

  function InvalidUpgrade(): Rule {
    Block("BlockInvalidWebSocketUpgrade", 12,
          [Get(), Condition(RequestHeader, Named("Upgrade"), [Exactly("websocket")], Some(true), Some(["Lowercase"]))])
  }

  function InvalidConnection(): Rule {
    Block("BlockInvalidWebSocketConnection", 13,
          [Get(), Condition(RequestHeader, Named("Connection"), [Expression(ConnectionPattern())], Some(true), Some(["Lowercase"]))])
  }

  // api_method_rules.
  function ApiMethodRules(): seq<Rule> {
    [UnsupportedMethods(), NonResponsesGet(), InvalidUpgrade(), InvalidConnection()]
  }

  /****** What they let through ******/

  function HeaderText(value: Option<string>): string {
    if value.Some? then value.value else ""
  }

  // A websocket handshake: the Upgrade header names websocket and Connection lists
  // upgrade, in any case.
  predicate Handshake(r: Request) {
    && Lower(HeaderText(r.upgrade)) == "websocket"
    && "upgrade" in Pieces(Lower(HeaderText(r.connection)), SEPARATORS)
  }

  predicate ResponsesPath(path: string) {
    path == "/responses" || path == "/v1/responses"
  }

  // The tail of the expression: nothing, or a query.
  function QueryPattern(): Regex {
    Cat(Maybe(Cat(Literal("?"), Star(NoneOf({'\n'})))), End)
  }

  function SchemePattern(): Regex {
    Maybe(Cat(Literal("https://"), Some1(NoneOf(DELIMITERS))))
  }

  function PathPattern(): Regex {
    Cat(Literal("/"), Cat(Maybe(Literal("v1/")), Cat(Literal("responses"), QueryPattern())))
  }

  predicate IsQuery(text: string) {
    text == "" || (text[0] == '?' && '\n' !in text)
  }

  lemma EndMatches(s: string, i: nat, j: nat)
    requires i <= j <= |s|
    ensures Matches(End, s, i, j) <==> i == j == |s|
  {
  }

  lemma QueryMatches(s: string, i: nat, j: nat)
    requires i <= j <= |s|
    ensures Matches(QueryPattern(), s, i, j) <==> j == |s| && IsQuery(s[i..])
  {
    hide Matches;
    var any := Star(NoneOf({'\n'}));
    CatMatches(Maybe(Cat(Literal("?"), any)), End, s, i, j);
    forall k: nat | i <= k <= j
      ensures Matches(End, s, k, j) <==> k == j == |s|
      ensures Matches(Maybe(Cat(Literal("?"), any)), s, i, k) <==> i == k || ("?" <= s[i..k] && forall m | i + 1 <= m < k :: s[m] != '\n')
    {
      EndMatches(s, k, j);
      OptionalQuery(s, i, k);
    }
    assert s[i..j] <= s[i..];
    assert i < j ==> s[i..][0] == s[i] && ("?" <= s[i..j] <==> s[i] == '?');
    assert forall m | i <= m < |s| :: s[m] == s[i..][m - i];
    assert Cut(j);
  }

  lemma OptionalQuery(s: string, i: nat, k: nat)
    requires i <= k <= |s|
    ensures Matches(Maybe(Cat(Literal("?"), Star(NoneOf({'\n'})))), s, i, k) <==>
              i == k || ("?" <= s[i..k] && forall m | i + 1 <= m < k :: s[m] != '\n')
  {
    var any := Star(NoneOf({'\n'}));
    LiteralThen("?", any, s, i, k);
    if i < k {
      StarMatches({'\n'}, s, i + 1, k);
      assert s[i..k][0] == s[i..][0] == s[i];
    }
    assert Matches(Maybe(Cat(Literal("?"), any)), s, i, k) <==> Matches(Empty, s, i, k) || Matches(Cat(Literal("?"), any), s, i, k);
  }

  // What follows the scheme: one of the two paths and a query.
  predicate IsTarget(text: string) {
    || ("/responses" <= text && IsQuery(text[10..]))
    || ("/v1/responses" <= text && IsQuery(text[13..]))
  }

  lemma PathMatches(s: string, i: nat, j: nat)
    requires i <= j <= |s|
    ensures Matches(PathPattern(), s, i, j) <==> j == |s| && IsTarget(s[i..])
  {
    hide Matches, QueryPattern, IsQuery;
    var word := Cat(Literal("responses"), QueryPattern());
    LiteralThen("/", Cat(Maybe(Literal("v1/")), word), s, i, j);
    if "/" <= s[i..] && i + 1 <= j {
      MaybeThen("v1/", word, s, i + 1, j);
      WordMatches(s, i + 1, j);
      if i + 4 <= j { WordMatches(s, i + 4, j); }
    }
    Prefixes(s, i);
  }

  lemma WordMatches(s: string, i: nat, j: nat)
    requires i <= j <= |s|
    ensures Matches(Cat(Literal("responses"), QueryPattern()), s, i, j) <==>
              j == |s| && "responses" <= s[i..] && IsQuery(s[i + 9..])
  {
    hide Matches, QueryPattern, IsQuery;
    LiteralThen("responses", QueryPattern(), s, i, j);
    if i + 9 <= j { QueryMatches(s, i + 9, j); }
  }

  lemma Prefixes(s: string, i: nat)
    requires i <= |s|
    ensures "/responses" <= s[i..] <==> "/" <= s[i..] && "responses" <= s[i + 1..]
    ensures "/v1/responses" <= s[i..] <==> "/" <= s[i..] && "v1/" <= s[i + 1..] && "responses" <= s[i + 4..]
    ensures "/responses" <= s[i..] ==> s[i..][10..] == s[i + 10..]
    ensures "/v1/responses" <= s[i..] ==> s[i..][13..] == s[i + 13..]
  {
    PrefixSplit("/", "responses", s, i);
    PrefixSplit("/", "v1/responses", s, i);
    if i + 1 <= |s| { PrefixSplit("v1/", "responses", s, i + 1); }
    assert "/" + "responses" == "/responses" && "/" + "v1/responses" == "/v1/responses" && "v1/" + "responses" == "v1/responses";
  }

  lemma PrefixSplit(a: string, b: string, s: string, i: nat)
    requires i <= |s|
    ensures a + b <= s[i..] <==> a <= s[i..] && b <= s[i + |a|..]
  {
    if a + b <= s[i..] {
      assert s[i..][..|a|] == (a + b)[..|a|] == a;
      assert s[i + |a|..] == s[i..][|a|..] && s[i..][|a|..][..|b|] == (a + b)[|a|..] == b;
    }
    if a <= s[i..] && b <= s[i + |a|..] {
      assert s[i..] == a + s[i + |a|..] && s[i + |a|..] == b + s[i + |a| + |b|..];
    }
  }

  predicate IsScheme(text: string) {
    text == "" || ("https://" <= text && |text| > 8 && forall c | c in text[8..] :: c !in DELIMITERS)
  }

  lemma PrefixOfPrefix(p: string, s: string, j: nat)
    requires |p| <= j <= |s|
    ensures p <= s <==> p <= s[..j]
  {
    assert s[..|p|] == s[..j][..|p|];
  }

  lemma SchemeMatches(s: string, j: nat)
    requires j <= |s|
    ensures Matches(SchemePattern(), s, 0, j) <==> IsScheme(s[..j])
  {
    var name := Some1(NoneOf(DELIMITERS));
    assert Matches(SchemePattern(), s, 0, j) <==> Matches(Empty, s, 0, j) || Matches(Cat(Literal("https://"), name), s, 0, j);
    assert Matches(Empty, s, 0, j) <==> j == 0;
    hide Matches, Some1, Literal;
    LiteralThen("https://", name, s, 0, j);
    assert s[0..] == s;
    if 8 <= j {
      SomeMatches(DELIMITERS, s, 8, j);
      assert s[..j][8..] == s[8..j];
      assert forall m | 8 <= m < j :: s[m] == s[8..j][m - 8];
      PrefixOfPrefix("https://", s, j);
    }
  }

  lemma UriFound(s: string)
    ensures Found(UriPattern(), s) <==> exists k: nat :: Cut(k) && k <= |s| && IsScheme(s[..k]) && IsTarget(s[k..])
  {
    hide Matches, SchemePattern, PathPattern, IsScheme, IsTarget, Found;
    AnchoredFound(Cat(SchemePattern(), PathPattern()), s);
    forall j: nat | j <= |s|
      ensures Matches(Cat(SchemePattern(), PathPattern()), s, 0, j) <==>
                j == |s| && exists k: nat :: Cut(k) && k <= |s| && IsScheme(s[..k]) && IsTarget(s[k..])
    {
      CatMatches(SchemePattern(), PathPattern(), s, 0, j);
      forall k: nat | k <= j
        ensures Matches(SchemePattern(), s, 0, k) <==> IsScheme(s[..k])
        ensures Matches(PathPattern(), s, k, j) <==> j == |s| && IsTarget(s[k..])
      {
        SchemeMatches(s, k);
        PathMatches(s, k, j);
      }
    }
    assert Matches(Cat(SchemePattern(), PathPattern()), s, 0, |s|) <==>
             exists k: nat :: Cut(k) && k <= |s| && IsScheme(s[..k]) && IsTarget(s[k..]);
  }

  // For a well-formed address the expression looks at the path alone.
  lemma UriMatches(uri: Uri)
    requires WellFormed(uri)
    ensures Found(UriPattern(), UriText(uri)) <==> ResponsesPath(uri.path)
  {
    hide Found, UriPattern, IsQuery;
    var s, scheme := UriText(uri), Scheme(uri.authority);
    UriFound(s);
    var n := |scheme|;
    assert s[..n] == scheme && s[n..] == uri.path + QueryText(uri.query);
    SchemeIs(uri);
    if ResponsesPath(uri.path) {
      TargetIs(uri, uri.path);
      assert Cut(n) && IsScheme(s[..n]) && IsTarget(s[n..]);
    }
    if k: nat :| Cut(k) && k <= |s| && IsScheme(s[..k]) && IsTarget(s[k..]) {
      SchemeOnce(uri, k);
      TargetOnce(uri);
    }
  }

  lemma SchemeIs(uri: Uri)
    requires WellFormed(uri)
    ensures IsScheme(Scheme(uri.authority))
  {
    if uri.authority.Some? { assert Scheme(uri.authority)[8..] == uri.authority.value; }
  }

  lemma TargetIs(uri: Uri, path: string)
    requires WellFormed(uri) && ResponsesPath(path)
    ensures IsTarget(path + QueryText(uri.query))
  {
    var text := path + QueryText(uri.query);
    assert text[|path|..] == QueryText(uri.query);
    QueryIs(uri);
  }

  lemma QueryIs(uri: Uri)
    requires WellFormed(uri)
    ensures IsQuery(QueryText(uri.query))
  {
  }

  // The scheme the expression sees ends where the path starts.
  lemma SchemeOnce(uri: Uri, k: nat)
    requires WellFormed(uri) && k <= |UriText(uri)|
    requires IsScheme(UriText(uri)[..k]) && IsTarget(UriText(uri)[k..])
    ensures k == |Scheme(uri.authority)|
  {
    hide IsQuery;
    var s := UriText(uri);
    var target := uri.path + QueryText(uri.query);
    assert s == Scheme(uri.authority) + target;
    assert s[k..] != "" && s[k..][0] == '/';
    if uri.authority.Some? {
      assert s[0] == 'h';
      assert k != 0;
      var a, b := uri.authority.value, s[..k][8..];
      assert s[8..] == a + target && s[8..] == b + s[k..];
      SameRun(a, target, b, s[k..], DELIMITERS);
    } else {
      assert s[0] == '/';
    }
  }

  lemma TargetOnce(uri: Uri)
    requires WellFormed(uri) && IsTarget(uri.path + QueryText(uri.query))
    ensures ResponsesPath(uri.path)
  {
    var text := uri.path + QueryText(uri.query);
    var path := if "/responses" <= text && IsQuery(text[10..]) then "/responses" else "/v1/responses";
    assert text == path + text[|path|..];
    SameRun(uri.path, QueryText(uri.query), path, text[|path|..], {'?'});
  }

  lemma ConnectionMatches(value: string)
    ensures Found(ConnectionPattern(), value) <==> "upgrade" in Pieces(value, SEPARATORS)
  {
    WordIsPiece(value, "upgrade", SEPARATORS);
  }

  // A condition with one value.
  lemma HoldsOne(c: Condition, r: Request, p: Pattern)
    requires c.values == [p]
    ensures Holds(c, r) <==> PatternHolds(p, Read(c, r)) != (c.negate == Some(true))
  {
    assert c.values[0] == p;
  }

  lemma HoldsTwo(c: Condition, r: Request, p: Pattern, q: Pattern)
    requires c.values == [p, q]
    ensures Holds(c, r) <==> (PatternHolds(p, Read(c, r)) || PatternHolds(q, Read(c, r))) != (c.negate == Some(true))
  {
    assert c.values[0] == p && c.values[1] == q;
  }

  lemma BlocksOne(rule: Rule, r: Request, c: Condition)
    requires rule.conditions == [c] && rule.enabled && rule.block
    ensures Blocks(rule, r) <==> Holds(c, r)
  {
    assert rule.conditions[0] == c;
  }

  lemma BlocksTwo(rule: Rule, r: Request, c: Condition, d: Condition)
    requires rule.conditions == [c, d] && rule.enabled && rule.block
    ensures Blocks(rule, r) <==> Holds(c, r) && Holds(d, r)
  {
    assert rule.conditions[0] == c && rule.conditions[1] == d;
  }

  lemma GetHolds(r: Request)
    ensures Holds(Get(), r) <==> r.verb == "GET"
  {
    HoldsOne(Get(), r, Exactly("GET"));
  }

  // The gate: POST anywhere, and GET only as a websocket handshake on the two
  // Responses paths.
  predicate Gate(r: Request) {
    r.verb == "POST" || (r.verb == "GET" && ResponsesPath(r.uri.path) && Handshake(r))
  }

  lemma PassesIsGate(r: Request)
    requires WellFormed(r.uri)
    ensures Passes(ApiMethodRules(), r) <==> Gate(r)
  {
    hide Holds, Blocks, PatternHolds, Pieces, Found, UnsupportedMethods, NonResponsesGet, InvalidUpgrade, InvalidConnection;
    PassesFour(ApiMethodRules(), r);
    MethodRule(r);
    UriRule(r);
    UpgradeRule(r);
    ConnectionRule(r);
  }

  lemma PassesFour(rules: seq<Rule>, r: Request)
    requires |rules| == 4
    ensures Passes(rules, r) <==> !Blocks(rules[0], r) && !Blocks(rules[1], r) && !Blocks(rules[2], r) && !Blocks(rules[3], r)
  {
    hide Blocks;
    assert forall rule | rule in rules :: rule in {rules[0], rules[1], rules[2], rules[3]};
  }

  lemma MethodRule(r: Request)
    ensures Blocks(UnsupportedMethods(), r) <==> r.verb != "POST" && r.verb != "GET"
  {
    var rule := UnsupportedMethods();
    BlocksOne(rule, r, rule.conditions[0]);
    HoldsTwo(rule.conditions[0], r, Exactly("POST"), Exactly("GET"));
  }

  // A rule for GET requests with one more, negated condition.
  lemma BlocksGet(rule: Rule, r: Request, c: Condition, p: Pattern)
    requires rule.conditions == [Get(), c] && rule.enabled && rule.block && c.values == [p] && c.negate == Some(true)
    ensures Blocks(rule, r) <==> r.verb == "GET" && !PatternHolds(p, Read(c, r))
  {
    hide Holds, PatternHolds, Get;
    BlocksTwo(rule, r, Get(), c);
    GetHolds(r);
    HoldsOne(c, r, p);
  }

  lemma UriRule(r: Request)
    requires WellFormed(r.uri)
    ensures Blocks(NonResponsesGet(), r) <==> r.verb == "GET" && !ResponsesPath(r.uri.path)
  {
    hide Found, UriPattern, Blocks;
    var rule := NonResponsesGet();
    BlocksGet(rule, r, rule.conditions[1], Expression(UriPattern()));
    UriMatches(r.uri);
  }

  lemma UpgradeRule(r: Request)
    ensures Blocks(InvalidUpgrade(), r) <==> r.verb == "GET" && Lower(HeaderText(r.upgrade)) != "websocket"
  {
    hide Blocks, Lower, Get;
    var rule := InvalidUpgrade();
    BlocksGet(rule, r, rule.conditions[1], Exactly("websocket"));
  }

  lemma ConnectionRule(r: Request)
    ensures Blocks(InvalidConnection(), r) <==>
              r.verb == "GET" && "upgrade" !in Pieces(Lower(HeaderText(r.connection)), SEPARATORS)
  {
    hide Found, ConnectionPattern, Pieces, Blocks, Lower, Get;
    var rule := InvalidConnection();
    BlocksGet(rule, r, rule.conditions[1], Expression(ConnectionPattern()));
    ConnectionMatches(Lower(HeaderText(r.connection)));
    assert "Connection"[0] != "Upgrade"[0];
  }
}
