// Binding the private gateways to one Front Door: printing its ID into a routing rule
// and reading it back.
module EdgeBinding {
  import opened Common
  import opened Text
  import ApiProtocol
  import opened PrivateIngress
  import opened Domains

  /****** Reading a binding back from a rule ******/

  const MARK := "HeaderRegexp(`X-Azure-FDID`,"
  const OPEN := "`(?i)^"
  const CLOSE := "$`)"

  predicate IdChar(c: char) {
    IsDigit(c) || 'a' <= c <= 'f' || 'A' <= c <= 'F' || c == '-'
  }

  function Run(s: string): (r: string)
    ensures r <= s && (forall c | c in r :: IdChar(c)) && (|r| < |s| ==> !IdChar(s[|r|]))
  {
    if s != "" && IdChar(s[0]) then [s[0]] + Run(s[1..]) else ""
  }

  // A binding at the start of a text, and what follows it.
  function BoundAt(s: string): Option<(string, string)> {
    if !(MARK <= s) then None
    else
      var t := StripLeft(s[|MARK|..]);
      if !(OPEN <= t) then None
      else
        var id := Run(t[|OPEN|..]);
        var rest := t[|OPEN| + |id|..];
        if id == "" || !(CLOSE <= rest) then None else Some((id, rest[|CLOSE|..]))
  }

  lemma {:induction false} StripLeftShorter(s: string)
    ensures |StripLeft(s)| <= |s|
  {
    if s != "" && Blank(s[0]) { StripLeftShorter(s[1..]); }
  }

  // re.findall of the binding expression.
  function FindAll(s: string): seq<string>
    decreases |s|
  {
    if s == "" then []
    else
      var bound := BoundAt(s);
      if bound.None? then FindAll(s[1..])
      else
        StripLeftShorter(s[|MARK|..]);
        [bound.value.0] + FindAll(bound.value.1)
  }

  predicate IsId(id: string) {
    id != "" && forall c | c in id :: IdChar(c)
  }

  // Nothing is found in a part where no binding starts.
  lemma {:induction false} FindAllSkips(part: string, rest: string)
    requires forall i | 0 <= i < |part| :: BoundAt((part + rest)[i..]).None?
    ensures FindAll(part + rest) == FindAll(rest)
  {
    if part == "" {
      assert part + rest == rest;
    } else {
      var s := part + rest;
      assert s[0..] == s;
      assert s[1..] == part[1..] + rest;
      forall i | 0 <= i < |part[1..]|
        ensures BoundAt((part[1..] + rest)[i..]).None?
      {
        assert (part[1..] + rest)[i..] == s[i + 1..];
      }
      FindAllSkips(part[1..], rest);
    }
  }

  // A binding can only start where its mark's X follows a backquote.
  lemma BoundNeedsMark(s: string)
    ensures BoundAt(s).Some? ==> |s| > 14 && s[13] == '`' && s[14] == 'X'
  {
    assert MARK[13] == '`' && MARK[14] == 'X';
  }

  /****** Printed rules ******/

  // The rule between its host and its binding.
  function Middle(plane: Plane): string {
    if plane.Api? then " && " + Print(ApiProtocols()) else ""
  }

  function Printed(plane: Plane, host: string, id: Option<string>): string {
    Print(NativeRule(plane, host, id))
  }

  function Tail(id: string): string {
    MARK + " " + (OPEN + id + CLOSE)
  }

  lemma TailPrints(id: string)
    ensures Print(Binding(id)) == Tail(id)
  {
    assert "HeaderRegexp(`" + "X-Azure-FDID" + "`, `" == MARK + " `";
    assert "`" + "(?i)^" == OPEN && "$" + "`)" == CLOSE;
    assert Print(Binding(id)) == "HeaderRegexp(`" + "X-Azure-FDID" + "`, `" + ("(?i)^" + id + "$") + "`)";
  }

  lemma JoinedMore(parts: seq<Matcher>, last: Matcher, separator: string)
    requires parts != []
    ensures Joined(parts + [last], separator) == Joined(parts, separator) + separator + Print(last)
  {
    assert (parts + [last])[..|parts|] == parts;
  }

  lemma Reassociate(a: string, b: string, c: string, d: string)
    ensures a + b + c + d == a + (b + (c + d))
  {
  }

  function Parts(plane: Plane, host: string): seq<Matcher> {
    [Host(host)] + (if plane.Api? then [ApiProtocols()] else [])
  }

  lemma PartsPrint(plane: Plane, host: string)
    ensures Joined(Parts(plane, host), " && ") == "Host(`" + host + "`)" + Middle(plane)
  {
    hide ApiProtocols;
    assert Joined([Host(host)], " && ") == Print(Host(host));
    if plane.Api? { JoinedMore([Host(host)], ApiProtocols(), " && "); }
  }

  // A printed rule is its host, its protocols and its binding.
  lemma PrintedParts(plane: Plane, host: string, id: Option<string>)
    ensures Printed(plane, host, None) == "Host(`" + (host + ("`)" + Middle(plane)))
    ensures id.Some? ==> Printed(plane, host, id) == Printed(plane, host, None) + " && " + Tail(id.value)
  {
    hide ApiProtocols, Middle, Joined, Tail, Binding;
    PartsPrint(plane, host);
    Reassociate("Host(`", host, "`)", Middle(plane));
    assert NativeRule(plane, host, None) == All(Parts(plane, host));
    if id.Some? {
      assert NativeRule(plane, host, id) == All(Parts(plane, host) + [Binding(id.value)]);
      JoinedMore(Parts(plane, host), Binding(id.value), " && ");
      TailPrints(id.value);
    }
  }

  predicate NoMark(s: string) {
    forall c | c in s :: c != 'X'
  }

  predicate PlainMatcher(m: Matcher) {
    match m
    case Host(name) => NoMark(name)
    case Path(path) => NoMark(path)
    case Method(verb) => NoMark(verb)
    case HeaderRegexp(header, expression, _) => NoMark(header) && NoMark(expression)
    case All(parts) => forall part | part in parts :: PlainMatcher(part)
    case Any(parts) => forall part | part in parts :: PlainMatcher(part)
    case Group(inner) => PlainMatcher(inner)
  }

  lemma {:induction false} PlainPrints(m: Matcher)
    requires PlainMatcher(m)
    ensures NoMark(Print(m))
    decreases m, 1, 0
  {
    match m
    case All(parts) => PlainJoins(m, parts, " && ");
    case Any(parts) => PlainJoins(m, parts, " || ");
    case Group(inner) => PlainPrints(inner);
    case _ =>
  }

  lemma {:induction false} PlainJoins(whole: Matcher, parts: seq<Matcher>, separator: string)
    requires NoMark(separator) && forall part | part in parts :: part < whole && PlainMatcher(part)
    ensures NoMark(Joined(parts, separator))
    decreases whole, 0, |parts|
  {
    assert parts != [] ==> parts[0] in parts && parts[|parts| - 1] in parts;
    if |parts| == 1 {
      PlainPrints(parts[0]);
    } else if parts != [] {
      PlainJoins(whole, parts[..|parts| - 1], separator);
      PlainPrints(parts[|parts| - 1]);
    }
  }

  lemma MiddleIsPlain(plane: Plane)
    ensures NoMark(Middle(plane))
  {
    hide PlainMatcher, Print, ApiProtocols;
    if plane.Api? {
      ProtocolsArePlain();
      PlainPrints(ApiProtocols());
    }
  }

  lemma PathsArePlain(paths: seq<string>)
    requires forall p | p in paths :: NoMark(p)
    ensures PlainMatcher(Paths(paths))
  {
    var parts := seq(|paths|, i requires 0 <= i < |paths| => Path(paths[i]));
    assert Paths(paths) == Group(Any(parts));
    assert forall i | 0 <= i < |parts| :: PlainMatcher(parts[i]);
  }

  lemma NamesArePlain()
    ensures (forall p | p in API_PATHS :: NoMark(p)) && (forall p | p in WSS_PATHS :: NoMark(p))
    ensures NoMark("GET") && NoMark("POST")
  {
  }

  lemma ExpressionsArePlain()
    ensures NoMark("Upgrade") && NoMark("(?i)^websocket$")
    ensures NoMark("Connection") && NoMark("(?i)(^|[, \\t])upgrade([, \\t]|$)")
  {
  }

  lemma HeadersArePlain()
    ensures PlainMatcher(UpgradeHeader()) && PlainMatcher(ConnectionHeader())
  {
    ExpressionsArePlain();
    hide NoMark, Exact, ApiProtocol.ConnectionPattern;
  }

  lemma AllPlain(a: Matcher, b: Matcher)
    requires PlainMatcher(a) && PlainMatcher(b)
    ensures PlainMatcher(All([a, b])) && PlainMatcher(Any([a, b]))
  {
    hide NoMark;
    assert forall part | part in [a, b] :: part == a || part == b;
  }

  lemma FourPlain(a: Matcher, b: Matcher, c: Matcher, d: Matcher)
    requires PlainMatcher(a) && PlainMatcher(b) && PlainMatcher(c) && PlainMatcher(d)
    ensures PlainMatcher(All([a, b, c, d]))
  {
    hide NoMark;
    assert forall part | part in [a, b, c, d] :: part == a || part == b || part == c || part == d;
  }

  lemma WebSocketIsPlain()
    ensures PlainMatcher(WebSocket())
  {
    NamesArePlain();
    PathsArePlain(WSS_PATHS);
    HeadersArePlain();
    VerbIsPlain("GET");
    hide NoMark, Paths, UpgradeHeader, ConnectionHeader, PlainMatcher;
    FourPlain(Method("GET"), Paths(WSS_PATHS), UpgradeHeader(), ConnectionHeader());
  }

  lemma VerbIsPlain(verb: string)
    requires NoMark(verb)
    ensures PlainMatcher(Method(verb))
  {
  }

  lemma GroupIsPlain(m: Matcher)
    requires PlainMatcher(m)
    ensures PlainMatcher(Group(m))
  {
  }

  lemma ProtocolsArePlain()
    ensures PlainMatcher(ApiProtocols())
  {
    NamesArePlain();
    PathsArePlain(API_PATHS);
    VerbIsPlain("POST");
    WebSocketIsPlain();
    hide NoMark, Paths, WebSocket, PlainMatcher;
    var post := All([Method("POST"), Paths(API_PATHS)]);
    AllPlain(Method("POST"), Paths(API_PATHS));
    GroupIsPlain(post);
    GroupIsPlain(WebSocket());
    AllPlain(Group(post), Group(WebSocket()));
    GroupIsPlain(Any([Group(post), Group(WebSocket())]));
  }

  predicate HostName(host: string) {
    host != "" && host[0] != 'X' && '`' !in host
  }

  // Where a backquote is followed by an X.
  predicate Marked(s: string, k: nat) {
    k + 1 < |s| && s[k] == '`' && s[k + 1] == 'X'
  }

  ghost predicate Unmarked(s: string) {
    forall k: nat :: !Marked(s, k)
  }

  lemma UnmarkedJoin(a: string, b: string)
    requires Unmarked(a) && Unmarked(b) && (a == "" || b == "" || a[|a| - 1] != '`' || b[0] != 'X')
    ensures Unmarked(a + b)
  {
    forall k: nat
      ensures !Marked(a + b, k)
    {
      assert !Marked(a, k);
      if k >= |a| { assert !Marked(b, k - |a|); }
    }
  }

  lemma PlainUnmarked(s: string)
    requires NoMark(s) || '`' !in s
    ensures Unmarked(s)
  {
    assert forall k | 0 <= k < |s| :: s[k] in s;
  }

  lemma PrintedUnmarked(plane: Plane, host: string)
    requires HostName(host)
    ensures Unmarked(Printed(plane, host, None) + " && ")
  {
    PrintedParts(plane, host, None);
    MiddleIsPlain(plane);
    hide Printed, Middle;
    var after := "`)" + Middle(plane);
    assert NoMark("`)") && NoMark(after);
    PlainUnmarked(after);
    PlainUnmarked(host);
    PlainUnmarked("Host(`");
    PlainUnmarked(" && ");
    UnmarkedJoin(host, after);
    UnmarkedJoin("Host(`", host + after);
    UnmarkedJoin(Printed(plane, host, None), " && ");
  }

  // In the unbound part of a rule no binding starts.
  lemma NothingStarts(part: string, rest: string, i: nat)
    requires Unmarked(part) && i < |part| && (rest == "" || MARK <= rest)
    ensures BoundAt((part + rest)[i..]).None?
  {
    hide BoundAt;
    var s := part + rest;
    BoundNeedsMark(s[i..]);
    assert i + 14 < |s| ==> s[i..][13] == s[i + 13] && s[i..][14] == s[i + 14];
    assert forall n | 0 <= n < 14 :: MARK[n] != 'X';
    assert !Marked(part, i + 13);
    if |part| <= i + 14 < |s| {
      assert s[i + 14] == rest[i + 14 - |part|] == MARK[i + 14 - |part|];
    }
  }

  // The tail itself is one binding with nothing after it.
  lemma TailIsBound(id: string)
    requires IsId(id)
    ensures FindAll(Tail(id)) == [id]
  {
    hide Run, StripLeft;
    var s := Tail(id);
    var t := OPEN + id + CLOSE;
    assert s[..|MARK|] == MARK && s[|MARK|..] == " " + t;
    BlankThenOpen(t);
    assert t[|OPEN|..] == id + CLOSE && t[..|OPEN|] == OPEN;
    RunStops(id, CLOSE);
    assert t[|OPEN| + |id|..] == CLOSE;
    assert CLOSE[|CLOSE|..] == "";
    assert BoundAt(s) == Some((id, ""));
  }

  lemma BlankThenOpen(t: string)
    requires t != "" && !Blank(t[0])
    ensures StripLeft(" " + t) == t
  {
    assert (" " + t)[1..] == t;
  }

  lemma {:induction false} RunStops(id: string, rest: string)
    requires (forall c | c in id :: IdChar(c)) && rest != "" && !IdChar(rest[0])
    ensures Run(id + rest) == id
  {
    if id == "" {
      assert id + rest == rest;
    } else {
      assert id[0] in id && (id + rest)[0] == id[0] && (id + rest)[1..] == id[1..] + rest;
      assert forall c | c in id[1..] :: c in id;
      RunStops(id[1..], rest);
    }
  }

  // Reading back a printed rule gives exactly what was printed: the ID, or nothing.
  lemma ReadsBack(plane: Plane, host: string, id: Option<string>)
    requires HostName(host) && (id.Some? ==> IsId(id.value))
    ensures FindAll(Printed(plane, host, id)) == if id.Some? then [id.value] else []
  {
    hide Printed, FindAll, Middle;
    var p := Printed(plane, host, None);
    PrintedParts(plane, host, id);
    PrintedUnmarked(plane, host);
    if id.Some? {
      var part := p + " && ";
      forall i | 0 <= i < |part|
        ensures BoundAt((part + Tail(id.value))[i..]).None?
      {
        NothingStarts(part, Tail(id.value), i);
      }
      FindAllSkips(part, Tail(id.value));
      TailIsBound(id.value);
      assert Printed(plane, host, id) == part + Tail(id.value);
    } else {
      assert Unmarked(p) by { assert forall k: nat :: Marked(p, k) ==> Marked(p + " && ", k); }
      forall i | 0 <= i < |p|
        ensures BoundAt((p + "")[i..]).None?
      {
        NothingStarts(p, "", i);
      }
      FindAllSkips(p, "");
      FindsNothing();
      assert p + "" == p;
    }
  }

  lemma FindsNothing()
    ensures FindAll("") == []
  {
  }

  lemma {:induction false} RunOnlyIds(s: string)
    requires BoundAt(s).Some?
    ensures IsId(BoundAt(s).value.0)
  {
  }

  // What is found in any text at all has the form of an ID.
  lemma {:induction false} FoundAreIds(s: string)
    ensures forall id | id in FindAll(s) :: IsId(id)
    decreases |s|
  {
    if s != "" {
      if BoundAt(s).None? {
        FoundAreIds(s[1..]);
      } else {
        StripLeftShorter(s[|MARK|..]);
        RunOnlyIds(s);
        FoundAreIds(BoundAt(s).value.1);
      }
    }
  }

  /****** The gateway documents ******/

  // The name used in a rule is the plane's prefix and a domain.
  function HostFor(plane: Plane, domain: string): string {
    (if plane.Api? then "llm-api." else "llm-admin.") + domain
  }

  // The rule of the health router, as text.
  function HealthText(plane: Plane, domain: string): string {
    Print(HealthRule(HostFor(plane, domain)))
  }

  // The state of one plane: the business and the health rule, the rest of its route
  // configuration, the annotations of the pod template and the rest of its documents.
  datatype Ingress = Ingress(rule: string, health: string, routes: Json, annotations: map<string, Json>, rest: Json)

  // `baseDomain` as configured, the UUID test, and the literal checks of everything
  // but the two rules and the annotations.
  datatype Context = Context(baseDomain: string, uuid: string -> bool, contract: (Plane, Json, Json) -> bool)

  // A route configuration.
  type Routes = (string, string, Json)

  datatype State = State(bound: Option<string>, routes: Digest<Routes>, pod: Digest<(map<string, Json>, Json)>)

  function RoutesDigest(i: Ingress): Digest<Routes> {
    Digest((i.rule, i.health, i.routes))
  }

  function First(bound: seq<string>): Option<string> {
    if bound == [] then None else Some(bound[0])
  }

  // native_ingress_document_state; nothing when a check fails.
  function DocumentState(ctx: Context, plane: Plane, i: Ingress, identifier: Option<string>): Option<State> {
    var bound := FindAll(i.rule);
    if || |bound| > 1
       || (bound != [] && !ctx.uuid(bound[0]))
       || (identifier.Some? && (bound == [] || Lower(bound[0]) != Lower(identifier.value)))
       || i.rule != Printed(plane, HostFor(plane, ctx.baseDomain), First(bound))
       || i.health != HealthText(plane, ctx.baseDomain)
       || !ctx.contract(plane, i.routes, i.rest)
    then None
    else Some(State(First(bound), RoutesDigest(i), Digest((i.annotations, i.rest))))
  }

  // A base domain that cannot break out of a rule.
  predicate SafeDomain(domain: string) {
    '`' !in domain
  }

  lemma HostForIsName(plane: Plane, domain: string)
    requires SafeDomain(domain)
    ensures HostName(HostFor(plane, domain))
  {
  }

  // The state check accepts exactly the printed rules on documents that are otherwise
  // as reviewed, and reports the ID that was printed.
  lemma AcceptsExactlyPrinted(ctx: Context, plane: Plane, i: Ingress)
    requires SafeDomain(ctx.baseDomain)
    ensures DocumentState(ctx, plane, i, None).Some? <==>
              && i.health == HealthText(plane, ctx.baseDomain) && ctx.contract(plane, i.routes, i.rest)
              && exists id: Option<string> :: PrintedAs(ctx, plane, i.rule, id)
    ensures forall id: Option<string> :: PrintedAs(ctx, plane, i.rule, id) && DocumentState(ctx, plane, i, None).Some? ==>
              DocumentState(ctx, plane, i, None).value.bound == id
  {
    hide Printed, FindAll, HealthText;
    var host := HostFor(plane, ctx.baseDomain);
    HostForIsName(plane, ctx.baseDomain);
    forall id: Option<string> | PrintedAs(ctx, plane, i.rule, id)
      ensures FindAll(i.rule) == if id.Some? then [id.value] else []
    {
      ReadsBack(plane, host, id);
    }
    FoundAreIds(i.rule);
    if DocumentState(ctx, plane, i, None).Some? {
      assert PrintedAs(ctx, plane, i.rule, First(FindAll(i.rule)));
    }
  }

  predicate PrintedAs(ctx: Context, plane: Plane, rule: string, id: Option<string>) {
    rule == Printed(plane, HostFor(plane, ctx.baseDomain), id) && (id.Some? ==> IsId(id.value) && ctx.uuid(id.value))
  }

  const ID_NOTE := "llmgw/front-door-id"
  const ROUTES_NOTE := "llmgw/routes-sha256"

  function Noted(i: Ingress, id: string, text: Digest<Routes> -> Json): Ingress {
    i.(annotations := i.annotations[ID_NOTE := Str(id)][ROUTES_NOTE := text(RoutesDigest(i))])
  }

  // bind_native_ingress; `text` writes a digest as JSON text.
  function Bound(ctx: Context, plane: Plane, i: Ingress, identifier: string, text: Digest<Routes> -> Json): Option<Ingress> {
    var current := DocumentState(ctx, plane, i, None);
    if !ctx.uuid(identifier) || current.None?
       || (current.value.bound.Some? && Lower(current.value.bound.value) != Lower(identifier)) then None
    else
      var rule := if current.value.bound.None? then Printed(plane, HostFor(plane, ctx.baseDomain), Some(identifier)) else i.rule;
      var desired := Noted(i.(rule := rule), identifier, text);
      if DocumentState(ctx, plane, desired, Some(identifier)).None? then None else Some(desired)
  }

  lemma Cancel(front: string, a: string, b: string, after: string)
    requires front + (a + after) == front + (b + after)
    ensures a == b
  {
    assert (front + (a + after))[|front|..] == a + after && (front + (b + after))[|front|..] == b + after;
    assert |a| == |b| && (a + after)[..|a|] == a && (b + after)[..|b|] == b;
  }

  lemma TailSplits(front: string, id: string)
    ensures front + " && " + Tail(id) == (front + (" && " + (MARK + (" " + OPEN)))) + (id + CLOSE)
  {
  }

  // Printing an ID or a host loses nothing.
  lemma PrintedOnce(plane: Plane, host: string, x: string, y: string)
    requires Printed(plane, host, Some(x)) == Printed(plane, host, Some(y))
    ensures x == y
  {
    hide Printed, Tail;
    PrintedParts(plane, host, Some(x));
    PrintedParts(plane, host, Some(y));
    var front := Printed(plane, host, None);
    TailSplits(front, x);
    TailSplits(front, y);
    Cancel(front + (" && " + (MARK + (" " + OPEN))), x, y, CLOSE);
  }

  lemma HostOnce(plane: Plane, a: string, b: string)
    requires Printed(plane, HostFor(plane, a), None) == Printed(plane, HostFor(plane, b), None)
    ensures a == b
  {
    hide Printed, Middle, HostFor;
    var h, g := HostFor(plane, a), HostFor(plane, b);
    PrintedParts(plane, h, None);
    PrintedParts(plane, g, None);
    Cancel("Host(`", h, g, "`)" + Middle(plane));
    DomainOnce(plane, a, b);
  }

  lemma DomainOnce(plane: Plane, a: string, b: string)
    requires HostFor(plane, a) == HostFor(plane, b)
    ensures a == b
  {
    var prefix := if plane.Api? then "llm-api." else "llm-admin.";
    assert HostFor(plane, a)[|prefix|..] == a && HostFor(plane, b)[|prefix|..] == b;
  }

  lemma BindsUnbound(ctx: Context, plane: Plane, i: Ingress, identifier: string, text: Digest<Routes> -> Json)
    requires SafeDomain(ctx.baseDomain) && ctx.uuid(identifier)
    requires DocumentState(ctx, plane, i, None).Some? && DocumentState(ctx, plane, i, None).value.bound.None?
    ensures Bound(ctx, plane, i, identifier, text).Some? <==> IsId(identifier)
    ensures IsId(identifier) ==>
              var rule := Printed(plane, HostFor(plane, ctx.baseDomain), Some(identifier));
              && FindAll(rule) == [identifier]
              && Bound(ctx, plane, i, identifier, text).value == Noted(i.(rule := rule), identifier, text)
  {
    hide Printed, FindAll, IsId, HealthText;
    var host := HostFor(plane, ctx.baseDomain);
    HostForIsName(plane, ctx.baseDomain);
    var rule := Printed(plane, host, Some(identifier));
    if IsId(identifier) { ReadsBack(plane, host, Some(identifier)); }
    FoundAreIds(rule);
    if |FindAll(rule)| == 1 && rule == Printed(plane, host, Some(FindAll(rule)[0])) {
      PrintedOnce(plane, host, identifier, FindAll(rule)[0]);
      assert FindAll(rule)[0] in FindAll(rule);
    }
  }

  // When binding succeeds, and that it never drops or swaps an established ID. An
  // identifier the UUID test accepts in another notation, such as in braces, cannot
  // be read back and is refused.
  lemma BindsWhen(ctx: Context, plane: Plane, i: Ingress, identifier: string, text: Digest<Routes> -> Json)
    requires SafeDomain(ctx.baseDomain)
    ensures var current := DocumentState(ctx, plane, i, None);
            Bound(ctx, plane, i, identifier, text).Some? <==>
              && ctx.uuid(identifier) && current.Some?
              && (if current.value.bound.Some? then Lower(current.value.bound.value) == Lower(identifier) else IsId(identifier))
    ensures var current, d := DocumentState(ctx, plane, i, None), Bound(ctx, plane, i, identifier, text);
            d.Some? ==>
              && d.value.health == i.health && d.value.routes == i.routes && d.value.rest == i.rest
              && (current.value.bound.Some? ==> d.value.rule == i.rule)
              && FindAll(d.value.rule) == [if current.value.bound.Some? then current.value.bound.value else identifier]
  {
    hide Printed, FindAll, IsId, HealthText;
    var current := DocumentState(ctx, plane, i, None);
    if ctx.uuid(identifier) && current.Some? {
      if current.value.bound.None? {
        BindsUnbound(ctx, plane, i, identifier, text);
      } else {
        assert FindAll(i.rule) == [current.value.bound.value];
      }
    }
  }

  const PLAIN := "11111111-2222-3333-4444-555555555555"
  const BRACED := "{" + PLAIN + "}"

  lemma PlainIsId()
    ensures IsId(PLAIN) && !IsId(BRACED)
  {
    assert BRACED[0] == '{' && BRACED[0] in BRACED;
  }

  // The input: an identifier in braces, which the UUID test takes for the same one.
  // On an unbound gateway it is refused, and accepted without the braces.
  lemma BracedIdentifierIsRefused(ctx: Context, plane: Plane, i: Ingress, text: Digest<Routes> -> Json)
    requires SafeDomain(ctx.baseDomain) && ctx.uuid(BRACED) && ctx.uuid(PLAIN)
    requires DocumentState(ctx, plane, i, None).Some? && DocumentState(ctx, plane, i, None).value.bound.None?
    ensures !IsId(BRACED) && Bound(ctx, plane, i, BRACED, text).None?
    ensures IsId(PLAIN) && Bound(ctx, plane, i, PLAIN, text).Some?
  {
    PlainIsId();
    hide Printed, FindAll, IsId, DocumentState, Bound;
    BindsWhen(ctx, plane, i, BRACED, text);
    BindsWhen(ctx, plane, i, PLAIN, text);
  }

  // Binding again with the same identifier changes nothing.
  lemma BindTwice(ctx: Context, plane: Plane, i: Ingress, identifier: string, text: Digest<Routes> -> Json)
    requires SafeDomain(ctx.baseDomain) && Bound(ctx, plane, i, identifier, text).Some?
    ensures Bound(ctx, plane, Bound(ctx, plane, i, identifier, text).value, identifier, text) == Bound(ctx, plane, i, identifier, text)
  {
    hide Printed, FindAll, HealthText;
    BindsWhen(ctx, plane, i, identifier, text);
    var d := Bound(ctx, plane, i, identifier, text).value;
    assert d.annotations[ID_NOTE := Str(identifier)] == d.annotations by { assert ID_NOTE != ROUTES_NOTE by { assert ID_NOTE[6] != ROUTES_NOTE[6]; } }
    assert d.annotations[ROUTES_NOTE := text(RoutesDigest(d))] == d.annotations;
    assert Noted(d, identifier, text) == d;
  }

  /****** Rendering again ******/

  // What render_ingress makes of a plane: unbound rules for the accepted domain, or
  // nothing when the domain is refused.
  function Rendered(ctx: Context, plane: Plane, routes: Json, annotations: map<string, Json>, rest: Json): Option<Ingress> {
    var domain := DomainOf(ctx.baseDomain);
    if domain.None? then None
    else Some(Ingress(Printed(plane, HostFor(plane, domain.value), None), HealthText(plane, domain.value), routes, annotations, rest))
  }

  // preserve_native_front_door_binding; `live` is the rule of the current route
  // configuration, if there is one.
  function Preserved(ctx: Context, plane: Plane, rendered: Ingress, live: Option<string>, text: Digest<Routes> -> Json): Option<Ingress> {
    if live.None? then Some(rendered)
    else
      var found, domain := FindAll(live.value), DomainOf(ctx.baseDomain);
      if |found| > 1 then None
      else if found == [] then Some(rendered)
      else if !ctx.uuid(found[0]) || Includes(rendered.rule, "X-Azure-FDID") || domain.None? then None
      else Some(Noted(rendered.(rule := Printed(plane, HostFor(plane, domain.value), Some(found[0]))), found[0], text))
  }

  // An accepted domain breaks out of no rule, before and after it is normalised.
  lemma AcceptedIsSafe(ctx: Context)
    requires DomainOf(ctx.baseDomain).Some?
    ensures SafeDomain(ctx.baseDomain) && SafeDomain(DomainOf(ctx.baseDomain).value) && NoMark(DomainOf(ctx.baseDomain).value)
  {
    AcceptedIsPlain(ctx.baseDomain);
  }

  lemma {:induction false} PlainHasNoBinding(s: string)
    requires NoMark(s)
    ensures !Includes(s, "X-Azure-FDID")
  {
    if s != "" {
      assert s[0] in s && forall c | c in s[1..] :: c in s;
      PlainHasNoBinding(s[1..]);
      assert "X-Azure-FDID"[0] == 'X';
    }
  }

  lemma NoMarkJoin(a: string, b: string)
    requires NoMark(a) && NoMark(b)
    ensures NoMark(a + b)
  {
  }

  lemma RenderedHasNoBinding(ctx: Context, plane: Plane)
    requires DomainOf(ctx.baseDomain).Some?
    ensures !Includes(Printed(plane, HostFor(plane, DomainOf(ctx.baseDomain).value), None), "X-Azure-FDID")
  {
    AcceptedIsSafe(ctx);
    MiddleIsPlain(plane);
    PrefixesArePlain();
    hide Printed, Middle, DomainOf, NoMark;
    var domain := DomainOf(ctx.baseDomain).value;
    var prefix := if plane.Api? then "llm-api." else "llm-admin.";
    NoMarkJoin(prefix, domain);
    NoMarkJoin("`)", Middle(plane));
    NoMarkJoin(prefix + domain, "`)" + Middle(plane));
    NoMarkJoin("Host(`", prefix + domain + ("`)" + Middle(plane)));
    PrintedParts(plane, prefix + domain, None);
    PlainHasNoBinding(Printed(plane, prefix + domain, None));
  }

  lemma PrefixesArePlain()
    ensures NoMark("llm-api.") && NoMark("llm-admin.") && NoMark("Host(`") && NoMark("`)")
  {
  }

  // A rule and a health rule tell the domain they were printed for.
  lemma DomainPrintedOnce(plane: Plane, a: string, b: string, id: Option<string>)
    ensures Printed(plane, HostFor(plane, a), id) == Printed(plane, HostFor(plane, b), id) <==> a == b
    ensures HealthText(plane, a) == HealthText(plane, b) <==> a == b
  {
    hide Printed, HealthText, HostFor, Tail;
    if Printed(plane, HostFor(plane, a), id) == Printed(plane, HostFor(plane, b), id) {
      if id.Some? {
        PrintedParts(plane, HostFor(plane, a), id);
        PrintedParts(plane, HostFor(plane, b), id);
        CancelTail(Printed(plane, HostFor(plane, a), None), Printed(plane, HostFor(plane, b), None), " && ", Tail(id.value));
      }
      HostOnce(plane, a, b);
    }
    if HealthText(plane, a) == HealthText(plane, b) { HealthOnce(plane, a, b); }
  }

  lemma CancelTail(a: string, b: string, middle: string, tail: string)
    requires a + middle + tail == b + middle + tail
    ensures a == b
  {
    assert |a| == |b| && (a + middle + tail)[..|a|] == a && (b + middle + tail)[..|b|] == b;
  }

  // What follows the host in a health rule.
  function HealthTail(): string {
    "`)" + " && " + Print(Method("GET")) + " && " + Print(Path("/readyz"))
  }

  lemma HealthParts(host: string)
    ensures Print(HealthRule(host)) == "Host(`" + (host + HealthTail())
  {
    var first, verb, path := Host(host), Method("GET"), Path("/readyz");
    assert Joined([first], " && ") == Print(first) == "Host(`" + host + "`)";
    assert Print(All([first, verb, path])) == Joined([first, verb, path], " && ");
    hide Print, Joined;
    JoinedMore([first], verb, " && ");
    JoinedMore([first, verb], path, " && ");
    assert [first] + [verb] == [first, verb] && [first, verb] + [path] == [first, verb, path];
    Regroup(host, Print(verb), Print(path));
  }

  lemma Regroup(host: string, verb: string, path: string)
    ensures "Host(`" + host + "`)" + " && " + verb + " && " + path == "Host(`" + (host + ("`)" + " && " + verb + " && " + path))
  {
  }

  lemma HealthOnce(plane: Plane, a: string, b: string)
    requires HealthText(plane, a) == HealthText(plane, b)
    ensures a == b
  {
    hide HealthRule, Print, HealthTail;
    HealthParts(HostFor(plane, a));
    HealthParts(HostFor(plane, b));
    Cancel("Host(`", HostFor(plane, a), HostFor(plane, b), HealthTail());
    DomainOnce(plane, a, b);
  }

  // What preserving makes of a rendered gateway.
  lemma PreservedIs(ctx: Context, plane: Plane, live: Ingress, routes: Json, annotations: map<string, Json>, rest: Json,
                    text: Digest<Routes> -> Json)
    requires DocumentState(ctx, plane, live, None).Some? && DomainOf(ctx.baseDomain).Some?
    ensures var preserved := Preserved(ctx, plane, Rendered(ctx, plane, routes, annotations, rest).value, Some(live.rule), text);
            && preserved.Some? && preserved.value.routes == routes && preserved.value.rest == rest
            && preserved.value.rule == Printed(plane, HostFor(plane, DomainOf(ctx.baseDomain).value), First(FindAll(live.rule)))
            && preserved.value.health == HealthText(plane, DomainOf(ctx.baseDomain).value)
  {
    RenderedHasNoBinding(ctx, plane);
    hide Printed, FindAll, DomainOf, Includes, HealthText, HostFor;
  }

  // Rendering again and preserving never drops or swaps an established ID. It gives
  // the rules and the route digest of the live gateway, and passes the state check
  // again, exactly when the configured domain is in normal form.
  lemma PreserveKeepsRoutes(ctx: Context, plane: Plane, live: Ingress, annotations: map<string, Json>, rest: Json,
                            text: Digest<Routes> -> Json)
    requires DocumentState(ctx, plane, live, None).Some? && DomainOf(ctx.baseDomain).Some?
    ensures var rendered := Rendered(ctx, plane, live.routes, annotations, rest).value;
            var preserved, normal := Preserved(ctx, plane, rendered, Some(live.rule), text), Normal(ctx.baseDomain) == ctx.baseDomain;
            && preserved.Some?
            && FindAll(preserved.value.rule) == FindAll(live.rule)
            && (preserved.value.rule == live.rule <==> normal) && (preserved.value.health == live.health <==> normal)
            && (RoutesDigest(preserved.value) == RoutesDigest(live) <==> normal)
            && (DocumentState(ctx, plane, preserved.value, None).Some? <==> normal && ctx.contract(plane, live.routes, rest))
  {
    AcceptedIsSafe(ctx);
    AcceptedIsNormal(ctx);
    var domain := DomainOf(ctx.baseDomain).value;
    var id := First(FindAll(live.rule));
    PreservedIs(ctx, plane, live, live.routes, annotations, rest, text);
    HostForIsName(plane, domain);
    FoundAreIds(live.rule);
    ReadsBack(plane, HostFor(plane, domain), id);
    DomainPrintedOnce(plane, domain, ctx.baseDomain, id);
    hide Printed, FindAll, Normal, DomainOf, Includes, HealthText, HostFor, IsId, Preserved, Rendered;
  }

  lemma AcceptedIsNormal(ctx: Context)
    requires DomainOf(ctx.baseDomain).Some?
    ensures DomainOf(ctx.baseDomain).value == Normal(ctx.baseDomain)
  {
  }

  lemma BoundRendered(ctx: Context, plane: Plane, routes: Json, annotations: map<string, Json>, rest: Json,
                      identifier: string, text: Digest<Routes> -> Json)
    requires DomainOf(ctx.baseDomain) == Some(ctx.baseDomain)
    requires ctx.contract(plane, routes, rest) && ctx.uuid(identifier) && IsId(identifier)
    ensures var rendered := Rendered(ctx, plane, routes, annotations, rest).value;
            var rule := Printed(plane, HostFor(plane, ctx.baseDomain), Some(identifier));
            && FindAll(rule) == [identifier]
            && Bound(ctx, plane, rendered, identifier, text) == Some(Noted(rendered.(rule := rule), identifier, text))
  {
    AcceptedIsSafe(ctx);
    AcceptedIsNormal(ctx);
    RenderedIsAcceptedWhen(ctx, plane, routes, annotations, rest);
    hide Printed, FindAll, DomainOf, Normal, IsId, HealthText, HostFor, NoMark, SafeDomain, HostName, Bound, Noted, DocumentState;
    BindsUnbound(ctx, plane, Rendered(ctx, plane, routes, annotations, rest).value, identifier, text);
  }

  // When a rendered gateway can be bound, and that binding it and rendering it again
  // with its binding preserved are then the same, documents and all.
  lemma PreserveIsBinding(ctx: Context, plane: Plane, routes: Json, annotations: map<string, Json>, rest: Json,
                          identifier: string, text: Digest<Routes> -> Json)
    requires Rendered(ctx, plane, routes, annotations, rest).Some?
    ensures var rendered := Rendered(ctx, plane, routes, annotations, rest).value;
            var live := Bound(ctx, plane, rendered, identifier, text);
            && (live.Some? <==>
                  Normal(ctx.baseDomain) == ctx.baseDomain && ctx.contract(plane, routes, rest) && ctx.uuid(identifier) && IsId(identifier))
            && (live.Some? ==> Preserved(ctx, plane, rendered, Some(live.value.rule), text) == live)
  {
    var rendered := Rendered(ctx, plane, routes, annotations, rest).value;
    AcceptedIsSafe(ctx);
    AcceptedIsNormal(ctx);
    RenderedIsAcceptedWhen(ctx, plane, routes, annotations, rest);
    BindsWhen(ctx, plane, rendered, identifier, text);
    RenderedHasNoBinding(ctx, plane);
    hide Printed, FindAll, DomainOf, Normal, Includes, IsId, HealthText, HostFor, Bound, DocumentState, SafeDomain, NoMark;
    if Bound(ctx, plane, rendered, identifier, text).Some? {
      BoundRendered(ctx, plane, routes, annotations, rest, identifier, text);
    }
  }

  // The state check reads the base domain as it is configured, while rendering
  // normalises it: a freshly rendered gateway passes exactly when the configured
  // domain is in normal form already and its documents are otherwise as reviewed.
  lemma RenderedIsAcceptedWhen(ctx: Context, plane: Plane, routes: Json, annotations: map<string, Json>, rest: Json)
    ensures var rendered := Rendered(ctx, plane, routes, annotations, rest);
            rendered.Some? ==>
              && (DocumentState(ctx, plane, rendered.value, None).Some? <==>
                    Normal(ctx.baseDomain) == ctx.baseDomain && ctx.contract(plane, routes, rest))
              && (DocumentState(ctx, plane, rendered.value, None).Some? ==>
                    DocumentState(ctx, plane, rendered.value, None).value.bound.None?)
  {
    if DomainOf(ctx.baseDomain).Some? {
      AcceptedIsSafe(ctx);
      var domain := DomainOf(ctx.baseDomain).value;
      HostForIsName(plane, domain);
      ReadsBack(plane, HostFor(plane, domain), None);
      DomainPrintedOnce(plane, domain, ctx.baseDomain, None);
      hide Printed, FindAll, Normal, HealthText, HostFor;
    }
  }

  // With the normal form configured instead, the same gateway is rendered, and it
  // passes when its documents are otherwise as reviewed.
  lemma NormalisedIsAccepted(ctx: Context, plane: Plane, routes: Json, annotations: map<string, Json>, rest: Json)
    requires Rendered(ctx, plane, routes, annotations, rest).Some?
    ensures var normal := ctx.(baseDomain := Normal(ctx.baseDomain));
            var rendered := Rendered(ctx, plane, routes, annotations, rest);
            && Rendered(normal, plane, routes, annotations, rest) == rendered
            && (DocumentState(normal, plane, rendered.value, None).Some? <==> ctx.contract(plane, routes, rest))
  {
    AcceptedIsPlain(ctx.baseDomain);
    RenderedIsAcceptedWhen(ctx.(baseDomain := Normal(ctx.baseDomain)), plane, routes, annotations, rest);
  }

  // The input: a domain with a capital letter. The configuration is valid and the
  // gateway is rendered, but the state check refuses it whatever else it holds.
  lemma CapitalDomainIsRefused(ctx: Context, plane: Plane, routes: Json, annotations: map<string, Json>, rest: Json)
    requires ctx.baseDomain == CAPITAL
    ensures Validated(ctx.baseDomain)
    ensures var rendered := Rendered(ctx, plane, routes, annotations, rest);
            rendered.Some? && DocumentState(ctx, plane, rendered.value, None).None?
  {
    CapitalIsValidated();
    hide Normal, DomainOf, Validated, DocumentState;
    RenderedIsAcceptedWhen(ctx, plane, routes, annotations, rest);
  }

  /****** The managed proxies ******/

  // An environment entry; `plain` says that it has a name and a value and nothing else.
  datatype Env = Env(name: string, value: string, plain: bool)

  datatype Container = Container(name: string, env: seq<Env>)

  datatype Proxy = Proxy(name: string, containers: seq<Container>, rest: Json)

  const FRONT_DOOR := "FRONT_DOOR_ID"

  function FrontDoorEntries(env: seq<Env>): seq<Env> {
    if env == [] then []
    else
      var before, last := FrontDoorEntries(env[..|env| - 1]), env[|env| - 1];
      if last.name == FRONT_DOOR then before + [last] else before
  }

  function AllEntries(containers: seq<Container>): seq<Env> {
    if containers == [] then []
    else AllEntries(containers[..|containers| - 1]) + FrontDoorEntries(containers[|containers| - 1].env)
  }

  // front_door_id: refused, absent, or the one valid value.
  datatype Identity = Refused | Unbound | Trusts(id: string)

  function FrontDoorId(uuid: string -> bool, d: Proxy): Identity {
    var entries := AllEntries(d.containers);
    if |entries| > 1 then Refused
    else if entries == [] then Unbound
    else if !entries[0].plain || !uuid(entries[0].value) then Refused
    else Trusts(entries[0].value)
  }

  predicate ManagedProxy(name: string) {
    name == "llm-api-proxy" || name == "llm-admin-proxy"
  }

  // bind_deployment.
  function BoundDeployment(uuid: string -> bool, d: Proxy, identifier: string): Option<Proxy> {
    var existing := FrontDoorId(uuid, d);
    if || !uuid(identifier) || !ManagedProxy(d.name) || existing.Refused?
       || (existing.Trusts? && Lower(existing.id) != Lower(identifier))
       || |d.containers| != 1 || d.containers[0].name != "auth-proxy"
    then None
    else if existing.Trusts? then Some(d)
    else
      var c := d.containers[0];
      Some(d.(containers := [c.(env := c.env + [Env(FRONT_DOOR, identifier, true)])]))
  }

  lemma OneContainer(c: Container)
    ensures AllEntries([c]) == FrontDoorEntries(c.env)
  {
    assert [c][..0] == [];
  }

  // A bound proxy trusts what it trusted before, or else the identifier; binding it
  // again changes nothing.
  lemma BoundDeploymentTrusts(uuid: string -> bool, d: Proxy, identifier: string)
    requires BoundDeployment(uuid, d, identifier).Some?
    ensures var bound, existing := BoundDeployment(uuid, d, identifier).value, FrontDoorId(uuid, d);
            && FrontDoorId(uuid, bound) == Trusts(if existing.Trusts? then existing.id else identifier)
            && bound.name == d.name && bound.rest == d.rest
            && BoundDeployment(uuid, bound, identifier) == Some(bound)
  {
    hide Lower, ManagedProxy, AllEntries, FrontDoorEntries;
    var c := d.containers[0];
    assert d.containers == [c];
    OneContainer(c);
    if FrontDoorId(uuid, d).Unbound? {
      var more := c.(env := c.env + [Env(FRONT_DOOR, identifier, true)]);
      OneContainer(more);
      MoreEntries(c.env, identifier);
    }
  }

  lemma MoreEntries(env: seq<Env>, identifier: string)
    ensures FrontDoorEntries(env + [Env(FRONT_DOOR, identifier, true)]) == FrontDoorEntries(env) + [Env(FRONT_DOOR, identifier, true)]
  {
    assert (env + [Env(FRONT_DOOR, identifier, true)])[..|env|] == env;
  }

  datatype Document = Deployment(proxy: Proxy) | OtherDocument(content: Json)

  // One rendered document with the binding of its live counterpart.
  function PreservedDocument(uuid: string -> bool, document: Document, live: map<string, Proxy>): Option<Document> {
    if document.OtherDocument? || !ManagedProxy(document.proxy.name) || document.proxy.name !in live then Some(document)
    else
      match FrontDoorId(uuid, live[document.proxy.name])
      case Refused => None
      case Unbound => Some(document)
      case Trusts(id) =>
        var bound := BoundDeployment(uuid, document.proxy, id);
        if bound.None? then None else Some(Deployment(bound.value))
  }

  // preserve_binding: it edits a copy of the rendered documents one by one.
  method PreserveBinding(uuid: string -> bool, documents: seq<Document>, live: map<string, Proxy>) returns (result: Option<seq<Document>>)
    ensures result.Some? <==> forall d | d in documents :: PreservedDocument(uuid, d, live).Some?
    ensures result.Some? ==>
              && |result.value| == |documents|
              && forall i | 0 <= i < |documents| :: Some(result.value[i]) == PreservedDocument(uuid, documents[i], live)
  {
    hide PreservedDocument;
    var edited := documents;
    for i := 0 to |documents|
      invariant |edited| == |documents|
      invariant forall k | 0 <= k < i :: Some(edited[k]) == PreservedDocument(uuid, documents[k], live)
      invariant forall k | i <= k < |documents| :: edited[k] == documents[k]
    {
      var document := PreservedDocument(uuid, edited[i], live);
      if document.None? {
        assert documents[i] in documents;
        return None;
      }
      edited := edited[i := document.value];
    }
    return Some(edited);
  }

  // A rendered proxy whose live counterpart trusts a Front Door trusts the same one.
  lemma PreservedTrusts(uuid: string -> bool, proxy: Proxy, live: map<string, Proxy>)
    requires ManagedProxy(proxy.name) && proxy.name in live && FrontDoorId(uuid, live[proxy.name]).Trusts?
    requires PreservedDocument(uuid, Deployment(proxy), live).Some?
    ensures var kept := PreservedDocument(uuid, Deployment(proxy), live).value;
            && kept.Deployment? && FrontDoorId(uuid, kept.proxy).Trusts?
            && Lower(FrontDoorId(uuid, kept.proxy).id) == Lower(FrontDoorId(uuid, live[proxy.name]).id)
  {
    BoundDeploymentTrusts(uuid, proxy, FrontDoorId(uuid, live[proxy.name]).id);
  }
}
