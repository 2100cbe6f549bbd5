// Rewriting the live firewall policy of the API to the reviewed method rules.
module ApiWss {
  import opened Common
  import opened Text
  import opened Patterns
  import opened ApiProtocol

  /****** Normal spelling of a rule ******/

  function NormalCondition(c: Condition): Condition {
    c.(negate := if c.negate == Some(false) then None else c.negate,
       transforms := if c.transforms == Some([]) then None else c.transforms,
       selector := if c.selector == Unset || c.selector == Named("") then Absent else c.selector)
  }

  function NormalRule(rule: Rule): Rule {
    var conditions := seq(|rule.conditions|, i requires 0 <= i < |rule.conditions| => NormalCondition(rule.conditions[i]));
    if rule.kind.MatchRule? then
      rule.(duration := if rule.duration.NullNumber? then Missing else rule.duration,
            threshold := if rule.threshold.NullNumber? then Missing else rule.threshold,
            groupBy := if rule.groupBy == Some([]) then None else rule.groupBy,
            conditions := conditions)
    else rule.(conditions := conditions)
  }

  // normalized_rule, dropping fields from a copy.
  method NormalizedRule(rule: Rule) returns (value: Rule)
    ensures value == NormalRule(rule)
  {
    value := rule;
    if value.kind.MatchRule? {
      if value.duration.NullNumber? { value := value.(duration := Missing); }
      if value.threshold.NullNumber? { value := value.(threshold := Missing); }
      if value.groupBy == Some([]) { value := value.(groupBy := None); }
    }
    var conditions := value.conditions;
    for i := 0 to |conditions|
      invariant |conditions| == |rule.conditions|
      invariant forall k | 0 <= k < i :: conditions[k] == NormalCondition(rule.conditions[k])
      invariant forall k | i <= k < |conditions| :: conditions[k] == rule.conditions[k]
    {
      var condition := conditions[i];
      if condition.negate == Some(false) { condition := condition.(negate := None); }
      if condition.transforms == Some([]) { condition := condition.(transforms := None); }
      if condition.selector == Unset || condition.selector == Named("") { condition := condition.(selector := Absent); }
      conditions := conditions[i := condition];
    }
    value := value.(conditions := conditions);
    assert value.conditions == NormalRule(rule).conditions;
  }

  lemma ConditionMeansTheSame(c: Condition, r: Request)
    ensures Holds(NormalCondition(c), r) <==> Holds(c, r)
  {
    assert "Upgrade" != "" && "Connection" != "";
    assert Read(NormalCondition(c), r) == Read(c, r);
  }

  // Normalising a rule does not change what it blocks.
  lemma RuleMeansTheSame(rule: Rule, r: Request)
    ensures Blocks(NormalRule(rule), r) <==> Blocks(rule, r)
  {
    hide Holds, NormalCondition;
    var normal := NormalRule(rule).conditions;
    forall i | 0 <= i < |rule.conditions|
      ensures Holds(normal[i], r) <==> Holds(rule.conditions[i], r)
    {
      ConditionMeansTheSame(rule.conditions[i], r);
    }
    if Blocks(NormalRule(rule), r) {
      forall c | c in rule.conditions
        ensures Holds(c, r)
      {
        var i :| 0 <= i < |rule.conditions| && rule.conditions[i] == c;
        assert normal[i] in normal;
      }
    }
    if Blocks(rule, r) {
      forall c | c in normal
        ensures Holds(c, r)
      {
        var i :| 0 <= i < |normal| && normal[i] == c;
        assert rule.conditions[i] in rule.conditions;
      }
    }
  }

  /****** The policy ******/

  const RATE := "RateLimitApi"

  // A live policy; `reviewed` stands for the literal checks of its scope, SKU,
  // properties, state and mode.
  datatype Policy = Policy(reviewed: bool, settings: Json, managed: Json, rules: seq<Rule>)

  function RateRules(rules: seq<Rule>): seq<Rule> {
    if rules == [] then []
    else
      var before, last := RateRules(rules[..|rules| - 1]), rules[|rules| - 1];
      if last.name == RATE then before + [last] else before
  }

  function MethodRules(rules: seq<Rule>): seq<Rule> {
    if rules == [] then []
    else
      var before, last := MethodRules(rules[..|rules| - 1]), rules[|rules| - 1];
      if last.name == RATE then before else before + [NormalRule(last)]
  }

  predicate ReviewedRate(rule: Rule) {
    rule.priority == 20 && rule.block && rule.enabled && rule.kind.RateLimitRule? && rule.duration == Number(1)
  }

  // The policy before websockets: POST only.
  function LegacyRules(): seq<Rule> {
    [Block("BlockNonPost", 10, [Condition(RequestMethod, Absent, [Exactly("POST")], Some(true), None)])]
  }

  // desired_waf: the rules to install, when the live policy is a reviewed one.
  function DesiredWaf(live: Policy): Option<Policy> {
    var rate, methods := RateRules(live.rules), MethodRules(live.rules);
    if !live.reviewed || |rate| != 1 || !ReviewedRate(rate[0]) || (methods != LegacyRules() && methods != ApiMethodRules()) then None
    else Some(live.(rules := ApiMethodRules() + [rate[0]]))
  }

  lemma {:induction false} SplitRules(rules: seq<Rule>)
    ensures forall rule :: rule in RateRules(rules) <==> rule in rules && rule.name == RATE
    ensures forall rule | rule in rules && rule.name != RATE :: NormalRule(rule) in MethodRules(rules)
    ensures forall rule | rule in MethodRules(rules) :: exists was | was in rules && was.name != RATE :: rule == NormalRule(was)
  {
    hide NormalRule;
    if rules != [] {
      SplitRules(rules[..|rules| - 1]);
      assert rules == rules[..|rules| - 1] + [rules[|rules| - 1]];
    }
  }

  // The reviewed rules are in normal spelling and none of them is the rate rule.
  lemma ApiRulesAreNormal(rate: Rule)
    requires rate.name == RATE
    ensures MethodRules(ApiMethodRules() + [rate]) == ApiMethodRules()
    ensures RateRules(ApiMethodRules() + [rate]) == [rate]
  {
    hide NormalRule, UriPattern, ConnectionPattern, MethodRules, RateRules;
    var rules := ApiMethodRules();
    forall i | 0 <= i < |rules|
      ensures NormalRule(rules[i]) == rules[i] && rules[i].name != RATE
    {
      assert rules[i].name[0] == 'B' && RATE[0] == 'R';
      NormalAlready(rules[i]);
    }
    KeepsAll(rules, rate);
  }

  lemma NormalAlready(rule: Rule)
    requires rule.duration.Missing? && rule.threshold.Missing? && rule.groupBy.None?
    requires forall c | c in rule.conditions :: NormalCondition(c) == c
    ensures NormalRule(rule) == rule
  {
    assert NormalRule(rule).conditions == rule.conditions;
  }

  lemma KeepsAll(rules: seq<Rule>, rate: Rule)
    requires rate.name == RATE && forall i | 0 <= i < |rules| :: NormalRule(rules[i]) == rules[i] && rules[i].name != RATE
    ensures MethodRules(rules + [rate]) == rules && RateRules(rules + [rate]) == [rate]
  {
    hide NormalRule;
    assert (rules + [rate])[..|rules|] == rules;
    KeepsMethods(rules);
  }

  lemma {:induction false} KeepsMethods(rules: seq<Rule>)
    requires forall i | 0 <= i < |rules| :: NormalRule(rules[i]) == rules[i] && rules[i].name != RATE
    ensures MethodRules(rules) == rules && RateRules(rules) == []
  {
    hide NormalRule;
    if rules != [] {
      KeepsMethods(rules[..|rules| - 1]);
      assert rules == rules[..|rules| - 1] + [rules[|rules| - 1]];
    }
  }

  // What is installed is accepted again and stays as it is, with the same rate rule.
  lemma DesiredIsFixed(live: Policy)
    requires DesiredWaf(live).Some?
    ensures DesiredWaf(DesiredWaf(live).value) == DesiredWaf(live)
    ensures RateRules(DesiredWaf(live).value.rules) == RateRules(live.rules)
    ensures DesiredWaf(live).value.settings == live.settings && DesiredWaf(live).value.managed == live.managed
  {
    hide ApiMethodRules, LegacyRules, NormalRule;
    SplitRules(live.rules);
    var rate := RateRules(live.rules)[0];
    assert rate in RateRules(live.rules);
    ApiRulesAreNormal(rate);
  }

  lemma LegacyPasses(r: Request)
    ensures Passes(LegacyRules(), r) <==> r.verb == "POST"
  {
    hide Holds, PatternHolds;
    var rule := LegacyRules()[0];
    BlocksOne(rule, r, rule.conditions[0]);
    HoldsOne(rule.conditions[0], r, Exactly("POST"));
    assert PatternHolds(Exactly("POST"), r.verb) <==> r.verb == "POST" by { ExactlyHolds("POST", r.verb); }
  }

  lemma ExactlyHolds(text: string, value: string)
    ensures PatternHolds(Exactly(text), value) <==> value == text
  {
  }

  // However they are spelled, the live method rules let through what their normal
  // spelling does.
  lemma LiveMeansMethods(rules: seq<Rule>, r: Request)
    ensures (forall rule | rule in rules && rule.name != RATE :: !Blocks(rule, r)) <==> Passes(MethodRules(rules), r)
  {
    hide Blocks, NormalRule;
    SplitRules(rules);
    forall rule
      ensures Blocks(NormalRule(rule), r) <==> Blocks(rule, r)
    {
      RuleMeansTheSame(rule, r);
    }
  }

  // The update never blocks what the live method rules let through, and what it adds
  // are exactly the websocket handshakes.
  lemma UpdateOnlyAdmitsHandshakes(live: Policy, r: Request)
    requires DesiredWaf(live).Some? && WellFormed(r.uri)
    ensures var before := forall rule | rule in live.rules && rule.name != RATE :: !Blocks(rule, r);
            var after := forall rule | rule in DesiredWaf(live).value.rules && rule.name != RATE :: !Blocks(rule, r);
            && (after <==> Gate(r))
            && (before ==> after)
            && (after && !before ==> r.verb == "GET" && ResponsesPath(r.uri.path) && Handshake(r))
  {
    hide Blocks, NormalRule, ApiMethodRules, LegacyRules, Passes, Handshake, WellFormed;
    LiveMeansMethods(live.rules, r);
    LiveMeansMethods(DesiredWaf(live).value.rules, r);
    SplitRules(live.rules);
    assert RateRules(live.rules)[0] in RateRules(live.rules);
    ApiRulesAreNormal(RateRules(live.rules)[0]);
    LegacyPasses(r);
    PassesIsGate(r);
  }
}
