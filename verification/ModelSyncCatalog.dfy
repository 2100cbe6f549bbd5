// Reconciling the model mappings of a gateway with a catalog of discovered
// deployments: an in-place loop over two keyed lists.
module ModelSyncCatalog {
  import opened Common
  import opened Text

  /****** Data model ******/

  // What the loop takes from elsewhere: the two generated names (digests of their
  // argument), the endpoint normaliser and the option and field checks. All results
  // hold for any such rules.
  datatype Rules = Rules(
    alias: string -> string,
    id: string -> string,
    endpoint: string -> Option<string>,
    options: (map<string, Json>, map<string, Json>) -> bool,
    fields: Mapping -> bool)

  datatype Connection = Connection(
    alias: string, subscription: string, group: string, name: string, accountId: string, endpoint: Option<string>)

  datatype Mapping = Mapping(
    modelGroup: string, alias: string, deployment: string, id: string, apiVersion: string,
    baseModel: Option<string>, params: Option<map<string, Json>>, info: Option<map<string, Json>>)

  datatype Config = Config(connections: seq<Connection>, models: seq<Mapping>)

  datatype Account = Account(subscription: string, group: string, name: string, accountId: string, endpoint: string)

  datatype Target = Target(
    modelGroup: string, deployment: string, apiVersion: string, baseModel: Option<string>, actual: string,
    params: map<string, Json>, info: map<string, Json>)

  datatype Match = Match(account: Account, target: Target)

  datatype Policy = Merge | Replace

  type Key = (string, string, string)

  function KeyOf(m: Mapping): Key {
    (m.modelGroup, m.alias, m.deployment)
  }

  function Identity(accountId: string): string {
    Lower(accountId)
  }

  function AccountId(subscription: string, group: string, name: string): string {
    "/subscriptions/" + subscription + "/resourceGroups/" + group + "/providers/Microsoft.CognitiveServices/accounts/" + name
  }

  function Endpoint(rules: Rules, c: Connection): Option<string> {
    rules.endpoint(if c.endpoint.Some? then c.endpoint.value else "https://" + c.name + ".openai.azure.com")
  }

  function OrEmpty(fields: Option<map<string, Json>>): map<string, Json> {
    if fields.Some? then fields.value else map[]
  }

  predicate OptionsValid(rules: Rules, m: Mapping) {
    rules.options(OrEmpty(m.params), OrEmpty(m.info))
  }

  /****** The checks around the loop ******/

  predicate DistinctAliases(connections: seq<Connection>) {
    forall i, j | 0 <= i < j < |connections| :: connections[i].alias != connections[j].alias
  }

  predicate DistinctAccounts(connections: seq<Connection>) {
    forall i, j | 0 <= i < j < |connections| :: Identity(connections[i].accountId) != Identity(connections[j].accountId)
  }

  predicate DistinctKeys(models: seq<Mapping>) {
    forall i, j | 0 <= i < j < |models| :: KeyOf(models[i]) != KeyOf(models[j])
  }

  predicate DistinctIds(models: seq<Mapping>) {
    forall i, j | 0 <= i < j < |models| :: models[i].id != models[j].id
  }

  // application_settings.
  predicate Settings(rules: Rules, config: Config) {
    && config.models != [] && DistinctAliases(config.connections) && DistinctIds(config.models)
    && forall m | m in config.models ::
         && OptionsValid(rules, m) && rules.fields(m)
         && exists c | c in config.connections :: c.alias == m.alias && Endpoint(rules, c).Some?
  }

  predicate Consistent(c: Connection) {
    Identity(AccountId(c.subscription, c.group, c.name)) == Identity(c.accountId)
  }

  // What reconcile demands of the configuration it starts from.
  predicate Sound(config: Config) {
    SoundConnections(config.connections) && DistinctKeys(config.models)
  }

  predicate SoundConnections(connections: seq<Connection>) {
    && DistinctAliases(connections) && DistinctAccounts(connections)
    && forall c | c in connections :: Consistent(c)
  }

  function AliasesOf(connections: seq<Connection>): set<string> {
    set c | c in connections :: c.alias
  }

  function IdentitiesOf(connections: seq<Connection>): set<string> {
    set c | c in connections :: Identity(c.accountId)
  }

  /****** One match ******/

  function FindConnection(connections: seq<Connection>, accountId: string): (index: Option<nat>)
    ensures index.Some? ==>
              && index.value < |connections| && Identity(connections[index.value].accountId) == Identity(accountId)
              && forall i | 0 <= i < index.value :: Identity(connections[i].accountId) != Identity(accountId)
    ensures index.None? ==> forall c | c in connections :: Identity(c.accountId) != Identity(accountId)
  {
    if connections == [] then None
    else
      var last := |connections| - 1;
      var before := FindConnection(connections[..last], accountId);
      if before.Some? then before
      else if Identity(connections[last].accountId) == Identity(accountId) then Some(last)
      else None
  }

  function FindMapping(models: seq<Mapping>, key: Key): (index: Option<nat>)
    ensures index.Some? ==>
              && index.value < |models| && KeyOf(models[index.value]) == key
              && forall i | 0 <= i < index.value :: KeyOf(models[i]) != key
    ensures index.None? ==> forall m | m in models :: KeyOf(m) != key
  {
    if models == [] then None
    else
      var last := |models| - 1;
      var before := FindMapping(models[..last], key);
      if before.Some? then before
      else if KeyOf(models[last]) == key then Some(last)
      else None
  }

  // The connections after a match, and the alias it uses.
  function Connect(rules: Rules, connections: seq<Connection>, account: Account): Option<(seq<Connection>, string)> {
    var i := FindConnection(connections, account.accountId);
    if i.None? then
      var alias := rules.alias(Identity(account.accountId));
      if exists c | c in connections :: c.alias == alias then None
      else
        var added := Connection(alias, account.subscription, account.group, account.name, account.accountId, Some(account.endpoint));
        Some((connections + [added], alias))
    else
      var c := connections[i.value];
      if Endpoint(rules, c).None? then None
      else if Endpoint(rules, c).value == account.endpoint then Some((connections, c.alias))
      else Some((connections[i.value := c.(endpoint := Some(account.endpoint))], c.alias))
  }

  function Overlay(fields: Option<map<string, Json>>, more: map<string, Json>): Option<map<string, Json>> {
    if more == map[] then fields else Some(OrEmpty(fields) + more)
  }

  // The model options a target leaves in a mapping. The base model is the one the
  // catalog states, else the one already recorded, else the deployed one.
  function Applied(m: Mapping, target: Target): Mapping {
    m.(apiVersion := target.apiVersion,
       baseModel := if target.baseModel.Some? then target.baseModel
                    else if m.baseModel.Some? then m.baseModel
                    else Some(target.actual),
       params := Overlay(m.params, target.params),
       info := Overlay(m.info, target.info))
  }

  function NewId(rules: Rules, account: Account, target: Target): string {
    rules.id(target.modelGroup + "|" + Identity(account.accountId) + "|" + target.deployment)
  }

  function Fresh(rules: Rules, account: Account, target: Target, alias: string): Mapping {
    Mapping(target.modelGroup, alias, target.deployment, NewId(rules, account, target), target.apiVersion, None, None, None)
  }

  function Map(rules: Rules, models: seq<Mapping>, m: Match, alias: string): Option<seq<Mapping>> {
    var j := FindMapping(models, (m.target.modelGroup, alias, m.target.deployment));
    var created := Fresh(rules, m.account, m.target, alias);
    if j.None? && exists x | x in models :: x.id == created.id then None
    else
      var changed := Applied(if j.None? then created else models[j.value], m.target);
      if !OptionsValid(rules, changed) then None
      else Some(if j.None? then models + [changed] else models[j.value := changed])
  }

  datatype State = State(connections: seq<Connection>, models: seq<Mapping>, selected: set<Key>)

  function Step(rules: Rules, s: State, m: Match): Option<State> {
    var connected := Connect(rules, s.connections, m.account);
    if connected.None? then None
    else
      var (connections, alias) := connected.value;
      var models := Map(rules, s.models, m, alias);
      if models.None? then None
      else Some(State(connections, models.value, s.selected + {(m.target.modelGroup, alias, m.target.deployment)}))
  }

  /****** The whole of reconcile ******/

  function Loop(rules: Rules, config: Config, matches: seq<Match>): Option<State> {
    if matches == [] then Some(State(config.connections, config.models, {}))
    else
      var before := Loop(rules, config, matches[..|matches| - 1]);
      if before.None? then None else Step(rules, before.value, matches[|matches| - 1])
  }

  function Selected(models: seq<Mapping>, keys: set<Key>): seq<Mapping> {
    if models == [] then []
    else
      var rest, last := Selected(models[..|models| - 1], keys), models[|models| - 1];
      if KeyOf(last) in keys then rest + [last] else rest
  }

  function Reconciled(rules: Rules, config: Config, matches: seq<Match>, policy: Policy): Option<Config> {
    if matches == [] || !Settings(rules, config) || !Sound(config) then None
    else
      var s := Loop(rules, config, matches);
      if s.None? then None
      else
        var models := if policy.Replace? then Selected(s.value.models, s.value.selected) else s.value.models;
        var desired := Config(s.value.connections, models);
        if Settings(rules, desired) then Some(desired) else None
  }

  lemma SoundAppend(connections: seq<Connection>, c: Connection)
    ensures AliasesOf(connections + [c]) == AliasesOf(connections) + {c.alias}
    ensures IdentitiesOf(connections + [c]) == IdentitiesOf(connections) + {Identity(c.accountId)}
    ensures SoundConnections(connections) ==>
              (SoundConnections(connections + [c]) <==>
               c.alias !in AliasesOf(connections) && Identity(c.accountId) !in IdentitiesOf(connections) && Consistent(c))
  {
    hide Identity, Consistent;
    var more := connections + [c];
    assert more[|connections|] == c && forall i | 0 <= i < |connections| :: more[i] == connections[i] && connections[i] in connections;
  }

  lemma SoundPrefix(connections: seq<Connection>, i: nat)
    requires i <= |connections| && SoundConnections(connections)
    ensures SoundConnections(connections[..i])
  {
    hide Identity, Consistent;
  }

  // The loop over the existing connections and the check of the mapping identities.
  method CheckSound(config: Config) returns (sound: bool)
    ensures sound <==> Sound(config)
  {
    hide Identity, Consistent, SoundConnections, DistinctKeys, AliasesOf, IdentitiesOf;
    var connections := config.connections;
    assert AliasesOf([]) == {} && IdentitiesOf([]) == {} && SoundConnections([]) by { Nothing(); }
    var aliases: set<string>, identities: set<string> := {}, {};
    for i := 0 to |connections|
      invariant aliases == AliasesOf(connections[..i]) && identities == IdentitiesOf(connections[..i])
      invariant SoundConnections(connections[..i])
    {
      var c := connections[i];
      SoundAppend(connections[..i], c);
      assert connections[..i + 1] == connections[..i] + [c];
      if c.alias in aliases || Identity(c.accountId) in identities || !Consistent(c) {
        if Sound(config) { SoundPrefix(connections, i + 1); }
        return false;
      }
      aliases, identities := aliases + {c.alias}, identities + {Identity(c.accountId)};
    }
    assert connections[..|connections|] == connections;
    return DistinctKeys(config.models);
  }

  lemma Nothing()
    ensures AliasesOf([]) == {} && IdentitiesOf([]) == {} && SoundConnections([])
  {
  }

  // reconcile, over its own mutable copies of the two lists.
  method Reconcile(rules: Rules, config: Config, matches: seq<Match>, policy: Policy) returns (desired: Option<Config>)
    ensures desired == Reconciled(rules, config, matches, policy)
  {
    hide Settings, Sound, Connect, Map, Selected;
    if matches == [] || !Settings(rules, config) { return None; }
    var sound := CheckSound(config);
    if !sound { return None; }
    var connections, models := config.connections, config.models;
    var selected: set<Key> := {};
    for k := 0 to |matches|
      invariant Loop(rules, config, matches[..k]) == Some(State(connections, models, selected))
    {
      var m := matches[k];
      assert matches[..k + 1][..k] == matches[..k] && matches[..k + 1][k] == m;
      var connected := Connect(rules, connections, m.account);
      if connected.None? { LoopStops(rules, config, matches, k + 1); return None; }
      var alias := connected.value.1;
      connections := connected.value.0;
      selected := selected + {(m.target.modelGroup, alias, m.target.deployment)};
      var mapped := Map(rules, models, m, alias);
      if mapped.None? { LoopStops(rules, config, matches, k + 1); return None; }
      models := mapped.value;
    }
    assert matches[..|matches|] == matches;
    if policy.Replace? { models := Selected(models, selected); }
    if !Settings(rules, Config(connections, models)) { return None; }
    return Some(Config(connections, models));
  }

  lemma {:induction false} LoopStops(rules: Rules, config: Config, matches: seq<Match>, k: nat)
    requires k <= |matches| && Loop(rules, config, matches[..k]).None?
    ensures Loop(rules, config, matches).None?
  {
    if k < |matches| {
      var before := matches[..|matches| - 1];
      assert before[..k] == matches[..k];
      LoopStops(rules, config, before, k);
    } else {
      assert matches[..k] == matches;
    }
  }

  /****** What every step keeps ******/

  predicate ConnectionsKept(before: seq<Connection>, now: seq<Connection>) {
    |before| <= |now| && forall i | 0 <= i < |before| :: now[i].(endpoint := before[i].endpoint) == before[i]
  }

  predicate ModelsKept(before: seq<Mapping>, now: seq<Mapping>) {
    |before| <= |now| && forall i | 0 <= i < |before| :: KeyOf(now[i]) == KeyOf(before[i]) && now[i].id == before[i].id
  }

  predicate Unique(connections: seq<Connection>, models: seq<Mapping>) {
    DistinctAliases(connections) && DistinctAccounts(connections) && DistinctKeys(models) && DistinctIds(models)
  }

  // The alias of an account; the empty text when it has no connection.
  function AliasIn(connections: seq<Connection>, accountId: string): string {
    var i := FindConnection(connections, accountId);
    if i.None? then "" else connections[i.value].alias
  }

  function SelectedKey(connections: seq<Connection>, m: Match): Key {
    (m.target.modelGroup, AliasIn(connections, m.account.accountId), m.target.deployment)
  }

  lemma ConnectKeeps(rules: Rules, connections: seq<Connection>, account: Account)
    requires DistinctAliases(connections) && DistinctAccounts(connections)
    requires Connect(rules, connections, account).Some?
    ensures var (now, alias) := Connect(rules, connections, account).value;
            && DistinctAliases(now) && DistinctAccounts(now) && ConnectionsKept(connections, now)
            && FindConnection(now, account.accountId).Some? && AliasIn(now, account.accountId) == alias
            && forall i | 0 <= i < |connections| :: now[i] == connections[i] || Identity(now[i].accountId) == Identity(account.accountId)
  {
    hide Identity, Endpoint, FindConnection;
    var (now, alias) := Connect(rules, connections, account).value;
    var i := FindConnection(connections, account.accountId);
    var at := if i.None? then |connections| else i.value;
    if i.None? {
      assert now[..|connections|] == connections;
      assert forall k | 0 <= k < |connections| :: now[k] == connections[k] && connections[k] in connections;
    } else {
      assert forall k | 0 <= k < |now| :: now[k].accountId == connections[k].accountId && now[k].alias == connections[k].alias;
    }
    assert now[at] in now && now[at].alias == alias && Identity(now[at].accountId) == Identity(account.accountId);
    ConnectDistinct(rules, connections, account);
    FoundAt(now, account.accountId, at);
  }

  lemma ConnectDistinct(rules: Rules, connections: seq<Connection>, account: Account)
    requires DistinctAliases(connections) && DistinctAccounts(connections)
    requires Connect(rules, connections, account).Some?
    ensures var now := Connect(rules, connections, account).value.0; DistinctAliases(now) && DistinctAccounts(now)
  {
    hide Identity, Endpoint, FindConnection;
    var now := Connect(rules, connections, account).value.0;
    if FindConnection(connections, account.accountId).None? {
      assert forall k | 0 <= k < |connections| :: now[k] == connections[k] && connections[k] in connections;
    } else {
      assert forall k | 0 <= k < |now| :: now[k].accountId == connections[k].accountId && now[k].alias == connections[k].alias;
    }
  }

  lemma FoundAt(connections: seq<Connection>, accountId: string, at: nat)
    requires DistinctAccounts(connections) && at < |connections| && Identity(connections[at].accountId) == Identity(accountId)
    ensures FindConnection(connections, accountId) == Some(at)
  {
    hide Identity;
    assert connections[at] in connections;
  }

  lemma MapKeeps(rules: Rules, models: seq<Mapping>, m: Match, alias: string)
    requires DistinctKeys(models) && DistinctIds(models) && Map(rules, models, m, alias).Some?
    ensures var now := Map(rules, models, m, alias).value;
            var key := (m.target.modelGroup, alias, m.target.deployment);
            && DistinctKeys(now) && DistinctIds(now) && ModelsKept(models, now)
            && (forall i | 0 <= i < |models| && KeyOf(models[i]) != key :: now[i] == models[i])
            && (forall i | |models| <= i < |now| :: KeyOf(now[i]) == key)
  {
    hide FindMapping, OptionsValid;
    var now := Map(rules, models, m, alias).value;
    var j := FindMapping(models, (m.target.modelGroup, alias, m.target.deployment));
    if j.None? {
      assert forall k | 0 <= k < |models| :: now[k] == models[k] && models[k] in models;
    } else {
      assert forall k | 0 <= k < |now| :: KeyOf(now[k]) == KeyOf(models[k]) && now[k].id == models[k].id;
    }
  }

  lemma AliasStays(before: seq<Connection>, now: seq<Connection>, accountId: string)
    requires ConnectionsKept(before, now) && DistinctAccounts(now) && FindConnection(before, accountId).Some?
    ensures FindConnection(now, accountId) == FindConnection(before, accountId)
    ensures AliasIn(now, accountId) == AliasIn(before, accountId)
  {
    hide Identity;
    var i := FindConnection(before, accountId).value;
    assert now[i].accountId == before[i].accountId && now[i] in now;
    var j := FindConnection(now, accountId).value;
    assert Identity(now[j].accountId) == Identity(now[i].accountId);
  }

  lemma StepKeeps(rules: Rules, s: State, m: Match)
    requires Unique(s.connections, s.models) && Step(rules, s, m).Some?
    ensures var t := Step(rules, s, m).value;
            && Unique(t.connections, t.models)
            && ConnectionsKept(s.connections, t.connections) && ModelsKept(s.models, t.models)
            && FindConnection(t.connections, m.account.accountId).Some?
            && t.selected == s.selected + {SelectedKey(t.connections, m)}
  {
    hide Connect, Map, Identity, KeyOf;
    ConnectKeeps(rules, s.connections, m.account);
    MapKeeps(rules, s.models, m, Connect(rules, s.connections, m.account).value.1);
  }

  lemma KeptRefl(config: Config)
    ensures ConnectionsKept(config.connections, config.connections) && ModelsKept(config.models, config.models)
  {
  }

  lemma KeptTrans(config: Config, s: State, t: State)
    requires ConnectionsKept(config.connections, s.connections) && ModelsKept(config.models, s.models)
    requires ConnectionsKept(s.connections, t.connections) && ModelsKept(s.models, t.models)
    ensures ConnectionsKept(config.connections, t.connections) && ModelsKept(config.models, t.models)
  {
    forall i | 0 <= i < |config.connections|
      ensures t.connections[i].(endpoint := config.connections[i].endpoint) == config.connections[i]
    {
      assert s.connections[i].(endpoint := config.connections[i].endpoint) == config.connections[i];
      assert t.connections[i].(endpoint := s.connections[i].endpoint) == s.connections[i];
    }
  }

  lemma DistinctOf(t: State)
    requires Unique(t.connections, t.models)
    ensures DistinctAccounts(t.connections)
  {
  }

  // The whole loop keeps aliases, resource ids, mapping keys and model ids unique,
  // changes none of the existing ones and only appends connections.
  lemma {:induction false} LoopKeeps(rules: Rules, config: Config, matches: seq<Match>)
    requires Unique(config.connections, config.models) && Loop(rules, config, matches).Some?
    ensures var s := Loop(rules, config, matches).value;
            && Unique(s.connections, s.models)
            && ConnectionsKept(config.connections, s.connections) && ModelsKept(config.models, s.models)
            && (forall m | m in matches :: FindConnection(s.connections, m.account.accountId).Some?)
            && s.selected == set m | m in matches :: SelectedKey(s.connections, m)
  {
    hide Step, Identity, KeyOf, Unique, ConnectionsKept, ModelsKept;
    if matches == [] {
      KeptRefl(config);
    } else {
      var before, last := matches[..|matches| - 1], matches[|matches| - 1];
      LoopKeeps(rules, config, before);
      var s := Loop(rules, config, before).value;
      StepKeeps(rules, s, last);
      var t := Step(rules, s, last).value;
      KeptTrans(config, s, t);
      assert matches == before + [last];
      forall m | m in before
        ensures FindConnection(t.connections, m.account.accountId).Some?
        ensures SelectedKey(t.connections, m) == SelectedKey(s.connections, m)
      {
        DistinctOf(t);
        AliasStays(s.connections, t.connections, m.account.accountId);
      }
    }
  }

  /****** When a match changes nothing ******/

  // What discover guarantees of its matches, beyond the distinct keys of the parsed
  // catalog: accounts are described once, consistently and with a normal endpoint.
  predicate Discovered(rules: Rules, matches: seq<Match>) {
    && (forall m | m in matches ::
          && Identity(AccountId(m.account.subscription, m.account.group, m.account.name)) == Identity(m.account.accountId)
          && rules.endpoint(m.account.endpoint) == Some(m.account.endpoint))
    && (forall m, o | m in matches && o in matches ::
          Identity(m.account.accountId) == Identity(o.account.accountId) ==> m.account == o.account)
    && DistinctCatalog(matches)
  }

  predicate DistinctCatalog(matches: seq<Match>) {
    forall i, j | 0 <= i < j < |matches| :: CatalogKey(matches[i]) != CatalogKey(matches[j])
  }

  function CatalogKey(m: Match): Key {
    (m.target.modelGroup, Identity(m.account.accountId), m.target.deployment)
  }

  // A match is represented by connection i and mapping j.
  predicate SettledAt(rules: Rules, config: Config, m: Match, i: nat, j: nat) {
    && i < |config.connections| && j < |config.models|
    && var c, x := config.connections[i], config.models[j];
    && Identity(c.accountId) == Identity(m.account.accountId) && Endpoint(rules, c) == Some(m.account.endpoint)
    && KeyOf(x) == (m.target.modelGroup, c.alias, m.target.deployment)
    && Applied(x, m.target) == x && OptionsValid(rules, x)
  }

  ghost predicate Settled(rules: Rules, config: Config, m: Match) {
    exists i: nat, j: nat :: SettledAt(rules, config, m, i, j)
  }

  lemma AppliedTwice(m: Mapping, target: Target)
    ensures Applied(Applied(m, target), target) == Applied(m, target)
    ensures KeyOf(Applied(m, target)) == KeyOf(m) && Applied(m, target).id == m.id
  {
    assert forall f: map<string, Json>, g: map<string, Json> :: f + g + g == f + g;
  }

  // The step for a match settles it.
  lemma StepSettles(rules: Rules, s: State, m: Match)
    requires Unique(s.connections, s.models) && Step(rules, s, m).Some?
    requires rules.endpoint(m.account.endpoint) == Some(m.account.endpoint)
    ensures var t := Step(rules, s, m).value; Settled(rules, Config(t.connections, t.models), m)
  {
    hide Applied, Identity, OptionsValid, KeyOf;
    var t := Step(rules, s, m).value;
    var found := FindConnection(s.connections, m.account.accountId);
    var i := if found.None? then |s.connections| else found.value;
    var alias := Connect(rules, s.connections, m.account).value.1;
    MapSettles(rules, s.models, m, alias);
    var j :| 0 <= j < |t.models| && KeyOf(t.models[j]) == (m.target.modelGroup, alias, m.target.deployment)
             && Applied(t.models[j], m.target) == t.models[j] && OptionsValid(rules, t.models[j]);
    assert t.connections[i].alias == alias;
    assert SettledAt(rules, Config(t.connections, t.models), m, i, j);
  }

  lemma MapSettles(rules: Rules, models: seq<Mapping>, m: Match, alias: string)
    requires Map(rules, models, m, alias).Some?
    ensures var now := Map(rules, models, m, alias).value;
            exists j | 0 <= j < |now| ::
              && KeyOf(now[j]) == (m.target.modelGroup, alias, m.target.deployment)
              && Applied(now[j], m.target) == now[j] && OptionsValid(rules, now[j])
  {
    hide Applied, OptionsValid;
    var found := FindMapping(models, (m.target.modelGroup, alias, m.target.deployment));
    var j := if found.None? then |models| else found.value;
    var now := Map(rules, models, m, alias).value;
    AppliedTwice(if found.None? then Fresh(rules, m.account, m.target, alias) else models[j], m.target);
    assert KeyOf(now[j]) == (m.target.modelGroup, alias, m.target.deployment);
  }

  // The step for a settled match changes neither list.
  lemma SettledStep(rules: Rules, s: State, m: Match, i: nat, j: nat)
    requires Unique(s.connections, s.models)
    requires SettledAt(rules, Config(s.connections, s.models), m, i, j)
    ensures SelectedKey(s.connections, m) == KeyOf(s.models[j])
    ensures Step(rules, s, m) == Some(s.(selected := s.selected + {SelectedKey(s.connections, m)}))
  {
    hide Applied, Identity, OptionsValid, Endpoint;
    var found := FindConnection(s.connections, m.account.accountId);
    assert s.connections[i] in s.connections && found == Some(i);
    var alias := s.connections[i].alias;
    assert Connect(rules, s.connections, m.account) == Some((s.connections, alias));
    var mapped := FindMapping(s.models, (m.target.modelGroup, alias, m.target.deployment));
    assert s.models[j] in s.models && mapped == Some(j);
    assert s.models[j := s.models[j]] == s.models;
  }

  // The step for another match leaves a settled one settled.
  lemma SettledKept(rules: Rules, s: State, m: Match, other: Match)
    requires Unique(s.connections, s.models) && Step(rules, s, other).Some?
    requires CatalogKey(m) != CatalogKey(other)
    requires Identity(m.account.accountId) == Identity(other.account.accountId) ==> m.account == other.account
    requires Settled(rules, Config(s.connections, s.models), m)
    ensures var t := Step(rules, s, other).value; Settled(rules, Config(t.connections, t.models), m)
  {
    hide Applied, Identity, OptionsValid;
    var i: nat, j: nat :| SettledAt(rules, Config(s.connections, s.models), m, i, j);
    var t, alias := Step(rules, s, other).value, Connect(rules, s.connections, other.account).value.1;
    var found := FindConnection(s.connections, other.account.accountId);
    assert t.connections[i] == s.connections[i] by {
      if found.Some? && found.value == i { assert m.account == other.account; }
    }
    MapKeeps(rules, s.models, other, alias);
    ConnectKeeps(rules, s.connections, other.account);
    var k := FindConnection(t.connections, other.account.accountId).value;
    assert t.connections[k].alias == alias && (k == i || t.connections[i].alias != alias);
    assert SettledAt(rules, Config(t.connections, t.models), m, i, j);
  }

  lemma {:induction false} LoopSettles(rules: Rules, config: Config, matches: seq<Match>)
    requires Unique(config.connections, config.models) && Discovered(rules, matches)
    requires Loop(rules, config, matches).Some?
    ensures var s := Loop(rules, config, matches).value;
            forall m | m in matches :: Settled(rules, Config(s.connections, s.models), m)
  {
    hide Step, Identity, Settled, Unique;
    if matches != [] {
      var before, last := matches[..|matches| - 1], matches[|matches| - 1];
      assert matches == before + [last];
      assert forall m | m in before :: m in matches;
      LoopSettles(rules, config, before);
      LoopKeeps(rules, config, before);
      var s := Loop(rules, config, before).value;
      StepSettles(rules, s, last);
      forall m | m in before
        ensures var t := Step(rules, s, last).value; Settled(rules, Config(t.connections, t.models), m)
      {
        var k :| 0 <= k < |before| && before[k] == m;
        assert matches[k] == m && matches[|before|] == last;
        SettledKept(rules, s, m, last);
      }
    }
  }

  // A configuration in which every match is settled is a fixed point of the loop.
  lemma {:induction false} LoopFixes(rules: Rules, config: Config, matches: seq<Match>)
    requires Unique(config.connections, config.models)
    requires forall m | m in matches :: Settled(rules, config, m)
    ensures Loop(rules, config, matches) ==
            Some(State(config.connections, config.models, set m | m in matches :: SelectedKey(config.connections, m)))
  {
    hide Step, SettledAt, Unique, SelectedKey;
    if matches == [] {
      assert (set m | m in matches :: SelectedKey(config.connections, m)) == {};
    } else {
      var before, last := matches[..|matches| - 1], matches[|matches| - 1];
      assert matches == before + [last];
      LoopFixes(rules, config, before);
      var s := Loop(rules, config, before).value;
      assert Settled(rules, config, last);
      var i: nat, j: nat :| SettledAt(rules, config, last, i, j);
      assert config == Config(s.connections, s.models);
      SettledStep(rules, s, last, i, j);
      assert forall m :: m in matches <==> m in before || m == last;
      assert (set m | m in matches :: SelectedKey(config.connections, m)) ==
             (set m | m in before :: SelectedKey(config.connections, m)) + {SelectedKey(config.connections, last)};
    }
  }

  /****** Replacing ******/

  lemma {:induction false} SelectedElements(models: seq<Mapping>, keys: set<Key>)
    ensures forall x :: x in Selected(models, keys) <==> x in models && KeyOf(x) in keys
  {
    if models != [] {
      SelectedElements(models[..|models| - 1], keys);
      assert models == models[..|models| - 1] + [models[|models| - 1]];
    }
  }

  // Filtering keeps the order: it is a subsequence at increasing positions.
  lemma {:induction false} SelectedOrder(models: seq<Mapping>, keys: set<Key>) returns (at: seq<nat>)
    ensures |at| == |Selected(models, keys)|
    ensures forall i | 0 <= i < |at| :: at[i] < |models| && Selected(models, keys)[i] == models[at[i]]
    ensures forall i, j | 0 <= i < j < |at| :: at[i] < at[j]
  {
    if models == [] {
      at := [];
    } else {
      at := SelectedOrder(models[..|models| - 1], keys);
      if KeyOf(models[|models| - 1]) in keys { at := at + [|models| - 1]; }
    }
  }

  lemma SelectedUnique(connections: seq<Connection>, models: seq<Mapping>, keys: set<Key>)
    requires Unique(connections, models)
    ensures Unique(connections, Selected(models, keys))
  {
    var at := SelectedOrder(models, keys);
  }

  lemma {:induction false} SelectedAll(models: seq<Mapping>, keys: set<Key>)
    requires forall x | x in models :: KeyOf(x) in keys
    ensures Selected(models, keys) == models
  {
    if models != [] {
      assert models == models[..|models| - 1] + [models[|models| - 1]];
      SelectedAll(models[..|models| - 1], keys);
    }
  }

  lemma SettledSelected(rules: Rules, config: Config, m: Match, keys: set<Key>)
    requires Unique(config.connections, config.models) && Settled(rules, config, m)
    requires SelectedKey(config.connections, m) in keys
    ensures Settled(rules, Config(config.connections, Selected(config.models, keys)), m)
  {
    var i: nat, j: nat :| SettledAt(rules, config, m, i, j);
    SettledStep(rules, State(config.connections, config.models, {}), m, i, j);
    SelectedElements(config.models, keys);
    assert config.models[j] in Selected(config.models, keys);
    var k :| 0 <= k < |Selected(config.models, keys)| && Selected(config.models, keys)[k] == config.models[j];
    assert SettledAt(rules, Config(config.connections, Selected(config.models, keys)), m, i, k);
  }

  /****** The main results ******/

  lemma SoundUnique(rules: Rules, config: Config)
    requires Settings(rules, config) && Sound(config)
    ensures Unique(config.connections, config.models)
  {
  }

  lemma ConnectConsistent(rules: Rules, connections: seq<Connection>, account: Account)
    requires Connect(rules, connections, account).Some? && forall c | c in connections :: Consistent(c)
    requires Identity(AccountId(account.subscription, account.group, account.name)) == Identity(account.accountId)
    ensures forall c | c in Connect(rules, connections, account).value.0 :: Consistent(c)
  {
    hide Identity, AccountId;
    var now := Connect(rules, connections, account).value.0;
    forall i | 0 <= i < |now|
      ensures Consistent(now[i])
    {
      if i < |connections| { assert connections[i] in connections; }
    }
  }

  // Every connection the loop adds is consistent, so the result can be the start of
  // another reconciliation.
  lemma {:induction false} LoopConsistent(rules: Rules, config: Config, matches: seq<Match>)
    requires Loop(rules, config, matches).Some? && forall c | c in config.connections :: Consistent(c)
    requires forall m | m in matches ::
               Identity(AccountId(m.account.subscription, m.account.group, m.account.name)) == Identity(m.account.accountId)
    ensures forall c | c in Loop(rules, config, matches).value.connections :: Consistent(c)
  {
    hide Map, Identity, Connect, AccountId, Consistent;
    if matches != [] {
      var before, last := matches[..|matches| - 1], matches[|matches| - 1];
      assert matches == before + [last];
      LoopConsistent(rules, config, before);
      ConnectConsistent(rules, Loop(rules, config, before).value.connections, last.account);
    }
  }

  // What a reconciliation leaves is sound and has every match settled.
  lemma Reconciles(rules: Rules, config: Config, matches: seq<Match>, policy: Policy)
    requires Discovered(rules, matches) && Reconciled(rules, config, matches, policy).Some?
    ensures var desired := Reconciled(rules, config, matches, policy).value;
            && Settings(rules, desired) && Sound(desired)
            && forall m | m in matches :: Settled(rules, desired, m)
  {
    hide Loop, Settled, Settings, SelectedKey, Consistent, Identity, DistinctCatalog, AccountId;
    SoundUnique(rules, config);
    LoopKeeps(rules, config, matches);
    LoopSettles(rules, config, matches);
    LoopConsistent(rules, config, matches);
    var s := Loop(rules, config, matches).value;
    if policy.Replace? {
      SelectedUnique(s.connections, s.models, s.selected);
      forall m | m in matches
        ensures Settled(rules, Reconciled(rules, config, matches, policy).value, m)
      {
        SettledSelected(rules, Config(s.connections, s.models), m, s.selected);
      }
    }
  }

  // Reconciling again, under either policy, changes nothing but what replacing drops:
  // reconcile is idempotent under both policies, and replacing after merging is
  // replacing.
  lemma ReconcileTwice(rules: Rules, config: Config, matches: seq<Match>, first: Policy, second: Policy)
    requires Discovered(rules, matches) && Reconciled(rules, config, matches, first).Some?
    ensures Reconciled(rules, Reconciled(rules, config, matches, first).value, matches, second) ==
            Reconciled(rules, config, matches, if first.Replace? then Replace else second)
  {
    hide Settled, Settings, SelectedKey, KeyOf, Unique, Sound, Discovered;
    var desired := Reconciled(rules, config, matches, first).value;
    Reconciles(rules, config, matches, first);
    SoundUnique(rules, config);
    SoundUnique(rules, desired);
    LoopKeeps(rules, config, matches);
    LoopFixes(rules, desired, matches);
    var s := Loop(rules, config, matches).value;
    if first.Replace? && second.Replace? {
      SelectedElements(s.models, s.selected);
      SelectedAll(desired.models, s.selected);
    }
  }

  // Aliases, resource ids, mapping keys and model ids are unique; connections are
  // only appended and keep all but their endpoint. Merging keeps every mapping in
  // its place, with its id, and leaves the unselected ones as they were.
  lemma ReconcileKeeps(rules: Rules, config: Config, matches: seq<Match>, policy: Policy)
    requires Discovered(rules, matches) && Reconciled(rules, config, matches, policy).Some?
    ensures var desired := Reconciled(rules, config, matches, policy).value;
            && Unique(desired.connections, desired.models)
            && ConnectionsKept(config.connections, desired.connections)
            && (policy.Merge? ==> ModelsKept(config.models, desired.models))
            && (forall x | x in desired.models :: forall y | y in config.models :: KeyOf(x) == KeyOf(y) ==> x.id == y.id)
  {
    hide Loop, Settings, Settled, KeyOf;
    SoundUnique(rules, config);
    LoopKeeps(rules, config, matches);
    var s := Loop(rules, config, matches).value;
    SelectedUnique(s.connections, s.models, s.selected);
    SelectedElements(s.models, s.selected);
    forall x, y | x in s.models && y in config.models && KeyOf(x) == KeyOf(y)
      ensures x.id == y.id
    {
      var i :| 0 <= i < |config.models| && config.models[i] == y;
      assert s.models[i] in s.models && KeyOf(s.models[i]) == KeyOf(x);
    }
  }

  /****** The result, mapping by mapping ******/

  // The mapping a match starts from: the one recorded under its key, or a new one
  // that carries a generated id.
  function Previous(rules: Rules, models: seq<Mapping>, m: Match, alias: string): Mapping {
    var j := FindMapping(models, (m.target.modelGroup, alias, m.target.deployment));
    if j.Some? then models[j.value] else Fresh(rules, m.account, m.target, alias)
  }

  // Mappings under other keys are as they were, and all that was added has one of
  // the keys.
  predicate Untouched(before: seq<Mapping>, now: seq<Mapping>, keys: set<Key>) {
    && |before| <= |now|
    && (forall i | 0 <= i < |before| && KeyOf(before[i]) !in keys :: now[i] == before[i])
    && (forall i | |before| <= i < |now| :: KeyOf(now[i]) in keys)
  }

  lemma KeysDiffer(connections: seq<Connection>, m: Match, o: Match)
    requires DistinctAliases(connections) && CatalogKey(m) != CatalogKey(o)
    requires FindConnection(connections, m.account.accountId).Some? && FindConnection(connections, o.account.accountId).Some?
    ensures SelectedKey(connections, m) != SelectedKey(connections, o)
  {
    hide Identity;
    var i, j := FindConnection(connections, m.account.accountId).value, FindConnection(connections, o.account.accountId).value;
    assert i != j ==> connections[i].alias != connections[j].alias;
  }

  lemma {:induction false} LoopUntouched(rules: Rules, config: Config, matches: seq<Match>)
    requires Unique(config.connections, config.models) && Loop(rules, config, matches).Some?
    ensures var s := Loop(rules, config, matches).value; Untouched(config.models, s.models, s.selected)
  {
    hide Map, Identity, Connect;
    if matches != [] {
      var before, last := matches[..|matches| - 1], matches[|matches| - 1];
      LoopUntouched(rules, config, before);
      LoopKeeps(rules, config, before);
      var s := Loop(rules, config, before).value;
      MapKeeps(rules, s.models, last, Connect(rules, s.connections, last.account).value.1);
    }
  }

  // A match whose key nobody has selected yet is applied to its original mapping,
  // and mappings under other keys stay in the list.
  lemma MapExact(rules: Rules, original: seq<Mapping>, models: seq<Mapping>, keys: set<Key>, m: Match, alias: string)
    requires DistinctKeys(models) && DistinctIds(models) && ModelsKept(original, models) && Untouched(original, models, keys)
    requires Map(rules, models, m, alias).Some? && (m.target.modelGroup, alias, m.target.deployment) !in keys
    ensures var now := Map(rules, models, m, alias).value;
            && Applied(Previous(rules, original, m, alias), m.target) in now
            && forall x | x in models && KeyOf(x) != (m.target.modelGroup, alias, m.target.deployment) :: x in now
  {
    hide Applied, OptionsValid;
    var now, key := Map(rules, models, m, alias).value, (m.target.modelGroup, alias, m.target.deployment);
    MapKeeps(rules, models, m, alias);
    forall x | x in models && KeyOf(x) != key
      ensures x in now
    {
      var i :| 0 <= i < |models| && models[i] == x;
      assert now[i] == x;
    }
    var j, was := FindMapping(models, key), FindMapping(original, key);
    if was.Some? {
      assert models[was.value] == original[was.value] && models[was.value] in models;
      assert now[j.value] == Applied(original[was.value], m.target);
    } else {
      assert forall i | 0 <= i < |original| :: original[i] in original && KeyOf(models[i]) != key;
      assert now[|models|] == Applied(Fresh(rules, m.account, m.target, alias), m.target);
    }
  }

  lemma StepApplies(rules: Rules, original: seq<Mapping>, s: State, m: Match)
    requires Unique(s.connections, s.models) && ModelsKept(original, s.models) && Untouched(original, s.models, s.selected)
    requires Step(rules, s, m).Some? && SelectedKey(Step(rules, s, m).value.connections, m) !in s.selected
    ensures var t := Step(rules, s, m).value;
            && Applied(Previous(rules, original, m, AliasIn(t.connections, m.account.accountId)), m.target) in t.models
            && forall x | x in s.models && KeyOf(x) != SelectedKey(t.connections, m) :: x in t.models
  {
    hide Applied, Identity, Connect, Map, Previous, KeyOf, Fresh, ConnectionsKept, ModelsKept, Untouched;
    var alias := Connect(rules, s.connections, m.account).value.1;
    ConnectKeeps(rules, s.connections, m.account);
    MapExact(rules, original, s.models, s.selected, m, alias);
  }

  // An earlier match keeps its alias and has another key.
  lemma EarlierKey(s: State, t: State, m: Match, last: Match)
    requires Unique(s.connections, s.models) && Unique(t.connections, t.models) && ConnectionsKept(s.connections, t.connections)
    requires FindConnection(s.connections, m.account.accountId).Some? && FindConnection(t.connections, last.account.accountId).Some?
    requires CatalogKey(m) != CatalogKey(last)
    ensures AliasIn(t.connections, m.account.accountId) == AliasIn(s.connections, m.account.accountId)
    ensures SelectedKey(s.connections, m) != SelectedKey(t.connections, last)
  {
    hide CatalogKey;
    AliasStays(s.connections, t.connections, m.account.accountId);
    KeysDiffer(t.connections, m, last);
  }

  lemma EarlierKeys(s: State, t: State, matches: seq<Match>)
    requires Unique(s.connections, s.models) && Unique(t.connections, t.models) && ConnectionsKept(s.connections, t.connections)
    requires matches != [] && DistinctCatalog(matches)
    requires forall m | m in matches[..|matches| - 1] :: FindConnection(s.connections, m.account.accountId).Some?
    requires FindConnection(t.connections, matches[|matches| - 1].account.accountId).Some?
    ensures forall m | m in matches[..|matches| - 1] ::
              && AliasIn(t.connections, m.account.accountId) == AliasIn(s.connections, m.account.accountId)
              && SelectedKey(s.connections, m) != SelectedKey(t.connections, matches[|matches| - 1])
  {
    hide Unique, AliasIn, SelectedKey, ConnectionsKept, FindConnection, CatalogKey;
    var last := |matches| - 1;
    forall m | m in matches[..last]
      ensures AliasIn(t.connections, m.account.accountId) == AliasIn(s.connections, m.account.accountId)
      ensures SelectedKey(s.connections, m) != SelectedKey(t.connections, matches[last])
    {
      var k :| 0 <= k < last && matches[k] == m;
      EarlierKey(s, t, m, matches[last]);
    }
  }

  lemma {:induction false} LoopApplies(rules: Rules, config: Config, matches: seq<Match>)
    requires Unique(config.connections, config.models) && DistinctCatalog(matches)
    requires Loop(rules, config, matches).Some?
    ensures var s := Loop(rules, config, matches).value;
            forall m | m in matches ::
              Applied(Previous(rules, config.models, m, AliasIn(s.connections, m.account.accountId)), m.target) in s.models
  {
    if matches != [] {
      hide Step, Unique, Applied, Previous, AliasIn, SelectedKey, KeyOf, ModelsKept, ConnectionsKept, Untouched, FindConnection, CatalogKey;
      var before, last := matches[..|matches| - 1], matches[|matches| - 1];
      assert matches == before + [last];
      LoopApplies(rules, config, before);
      LoopKeeps(rules, config, before);
      LoopUntouched(rules, config, before);
      var s := Loop(rules, config, before).value;
      var t := Step(rules, s, last).value;
      StepKeeps(rules, s, last);
      EarlierKeys(s, t, matches);
      StepApplies(rules, config.models, s, last);
      AppliesMore(rules, config.models, s, t, before, last);
    }
  }

  lemma AppliesMore(rules: Rules, original: seq<Mapping>, s: State, t: State, before: seq<Match>, last: Match)
    requires forall m | m in before ::
               && Applied(Previous(rules, original, m, AliasIn(s.connections, m.account.accountId)), m.target) in s.models
               && AliasIn(t.connections, m.account.accountId) == AliasIn(s.connections, m.account.accountId)
               && SelectedKey(s.connections, m) != SelectedKey(t.connections, last)
    requires Applied(Previous(rules, original, last, AliasIn(t.connections, last.account.accountId)), last.target) in t.models
    requires forall x | x in s.models && KeyOf(x) != SelectedKey(t.connections, last) :: x in t.models
    ensures forall m | m in before + [last] ::
              Applied(Previous(rules, original, m, AliasIn(t.connections, m.account.accountId)), m.target) in t.models
  {
    hide Applied, Previous, AliasIn, SelectedKey, KeyOf;
    forall m | m in before
      ensures Applied(Previous(rules, original, m, AliasIn(t.connections, m.account.accountId)), m.target) in t.models
    {
      PreviousKeyed(rules, original, m, s.connections);
    }
  }

  lemma PreviousKey(rules: Rules, models: seq<Mapping>, m: Match, alias: string)
    ensures KeyOf(Applied(Previous(rules, models, m, alias), m.target)) == (m.target.modelGroup, alias, m.target.deployment)
  {
  }

  // The reference description of a reconciliation. With the keys unique it leaves
  // nothing open: merging keeps the unselected mappings and applies every match to
  // its own; replacing keeps exactly one mapping for every match and no other, in
  // the order merging would have them.
  lemma ReconcileExactly(rules: Rules, config: Config, matches: seq<Match>, policy: Policy)
    requires Discovered(rules, matches) && Reconciled(rules, config, matches, policy).Some?
    ensures var desired := Reconciled(rules, config, matches, policy).value;
            var keys := set m | m in matches :: SelectedKey(desired.connections, m);
            var merged := Loop(rules, config, matches).value.models;
            && (forall m | m in matches ::
                  Applied(Previous(rules, config.models, m, AliasIn(desired.connections, m.account.accountId)), m.target) in desired.models)
            && (policy.Merge? ==>
                  && desired.models == merged && |config.models| <= |merged|
                  && (forall i | 0 <= i < |config.models| && KeyOf(config.models[i]) !in keys :: merged[i] == config.models[i])
                  && (forall i | |config.models| <= i < |merged| :: KeyOf(merged[i]) in keys))
            && (policy.Replace? ==>
                  && desired.models == Selected(merged, keys)
                  && (set x | x in desired.models :: KeyOf(x)) == keys)
  {
    hide Loop, Settings, Applied, KeyOf, Previous, SelectedKey, Identity, Fresh, AliasIn;
    SoundUnique(rules, config);
    LoopApplies(rules, config, matches);
    LoopUntouched(rules, config, matches);
    LoopKeeps(rules, config, matches);
    var s := Loop(rules, config, matches).value;
    SelectedElements(s.models, s.selected);
    forall m | m in matches
      ensures KeyOf(Applied(Previous(rules, config.models, m, AliasIn(s.connections, m.account.accountId)), m.target)) == SelectedKey(s.connections, m)
    {
      PreviousKeyed(rules, config.models, m, s.connections);
    }
    assert forall m | m in matches :: SelectedKey(s.connections, m) in s.selected;
  }

  lemma PreviousKeyed(rules: Rules, models: seq<Mapping>, m: Match, connections: seq<Connection>)
    ensures KeyOf(Applied(Previous(rules, models, m, AliasIn(connections, m.account.accountId)), m.target)) == SelectedKey(connections, m)
  {
    PreviousKey(rules, models, m, AliasIn(connections, m.account.accountId));
  }

  /****** The catalog the matches come from ******/

  datatype Resource = Resource(group: string, name: string, targets: seq<Target>)

  datatype Subscription = Subscription(id: string, resources: seq<Resource>)

  datatype Requested = Requested(subscription: string, group: string, name: string, targets: seq<Target>)

  function RequestedId(r: Requested): string {
    Identity(AccountId(r.subscription, r.group, r.name))
  }

  // The exact mapping of a target within its resource.
  function Pair(t: Target): (string, string) {
    (t.modelGroup, t.deployment)
  }

  predicate DistinctPairs(targets: seq<Target>) {
    forall i, j | 0 <= i < j < |targets| :: Pair(targets[i]) != Pair(targets[j])
  }

  // Names are compared and recorded in lower case, subscriptions in canonical form.
  function RequestsOf(subscription: string, resources: seq<Resource>): seq<Requested> {
    seq(|resources|, i requires 0 <= i < |resources| =>
          Requested(subscription, resources[i].group, Lower(resources[i].name), resources[i].targets))
  }

  // The lists a catalog may hold: every account once and no exact mapping twice.
  predicate UniqueRequests(accounts: seq<Requested>) {
    && (forall i, j | 0 <= i < j < |accounts| :: RequestedId(accounts[i]) != RequestedId(accounts[j]))
    && forall r | r in accounts :: r.targets != [] && DistinctPairs(r.targets)
  }

  method ParseTargets(targets: seq<Target>) returns (ok: bool)
    ensures ok <==> targets != [] && DistinctPairs(targets)
  {
    if targets == [] { return false; }
    var exact: set<(string, string)> := {};
    for i := 0 to |targets|
      invariant exact == set p | 0 <= p < i :: Pair(targets[p])
      invariant forall p, q | 0 <= p < q < i :: Pair(targets[p]) != Pair(targets[q])
    {
      if Pair(targets[i]) in exact { return false; }
      exact := exact + {Pair(targets[i])};
    }
    return true;
  }

  // The loop over one subscription's resources.
  method ParseResources(accounts: seq<Requested>, subscription: string, resources: seq<Resource>) returns (result: Option<seq<Requested>>)
    requires UniqueRequests(accounts)
    ensures result.Some? <==> resources != [] && UniqueRequests(accounts + RequestsOf(subscription, resources))
    ensures result.Some? ==> result.value == accounts + RequestsOf(subscription, resources)
  {
    hide RequestedId, DistinctPairs;
    if resources == [] { return None; }
    ghost var added := RequestsOf(subscription, resources);
    ghost var all := accounts + added;
    var list := accounts;
    var identities := set r | r in accounts :: RequestedId(r);
    for i := 0 to |resources|
      invariant list == all[..|accounts| + i] && UniqueRequests(list)
      invariant identities == set r | r in list :: RequestedId(r)
    {
      var r := Requested(subscription, resources[i].group, Lower(resources[i].name), resources[i].targets);
      assert all[|accounts| + i] == r && all[..|accounts| + i + 1] == list + [r];
      var ok := ParseTargets(r.targets);
      if RequestedId(r) in identities || !ok {
        assert r in all;
        return None;
      }
      list, identities := list + [r], identities + {RequestedId(r)};
    }
    assert all[..|all|] == all;
    return Some(list);
  }

  predicate AllNamed(uuid: string -> Option<string>, catalog: seq<Subscription>) {
    forall s | s in catalog :: uuid(s.id).Some?
  }

  predicate Identified(uuid: string -> Option<string>, catalog: seq<Subscription>) {
    && AllNamed(uuid, catalog)
    && (forall s | s in catalog :: s.resources != [])
    && forall i, j | 0 <= i < j < |catalog| :: uuid(catalog[i].id) != uuid(catalog[j].id)
  }

  function IdsOf(uuid: string -> Option<string>, catalog: seq<Subscription>): set<string> {
    set s | s in catalog && uuid(s.id).Some? :: uuid(s.id).value
  }

  lemma IdentifiedAppend(uuid: string -> Option<string>, catalog: seq<Subscription>, s: Subscription)
    requires Identified(uuid, catalog)
    ensures Identified(uuid, catalog + [s]) <==>
              uuid(s.id).Some? && s.resources != [] && uuid(s.id).value !in IdsOf(uuid, catalog)
    ensures uuid(s.id).Some? ==> IdsOf(uuid, catalog + [s]) == IdsOf(uuid, catalog) + {uuid(s.id).value}
  {
    var more := catalog + [s];
    assert more[|catalog|] == s && forall i | 0 <= i < |catalog| :: more[i] == catalog[i] && catalog[i] in catalog;
  }

  lemma IdentifiedPrefix(uuid: string -> Option<string>, catalog: seq<Subscription>, k: nat)
    requires k <= |catalog| && Identified(uuid, catalog)
    ensures Identified(uuid, catalog[..k])
  {
  }

  function Requests(uuid: string -> Option<string>, catalog: seq<Subscription>): seq<Requested>
    requires AllNamed(uuid, catalog)
  {
    if catalog == [] then []
    else
      var last := catalog[|catalog| - 1];
      Requests(uuid, catalog[..|catalog| - 1]) + RequestsOf(uuid(last.id).value, last.resources)
  }

  lemma {:induction false} RequestsPrefix(uuid: string -> Option<string>, catalog: seq<Subscription>, k: nat)
    requires k <= |catalog| && AllNamed(uuid, catalog)
    ensures Requests(uuid, catalog[..k]) <= Requests(uuid, catalog)
  {
    if k < |catalog| {
      RequestsPrefix(uuid, catalog[..|catalog| - 1], k);
      assert catalog[..|catalog| - 1][..k] == catalog[..k];
    } else {
      assert catalog[..k] == catalog;
    }
  }

  lemma UniquePrefix(accounts: seq<Requested>, more: seq<Requested>)
    requires accounts <= more && UniqueRequests(more)
    ensures UniqueRequests(accounts)
  {
    hide RequestedId;
    assert forall r | r in accounts :: r in more;
  }

  // The loops of parse_catalog: it accepts exactly the catalogs that name every
  // subscription, account and exact mapping once.
  method ParseCatalog(uuid: string -> Option<string>, catalog: seq<Subscription>) returns (accounts: Option<seq<Requested>>)
    ensures accounts.Some? <==>
              catalog != [] && AllNamed(uuid, catalog) && Identified(uuid, catalog) && UniqueRequests(Requests(uuid, catalog))
    ensures accounts.Some? ==> accounts.value == Requests(uuid, catalog)
  {
    hide RequestedId, DistinctPairs, UniqueRequests, Identified, IdsOf;
    if catalog == [] { return None; }
    var ids: set<string>, list: seq<Requested> := {}, [];
    NoRequests(uuid);
    for k := 0 to |catalog|
      invariant Identified(uuid, catalog[..k]) && ids == IdsOf(uuid, catalog[..k])
      invariant UniqueRequests(list) && AllNamed(uuid, catalog[..k]) && list == Requests(uuid, catalog[..k])
    {
      var s := catalog[k];
      assert catalog[..k + 1] == catalog[..k] + [s] && catalog[..k + 1][..k] == catalog[..k];
      IdentifiedAppend(uuid, catalog[..k], s);
      if Identified(uuid, catalog) { IdentifiedPrefix(uuid, catalog, k + 1); }
      if uuid(s.id).None? || uuid(s.id).value in ids { return None; }
      var more := ParseResources(list, uuid(s.id).value, s.resources);
      if more.None? {
        if AllNamed(uuid, catalog) && Identified(uuid, catalog) && UniqueRequests(Requests(uuid, catalog)) {
          RequestsPrefix(uuid, catalog, k + 1);
          UniquePrefix(Requests(uuid, catalog[..k + 1]), Requests(uuid, catalog));
        }
        return None;
      }
      list, ids := more.value, ids + {uuid(s.id).value};
    }
    assert catalog[..|catalog|] == catalog;
    return Some(list);
  }

  lemma NoRequests(uuid: string -> Option<string>)
    ensures UniqueRequests([]) && Identified(uuid, []) && IdsOf(uuid, []) == {}
  {
  }

  // What discovery answers: the endpoint of an account and the deployed base model.
  datatype Live = Live(endpoint: string -> string, base: (string, string) -> string)

  function MatchesOf(accounts: seq<Requested>, live: Live): seq<Match> {
    if accounts == [] then []
    else MatchesOf(accounts[..|accounts| - 1], live) + AccountMatches(accounts[|accounts| - 1], live)
  }

  function AccountMatches(r: Requested, live: Live): seq<Match> {
    var id := AccountId(r.subscription, r.group, r.name);
    seq(|r.targets|, i requires 0 <= i < |r.targets| =>
          Match(Account(r.subscription, r.group, r.name, id, live.endpoint(id)),
                r.targets[i].(actual := live.base(id, r.targets[i].deployment))))
  }

  // Where a match comes from.
  lemma {:induction false} MatchOrigin(accounts: seq<Requested>, live: Live, m: Match)
    requires m in MatchesOf(accounts, live)
    ensures exists r | r in accounts :: m in AccountMatches(r, live)
  {
    if accounts != [] {
      var before := accounts[..|accounts| - 1];
      if m in MatchesOf(before, live) {
        MatchOrigin(before, live, m);
        var r :| r in before && m in AccountMatches(r, live);
        assert r in accounts;
      } else {
        assert accounts[|accounts| - 1] in accounts;
      }
    }
  }

  // A parsed catalog and normal endpoints give matches that reconcile as promised.
  lemma {:induction false} CatalogIsDistinct(accounts: seq<Requested>, live: Live)
    requires UniqueRequests(accounts)
    ensures DistinctCatalog(MatchesOf(accounts, live))
  {
    hide RequestedId, AccountMatches, CatalogKey;
    if accounts != [] {
      var before, last := accounts[..|accounts| - 1], accounts[|accounts| - 1];
      assert last in accounts && forall r | r in before :: r in accounts;
      CatalogIsDistinct(before, live);
      var earlier, later := MatchesOf(before, live), AccountMatches(last, live);
      forall i, j | 0 <= i < j < |earlier + later|
        ensures CatalogKey((earlier + later)[i]) != CatalogKey((earlier + later)[j])
      {
        if j < |earlier| {
          assert earlier[i] == (earlier + later)[i] && earlier[j] == (earlier + later)[j];
        } else {
          MatchKey(last, live, later[j - |earlier|]);
          if i < |earlier| {
            MatchOrigin(before, live, earlier[i]);
            var r :| r in before && earlier[i] in AccountMatches(r, live);
            MatchKey(r, live, earlier[i]);
          } else {
            MatchKeys(last, live, i - |earlier|, j - |earlier|);
          }
        }
      }
    }
  }

  lemma MatchKey(r: Requested, live: Live, m: Match)
    requires m in AccountMatches(r, live)
    ensures CatalogKey(m).1 == RequestedId(r)
  {
  }

  lemma MatchKeys(r: Requested, live: Live, i: nat, j: nat)
    requires DistinctPairs(r.targets) && i < j < |AccountMatches(r, live)|
    ensures CatalogKey(AccountMatches(r, live)[i]) != CatalogKey(AccountMatches(r, live)[j])
  {
    assert Pair(r.targets[i]) != Pair(r.targets[j]);
  }

  lemma CatalogIsDiscovered(rules: Rules, accounts: seq<Requested>, live: Live)
    requires UniqueRequests(accounts)
    requires forall id :: rules.endpoint(live.endpoint(id)) == Some(live.endpoint(id))
    ensures Discovered(rules, MatchesOf(accounts, live))
  {
    hide RequestedId, AccountMatches, Identity, DistinctPairs;
    CatalogIsDistinct(accounts, live);
    forall m | m in MatchesOf(accounts, live)
      ensures m.account.accountId == AccountId(m.account.subscription, m.account.group, m.account.name)
      ensures m.account.endpoint == live.endpoint(m.account.accountId)
    {
      MatchOrigin(accounts, live, m);
      var r :| r in accounts && m in AccountMatches(r, live);
      MatchAccount(r, live, m);
    }
    forall m, o | m in MatchesOf(accounts, live) && o in MatchesOf(accounts, live)
                  && Identity(m.account.accountId) == Identity(o.account.accountId)
      ensures m.account == o.account
    {
      MatchOrigin(accounts, live, m);
      MatchOrigin(accounts, live, o);
      var r :| r in accounts && m in AccountMatches(r, live);
      var q :| q in accounts && o in AccountMatches(q, live);
      MatchAccount(r, live, m);
      MatchAccount(q, live, o);
      var i :| 0 <= i < |accounts| && accounts[i] == r;
      var j :| 0 <= j < |accounts| && accounts[j] == q;
      assert i == j;
    }
  }

  lemma MatchAccount(r: Requested, live: Live, m: Match)
    requires m in AccountMatches(r, live)
    ensures m.account == Account(r.subscription, r.group, r.name, AccountId(r.subscription, r.group, r.name), m.account.endpoint)
    ensures m.account.endpoint == live.endpoint(m.account.accountId) && RequestedId(r) == Identity(m.account.accountId)
  {
  }
}
