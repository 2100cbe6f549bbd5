// Rendering the reconciled models into the live proxy configuration, the agreement
// check before planning and the one-pointer change of the Deployment.
module ModelSyncRuntime {
  import opened Common
  import opened Text
  import C = ModelSyncCatalog

  /****** The proxy configuration ******/

  // An entry of model_list.
  datatype Rendered = Rendered(modelName: string, params: map<string, Json>, info: map<string, Json>)

  // The affinity configuration is a dictionary whose order matters: its first value
  // is the template for new groups.
  type Table = seq<(string, Json)>

  datatype Setting = Plain(value: Json) | Affinities(table: Table)

  datatype Runtime = Runtime(
    models: seq<Rendered>, sections: map<string, map<string, Setting>>, other: map<string, Json>)

  const ROUTER := "router_settings"
  const AFFINITY := "model_group_affinity_config"

  function Keys(table: Table): set<string> {
    set entry | entry in table :: entry.0
  }

  function Elements(names: seq<string>): set<string> {
    set name | name in names
  }

  predicate Dictionary(table: Table) {
    forall i, j | 0 <= i < j < |table| :: table[i].0 != table[j].0
  }

  /****** model_list ******/

  // The connection an alias stands for, as a dictionary built in list order has it.
  function ByAlias(connections: seq<C.Connection>, alias: string): Option<C.Connection> {
    if connections == [] then None
    else
      var last := connections[|connections| - 1];
      if last.alias == alias then Some(last) else ByAlias(connections[..|connections| - 1], alias)
  }

  function BaseModel(m: C.Mapping): map<string, Json> {
    if m.baseModel.Some? then map["base_model" := Str(m.baseModel.value)] else map[]
  }

  function RenderedModel(m: C.Mapping, endpoint: string): Rendered {
    Rendered(
      m.modelGroup,
      C.OrEmpty(m.params)
      + map["model" := Str("azure/" + m.deployment), "api_base" := Str(endpoint), "api_version" := Str(m.apiVersion)]
      + BaseModel(m),
      C.OrEmpty(m.info) + map["id" := Str(m.id)] + BaseModel(m))
  }

  predicate Connected(rules: C.Rules, connections: seq<C.Connection>, m: C.Mapping) {
    var c := ByAlias(connections, m.alias);
    c.Some? && C.Endpoint(rules, c.value).Some?
  }

  function RenderedModels(rules: C.Rules, config: C.Config): seq<Rendered>
    requires forall i | 0 <= i < |config.models| :: Connected(rules, config.connections, config.models[i])
  {
    seq(|config.models|, i requires 0 <= i < |config.models| && Connected(rules, config.connections, config.models[i]) =>
          RenderedModel(config.models[i], C.Endpoint(rules, ByAlias(config.connections, config.models[i].alias).value).value))
  }

  lemma {:induction false} ByAliasFinds(connections: seq<C.Connection>, c: C.Connection)
    requires C.DistinctAliases(connections) && c in connections
    ensures ByAlias(connections, c.alias) == Some(c)
  {
    var last := |connections| - 1;
    var i :| 0 <= i <= last && connections[i] == c;
    if i < last {
      assert connections[last].alias != c.alias && connections[..last][i] == c;
      ByAliasFinds(connections[..last], c);
    }
  }

  lemma SettingsConnect(rules: C.Rules, config: C.Config)
    requires C.Settings(rules, config)
    ensures forall i | 0 <= i < |config.models| :: Connected(rules, config.connections, config.models[i])
  {
    forall i | 0 <= i < |config.models|
      ensures Connected(rules, config.connections, config.models[i])
    {
      var m := config.models[i];
      assert m in config.models;
      var c :| c in config.connections && c.alias == m.alias && C.Endpoint(rules, c).Some?;
      ByAliasFinds(config.connections, c);
    }
  }

  // model_list: nothing unless the application settings are valid.
  function ModelList(rules: C.Rules, config: C.Config): Option<seq<Rendered>> {
    if C.Settings(rules, config) then
      SettingsConnect(rules, config);
      Some(RenderedModels(rules, config))
    else None
  }

  // An entry that serves a match: its group, deployment, live endpoint and API
  // version, the base model the catalog states, and all its options that are not
  // overwritten by one of these.
  predicate Serves(r: Rendered, m: C.Match) {
    && r.modelName == m.target.modelGroup
    && Has(r.params, "model", Str("azure/" + m.target.deployment))
    && Has(r.params, "api_base", Str(m.account.endpoint))
    && Has(r.params, "api_version", Str(m.target.apiVersion))
    && (forall key | key in m.target.params && key !in RESERVED :: Has(r.params, key, m.target.params[key]))
    && (forall key | key in m.target.info && key != "id" && key != "base_model" :: Has(r.info, key, m.target.info[key]))
    && (m.target.baseModel.Some? ==>
          Has(r.params, "base_model", Str(m.target.baseModel.value)) && Has(r.info, "base_model", Str(m.target.baseModel.value)))
  }

  // From catalog to configuration file: every match of a reconciliation is served by
  // an entry, which carries the id of its mapping.
  lemma MatchesAreServed(rules: C.Rules, config: C.Config, matches: seq<C.Match>, policy: C.Policy, m: C.Match)
    requires C.Discovered(rules, matches) && m in matches && C.Reconciled(rules, config, matches, policy).Some?
    ensures var desired := C.Reconciled(rules, config, matches, policy).value;
            var list := ModelList(rules, desired);
            && list.Some?
            && exists r, x | r in list.value && x in desired.models ::
              Serves(r, m) && Has(r.info, "id", Str(x.id)) && C.KeyOf(x) == C.SelectedKey(desired.connections, m)
  {
    hide C.Reconciled, C.Discovered, C.Identity, Serves, Has;
    C.Reconciles(rules, config, matches, policy);
    var desired := C.Reconciled(rules, config, matches, policy).value;
    SettingsConnect(rules, desired);
    assert C.Settled(rules, desired, m);
    var i: nat, j: nat :| C.SettledAt(rules, desired, m, i, j);
    var c, x := desired.connections[i], desired.models[j];
    assert c in desired.connections;
    ByAliasFinds(desired.connections, c);
    var r := RenderedModels(rules, desired)[j];
    assert r == RenderedModel(x, m.account.endpoint);
    OptionsRendered(x, m, m.account.endpoint);
    assert r in RenderedModels(rules, desired) && x in desired.models;
    C.SoundUnique(rules, desired);
    C.SettledStep(rules, C.State(desired.connections, desired.models, {}), m, i, j);
  }

  const RESERVED := {"model", "api_base", "api_version", "base_model"}

  lemma OptionsRendered(x: C.Mapping, m: C.Match, endpoint: string)
    requires C.Applied(x, m.target) == x && endpoint == m.account.endpoint
    requires x.modelGroup == m.target.modelGroup && x.deployment == m.target.deployment
    ensures var r := RenderedModel(x, endpoint); Serves(r, m) && Has(r.info, "id", Str(x.id))
  {
    assert x.params == C.Overlay(x.params, m.target.params) && x.info == C.Overlay(x.info, m.target.info);
    ParamsRendered(x, endpoint);
    InfoRendered(x, endpoint);
    OverlaidIn(x.params, m.target.params);
    OverlaidIn(x.info, m.target.info);
    hide RenderedModel, C.Overlay;
  }

  lemma OverlaidIn(fields: Option<map<string, Json>>, more: map<string, Json>)
    requires fields == C.Overlay(fields, more)
    ensures forall key | key in more :: Has(C.OrEmpty(fields), key, more[key])
  {
  }

  lemma ParamsRendered(x: C.Mapping, endpoint: string)
    ensures var r := RenderedModel(x, endpoint);
            && r.modelName == x.modelGroup
            && Has(r.params, "model", Str("azure/" + x.deployment)) && Has(r.params, "api_base", Str(endpoint))
            && Has(r.params, "api_version", Str(x.apiVersion))
            && (x.baseModel.Some? ==> Has(r.params, "base_model", Str(x.baseModel.value)))
            && (forall key | key in C.OrEmpty(x.params) && key !in RESERVED :: Has(r.params, key, C.OrEmpty(x.params)[key]))
  {
    assert BaseModel(x).Keys <= {"base_model"};
    var fixed := map["model" := Str("azure/" + x.deployment), "api_base" := Str(endpoint), "api_version" := Str(x.apiVersion)];
    assert "model" in fixed && "api_base" in fixed && "api_version" in fixed;
    assert RenderedModel(x, endpoint).params == C.OrEmpty(x.params) + fixed + BaseModel(x);
  }

  lemma InfoRendered(x: C.Mapping, endpoint: string)
    ensures var r := RenderedModel(x, endpoint);
            && Has(r.info, "id", Str(x.id))
            && (x.baseModel.Some? ==> Has(r.info, "base_model", Str(x.baseModel.value)))
            && (forall key | key in C.OrEmpty(x.info) && key != "id" && key != "base_model" :: Has(r.info, key, C.OrEmpty(x.info)[key]))
  {
    assert BaseModel(x).Keys <= {"base_model"};
    assert RenderedModel(x, endpoint).info == C.OrEmpty(x.info) + map["id" := Str(x.id)] + BaseModel(x);
  }

  predicate Has(fields: map<string, Json>, key: string, value: Json) {
    key in fields && fields[key] == value
  }

  /****** The affinity table ******/

  function Groups(config: C.Config): set<string> {
    set m | m in config.models :: m.modelGroup
  }

  function Names(models: seq<Rendered>): set<string> {
    set r | r in models :: r.modelName
  }

  function Dedupe(s: seq<string>): seq<string> {
    if s == [] then []
    else
      var before, last := Dedupe(s[..|s| - 1]), s[|s| - 1];
      if last in before then before else before + [last]
  }

  lemma {:induction false} DedupeElements(s: seq<string>)
    ensures forall x :: x in Dedupe(s) <==> x in s
    ensures Distinct(Dedupe(s))
  {
    if s != [] {
      DedupeElements(s[..|s| - 1]);
      assert s == s[..|s| - 1] + [s[|s| - 1]];
    }
  }

  // The wanted groups as sorted() lists them.
  function WantedGroups(config: C.Config): seq<string> {
    Sorted(Dedupe(seq(|config.models|, i requires 0 <= i < |config.models| => config.models[i].modelGroup)))
  }

  lemma WantedElements(config: C.Config)
    ensures forall name :: name in WantedGroups(config) <==> name in Groups(config)
    ensures config.models != [] ==> WantedGroups(config) != []
  {
    var names := seq(|config.models|, i requires 0 <= i < |config.models| => config.models[i].modelGroup);
    DedupeElements(names);
    SortedOrders(Dedupe(names));
    forall name
      ensures name in WantedGroups(config) <==> name in Groups(config)
    {
      assert name in WantedGroups(config) <==> name in multiset(Sorted(Dedupe(names)));
      assert name in Dedupe(names) <==> name in multiset(Dedupe(names));
      if name in Groups(config) {
        var m :| m in config.models && m.modelGroup == name;
        var i :| 0 <= i < |config.models| && config.models[i] == m;
        assert names[i] == name;
      }
    }
    if config.models != [] { assert config.models[0].modelGroup in Groups(config); }
  }

  function Without(table: Table, names: set<string>): Table {
    if table == [] then []
    else
      var before, last := Without(table[..|table| - 1], names), table[|table| - 1];
      if last.0 in names then before else before + [last]
  }

  function WithDefaults(table: Table, names: seq<string>, prototype: Json): Table {
    if names == [] then table
    else
      var before, name := WithDefaults(table, names[..|names| - 1], prototype), names[|names| - 1];
      if name in Keys(before) then before else before + [(name, prototype)]
  }

  function NewTable(table: Table, previous: set<string>, wanted: seq<string>): Table
    requires table != []
  {
    WithDefaults(Without(table, previous - Elements(wanted)), wanted, table[0].1)
  }

  lemma {:induction false} WithoutElements(table: Table, names: set<string>)
    ensures forall entry :: entry in Without(table, names) <==> entry in table && entry.0 !in names
    ensures Dictionary(table) ==> Dictionary(Without(table, names))
  {
    if table != [] {
      var before, last := table[..|table| - 1], table[|table| - 1];
      WithoutElements(before, names);
      assert table == before + [last];
    }
  }

  lemma {:induction false} WithDefaultsElements(table: Table, names: seq<string>, prototype: Json)
    ensures table <= WithDefaults(table, names, prototype)
    ensures forall entry :: entry in WithDefaults(table, names, prototype) <==>
              entry in table || (entry.0 in names && entry.0 !in Keys(table) && entry.1 == prototype)
    ensures Dictionary(table) ==> Dictionary(WithDefaults(table, names, prototype))
  {
    if names != [] {
      var before, name := names[..|names| - 1], names[|names| - 1];
      WithDefaultsElements(table, before, prototype);
      assert names == before + [name];
      var sofar := WithDefaults(table, before, prototype);
      assert name in Keys(sofar) <==> name in Keys(table) || name in before by {
        if name in before && name !in Keys(table) { assert (name, prototype) in sofar; }
      }
    }
  }

  lemma {:induction false} WithDefaultsFixes(table: Table, names: seq<string>, prototype: Json)
    requires forall name | name in names :: name in Keys(table)
    ensures WithDefaults(table, names, prototype) == table
  {
    if names != [] {
      assert forall name | name in names[..|names| - 1] :: name in names;
      WithDefaultsFixes(table, names[..|names| - 1], prototype);
    }
  }

  lemma {:induction false} WithoutNothing(table: Table, names: set<string>)
    requires forall entry | entry in table :: entry.0 !in names
    ensures Without(table, names) == table
  {
    if table != [] {
      assert table[|table| - 1] in table && forall entry | entry in table[..|table| - 1] :: entry in table;
      WithoutNothing(table[..|table| - 1], names);
    }
  }

  // The groups of the table become exactly the old ones minus the dropped ones plus
  // the wanted ones. What stays keeps its value and its place before what is new;
  // what is new gets the value that came first.
  lemma AffinityGroups(table: Table, previous: set<string>, wanted: seq<string>)
    requires table != [] && Dictionary(table)
    ensures var next := NewTable(table, previous, wanted);
            var dropped := previous - Elements(wanted);
            && Dictionary(next)
            && Keys(next) == (Keys(table) - dropped) + Elements(wanted)
            && (forall entry | entry in next :: if entry.0 in Keys(table) then entry in table else entry.1 == table[0].1)
            && Without(table, dropped) <= next
  {
    var dropped := previous - Elements(wanted);
    var kept := Without(table, dropped);
    WithoutElements(table, dropped);
    WithDefaultsElements(kept, wanted, table[0].1);
    var next := NewTable(table, previous, wanted);
    forall name
      ensures name in Keys(next) <==> (name in Keys(table) && name !in dropped) || name in wanted
    {
      if name in Keys(table) && name !in dropped {
        var entry :| entry in table && entry.0 == name;
        assert entry in kept && entry in next;
      } else if name in wanted {
        assert name !in Keys(kept) ==> (name, table[0].1) in next;
      }
    }
  }

  lemma AffinityFixed(table: Table, previous: set<string>, wanted: seq<string>)
    requires table != [] && Dictionary(table) && wanted != []
    ensures var next := NewTable(table, previous, wanted);
            next != [] && NewTable(next, Elements(wanted), wanted) == next
  {
    AffinityGroups(table, previous, wanted);
    var next := NewTable(table, previous, wanted);
    assert wanted[0] in Keys(next);
    WithoutNothing(next, Elements(wanted) - Elements(wanted));
    WithDefaultsFixes(next, wanted, next[0].1);
  }

  /****** Setting overrides ******/

  type Overrides = map<string, map<string, Json>>

  // The closed set of fields an override may name.
  function Supported(section: string): set<string> {
    match section
    case "general_settings" => {"disable_env_credential_login", "ui_access_mode"}
    case "litellm_settings" => {"request_timeout", "drop_params", "modify_params", "force_ipv4", "set_verbose"}
    case "router_settings" =>
      {"routing_strategy", "num_retries", "allowed_fails", "cooldown_time", "timeout", "stream_timeout", "retry_after",
       "enable_pre_call_checks"}
    case _ => {}
  }

  const SECTIONS := {"general_settings", "litellm_settings", "router_settings"}

  predicate Closed(overrides: Overrides) {
    overrides.Keys <= SECTIONS && forall s | s in overrides :: overrides[s].Keys <= Supported(s)
  }

  function Field<T>(sections: map<string, map<string, T>>, section: string): map<string, T> {
    if section in sections then sections[section] else map[]
  }

  function AsPlain(values: map<string, Json>): map<string, Setting> {
    map k | k in values :: Plain(values[k])
  }

  // apply_runtime_settings.
  function Overlaid(sections: map<string, map<string, Setting>>, overrides: Overrides): map<string, map<string, Setting>> {
    map s | s in sections.Keys + overrides.Keys :: Field(sections, s) + AsPlain(Field(overrides, s))
  }

  lemma OverlaidTwice(sections: map<string, map<string, Setting>>, overrides: Overrides)
    ensures Overlaid(Overlaid(sections, overrides), overrides) == Overlaid(sections, overrides)
  {
    var once := Overlaid(sections, overrides);
    forall s | s in once
      ensures once[s] + AsPlain(Field(overrides, s)) == once[s]
    {
    }
  }

  /****** render ******/

  // What a configuration contributes: its models and its setting overrides.
  datatype Desired = Desired(config: C.Config, overrides: Overrides)

  // The checks that are not modelled in detail: safe_settings and the literal checks
  // of the single override values.
  datatype Checks = Checks(safe: Runtime -> bool, values: Overrides -> bool)

  function AffinityOf(runtime: Runtime): Option<Setting> {
    if ROUTER in runtime.sections && AFFINITY in runtime.sections[ROUTER] && runtime.sections[ROUTER][AFFINITY] != Plain(Null)
    then Some(runtime.sections[ROUTER][AFFINITY])
    else None
  }

  predicate Usable(affinity: Option<Setting>) {
    affinity.Some? ==> affinity.value.Affinities? && affinity.value.table != []
  }

  function WithAffinity(runtime: Runtime, config: C.Config): map<string, map<string, Setting>>
    requires Usable(AffinityOf(runtime))
  {
    var affinity := AffinityOf(runtime);
    if affinity.None? then runtime.sections
    else
      var table := NewTable(affinity.value.table, Names(runtime.models), WantedGroups(config));
      runtime.sections[ROUTER := runtime.sections[ROUTER][AFFINITY := Affinities(table)]]
  }

  function Render(rules: C.Rules, checks: Checks, desired: Desired, runtime: Runtime): Option<Runtime> {
    var models := ModelList(rules, desired.config);
    if models.None? || !Usable(AffinityOf(runtime)) || !Closed(desired.overrides) || !checks.values(desired.overrides) then None
    else
      var next := Runtime(models.value, Overlaid(WithAffinity(runtime, desired.config), desired.overrides), runtime.other);
      if checks.safe(next) then Some(next) else None
  }

  // The loops of render over its own copy of the affinity table.
  method RenderAffinity(table: Table, previous: set<string>, wanted: seq<string>) returns (affinities: Table)
    requires table != []
    ensures affinities == NewTable(table, previous, wanted)
  {
    affinities := table;
    var prototype := affinities[0].1;
    var dropped := previous - Elements(wanted);
    var remaining, removed: set<string> := dropped, {};
    WithoutNothing(table, {});
    while remaining != {}
      invariant removed + remaining == dropped && affinities == Without(table, removed)
      decreases remaining
    {
      var name :| name in remaining;
      affinities := Without(affinities, {name});
      WithoutBoth(table, removed, name);
      remaining, removed := remaining - {name}, removed + {name};
    }
    assert removed == dropped;
    ghost var kept := affinities;
    for i := 0 to |wanted|
      invariant affinities == WithDefaults(kept, wanted[..i], prototype)
    {
      assert wanted[..i + 1][..i] == wanted[..i];
      if wanted[i] !in Keys(affinities) { affinities := affinities + [(wanted[i], prototype)]; }
    }
    assert wanted[..|wanted|] == wanted;
  }

  lemma {:induction false} WithoutBoth(table: Table, names: set<string>, name: string)
    ensures Without(Without(table, names), {name}) == Without(table, names + {name})
  {
    if table != [] {
      var before, last := table[..|table| - 1], table[|table| - 1];
      WithoutBoth(before, names, name);
      if last.0 !in names {
        assert Without(table, names)[..|Without(table, names)| - 1] == Without(before, names);
      }
    }
  }

  // Nothing but the models, the affinity table and the overridden settings differs.
  lemma RenderFrame(rules: C.Rules, checks: Checks, desired: Desired, runtime: Runtime, section: string, key: string)
    requires Render(rules, checks, desired, runtime).Some?
    requires !(section == ROUTER && key == AFFINITY) && key !in Field(desired.overrides, section)
    ensures var next := Render(rules, checks, desired, runtime).value;
            && next.other == runtime.other
            && next.sections.Keys == runtime.sections.Keys + desired.overrides.Keys
            && (key in Field(next.sections, section) <==> key in Field(runtime.sections, section))
            && (key in Field(runtime.sections, section) ==> next.sections[section][key] == runtime.sections[section][key])
  {
    hide ModelList, NewTable, Usable, Closed, WantedGroups, Names;
    var with := WithAffinity(runtime, desired.config);
    assert with.Keys == runtime.sections.Keys;
    assert key in Field(with, section) <==> key in Field(runtime.sections, section);
    assert section in desired.overrides.Keys + with.Keys ==> key !in AsPlain(Field(desired.overrides, section));
  }

  // No override can name the affinity table, so it is exactly the computed one.
  lemma RenderAffinities(rules: C.Rules, checks: Checks, desired: Desired, runtime: Runtime)
    requires Render(rules, checks, desired, runtime).Some?
    ensures var next := Render(rules, checks, desired, runtime).value;
            AffinityOf(next) ==
            if AffinityOf(runtime).None? then None
            else Some(Affinities(NewTable(AffinityOf(runtime).value.table, Names(runtime.models), WantedGroups(desired.config))))
  {
    assert AFFINITY !in Supported(ROUTER);
  }

  lemma RenderedNames(rules: C.Rules, config: C.Config)
    requires ModelList(rules, config).Some?
    ensures Names(ModelList(rules, config).value) == Elements(WantedGroups(config))
    ensures WantedGroups(config) != []
  {
    hide Connected, RenderedModel;
    var list := ModelList(rules, config).value;
    WantedElements(config);
    forall name
      ensures name in Names(list) <==> name in Groups(config)
    {
      NamesAre(rules, config, name);
    }
  }

  lemma NamesAre(rules: C.Rules, config: C.Config, name: string)
    requires ModelList(rules, config).Some?
    ensures name in Names(ModelList(rules, config).value) <==> name in Groups(config)
  {
    hide Connected, C.Settings;
    SettingsConnect(rules, config);
    var list := RenderedModels(rules, config);
    if name in Groups(config) {
      var m :| m in config.models && m.modelGroup == name;
      var i :| 0 <= i < |config.models| && config.models[i] == m;
      assert list[i].modelName == name && list[i] in list;
    }
    if name in Names(list) {
      var r :| r in list && r.modelName == name;
      var i :| 0 <= i < |list| && list[i] == r;
      assert config.models[i] in config.models;
    }
  }

  /****** The agreement check ******/

  function IdOf(r: Rendered): string {
    if "id" in r.info && r.info["id"].Str? then r.info["id"].text else ""
  }

  function InsertById(r: Rendered, list: seq<Rendered>): seq<Rendered> {
    if list == [] || Before(IdOf(r), IdOf(list[0])) then [r] + list else [list[0]] + InsertById(r, list[1..])
  }

  // sorted(list, key=id).
  function SortedById(list: seq<Rendered>): seq<Rendered> {
    if list == [] then [] else InsertById(list[0], SortedById(list[1..]))
  }

  predicate OrderedById(list: seq<Rendered>) {
    forall i, j | 0 <= i < j < |list| :: Before(IdOf(list[i]), IdOf(list[j]))
  }

  predicate DistinctById(list: seq<Rendered>) {
    forall i, j | 0 <= i < j < |list| :: IdOf(list[i]) != IdOf(list[j])
  }

  lemma {:induction false} InsertedBag(r: Rendered, list: seq<Rendered>)
    ensures multiset(InsertById(r, list)) == multiset(list) + multiset{r}
  {
    if list != [] && !Before(IdOf(r), IdOf(list[0])) {
      InsertedBag(r, list[1..]);
      assert list == [list[0]] + list[1..];
    }
  }

  lemma {:induction false} InsertedOrdered(r: Rendered, list: seq<Rendered>)
    requires OrderedById(list)
    ensures OrderedById(InsertById(r, list))
  {
    hide Before;
    if list != [] {
      if Before(IdOf(r), IdOf(list[0])) {
        forall j | 0 <= j < |list|
          ensures Before(IdOf(r), IdOf(list[j]))
        {
          if j > 0 { BeforeTrans(IdOf(r), IdOf(list[0]), IdOf(list[j])); }
        }
      } else {
        BeforeTotal(IdOf(r), IdOf(list[0]));
        InsertedOrdered(r, list[1..]);
        InsertedBag(r, list[1..]);
        var rest := InsertById(r, list[1..]);
        forall j | 0 <= j < |rest|
          ensures Before(IdOf(list[0]), IdOf(rest[j]))
        {
          assert rest[j] in multiset(rest);
          assert rest[j] == r || rest[j] in list[1..];
        }
      }
    }
  }

  lemma {:induction false} SortedByIdSorts(list: seq<Rendered>)
    ensures OrderedById(SortedById(list)) && multiset(SortedById(list)) == multiset(list)
  {
    if list != [] {
      SortedByIdSorts(list[1..]);
      InsertedOrdered(list[0], SortedById(list[1..]));
      InsertedBag(list[0], SortedById(list[1..]));
      assert list == [list[0]] + list[1..];
    }
  }

  predicate IdsIdentify(list: seq<Rendered>) {
    forall x, y | x in list && y in list && IdOf(x) == IdOf(y) :: x == y
  }

  lemma SameFirst(a: seq<Rendered>, b: seq<Rendered>)
    requires OrderedById(a) && OrderedById(b) && multiset(a) == multiset(b) && IdsIdentify(a) && a != []
    ensures b != [] && a[0] == b[0]
  {
    hide Before, IdOf;
    assert a[0] in multiset(b) && b != [];
    assert b[0] in multiset(a);
    var i :| 0 <= i < |a| && a[i] == b[0];
    var j :| 0 <= j < |b| && b[j] == a[0];
    if i > 0 && j > 0 {
      assert Before(IdOf(a[0]), IdOf(a[i])) && Before(IdOf(b[0]), IdOf(b[j]));
      BeforeBoth(IdOf(a[0]), IdOf(b[0]));
    }
  }

  // The same bag sorted by distinct ids is the same list.
  lemma {:induction false} SortedOnce(a: seq<Rendered>, b: seq<Rendered>)
    requires OrderedById(a) && OrderedById(b) && multiset(a) == multiset(b) && IdsIdentify(a)
    ensures a == b
  {
    hide Before, IdOf;
    if a == [] {
      assert |multiset(b)| == 0;
    } else {
      SameFirst(a, b);
      assert a == [a[0]] + a[1..] && b == [b[0]] + b[1..];
      assert multiset(a[1..]) == multiset(a) - multiset{a[0]} == multiset(b[1..]);
      assert OrderedById(a[1..]) && OrderedById(b[1..]) && IdsIdentify(a[1..]) by { TailOrdered(a); TailOrdered(b); }
      SortedOnce(a[1..], b[1..]);
    }
  }

  lemma TailOrdered(a: seq<Rendered>)
    requires a != [] && OrderedById(a)
    ensures OrderedById(a[1..]) && (IdsIdentify(a) ==> IdsIdentify(a[1..]))
  {
    hide Before, IdOf;
    assert forall x | x in a[1..] :: x in a;
  }

  lemma BagIds(a: seq<Rendered>, b: seq<Rendered>)
    requires multiset(a) == multiset(b) && DistinctById(b)
    ensures IdsIdentify(a)
  {
    forall x, y | x in a && y in a && IdOf(x) == IdOf(y)
      ensures x == y
    {
      assert x in multiset(b) && y in multiset(b);
    }
  }

  // Comparing both lists sorted by id accepts exactly the permutations.
  lemma SortedComparison(live: seq<Rendered>, expected: seq<Rendered>)
    requires DistinctById(expected)
    ensures SortedById(live) == SortedById(expected) <==> multiset(live) == multiset(expected)
  {
    SortedByIdSorts(live);
    SortedByIdSorts(expected);
    if multiset(live) == multiset(expected) {
      BagIds(SortedById(live), expected);
      SortedOnce(SortedById(live), SortedById(expected));
    }
  }

  // Two entries that are equal to the language, and two lists of them.
  predicate SameEntry(a: Rendered, b: Rendered) {
    a.modelName == b.modelName && PyEqual(Obj(a.params), Obj(b.params)) && PyEqual(Obj(a.info), Obj(b.info))
  }

  predicate SameEntries(a: seq<Rendered>, b: seq<Rendered>) {
    |a| == |b| && forall i | 0 <= i < |a| :: SameEntry(a[i], b[i])
  }

  lemma SameEntryIds(a: Rendered, b: Rendered)
    requires SameEntry(a, b)
    ensures IdOf(a) == IdOf(b)
  {
    if "id" in a.info { assert PyEqual(a.info["id"], b.info["id"]); }
  }

  // Sorting by id does the same to two lists that are paired entry by entry.
  ghost predicate Paired(a: seq<Rendered>, b: seq<Rendered>, pair: (Rendered, Rendered) -> bool) {
    |a| == |b| && forall i | 0 <= i < |a| :: pair(a[i], b[i]) && IdOf(a[i]) == IdOf(b[i])
  }

  lemma {:induction false} InsertPaired(x: Rendered, y: Rendered, a: seq<Rendered>, b: seq<Rendered>, pair: (Rendered, Rendered) -> bool)
    requires Paired(a, b, pair) && pair(x, y) && IdOf(x) == IdOf(y)
    ensures Paired(InsertById(x, a), InsertById(y, b), pair)
  {
    hide Before, IdOf;
    if a != [] && !Before(IdOf(x), IdOf(a[0])) { InsertPaired(x, y, a[1..], b[1..], pair); }
  }

  lemma {:induction false} SortPaired(a: seq<Rendered>, b: seq<Rendered>, pair: (Rendered, Rendered) -> bool)
    requires Paired(a, b, pair)
    ensures Paired(SortedById(a), SortedById(b), pair)
  {
    hide IdOf;
    if a != [] {
      SortPaired(a[1..], b[1..], pair);
      InsertPaired(a[0], b[0], SortedById(a[1..]), SortedById(b[1..]), pair);
    }
  }

  lemma SamePaired(a: seq<Rendered>, b: seq<Rendered>)
    ensures SameEntries(a, b) <==> Paired(a, b, SameEntry)
  {
    hide SameEntry, IdOf;
    forall x, y | SameEntry(x, y)
      ensures IdOf(x) == IdOf(y)
    {
      SameEntryIds(x, y);
    }
  }

  // The expected entry with the id of a live one; the live one itself if there is none.
  function Expected(expected: seq<Rendered>, r: Rendered): Rendered {
    if expected == [] then r
    else if IdOf(expected[0]) == IdOf(r) then expected[0]
    else Expected(expected[1..], r)
  }

  lemma {:induction false} ExpectedIs(expected: seq<Rendered>, r: Rendered)
    ensures IdOf(Expected(expected, r)) == IdOf(r)
    ensures DistinctById(expected) ==> forall e | e in expected && IdOf(e) == IdOf(r) :: Expected(expected, r) == e
  {
    hide IdOf;
    if expected != [] {
      ExpectedIs(expected[1..], r);
      assert expected == [expected[0]] + expected[1..];
    }
  }

  // A live list that, entry by entry, equals some order of the expected one.
  ghost predicate SomeOrder(live: seq<Rendered>, expected: seq<Rendered>) {
    exists normal :: SameEntries(live, normal) && multiset(normal) == multiset(expected)
  }

  // Comparing both lists sorted by id accepts exactly the orders of the expected one.
  lemma SortedEqualComparison(live: seq<Rendered>, expected: seq<Rendered>)
    requires DistinctById(expected)
    ensures SameEntries(SortedById(live), SortedById(expected)) <==> SomeOrder(live, expected)
  {
    hide SameEntry, IdOf, SortedById, Expected;
    if SomeOrder(live, expected) {
      var normal :| SameEntries(live, normal) && multiset(normal) == multiset(expected);
      SamePaired(live, normal);
      SortPaired(live, normal, SameEntry);
      SortedComparison(normal, expected);
      SamePaired(SortedById(live), SortedById(expected));
    }
    if SameEntries(SortedById(live), SortedById(expected)) {
      SortedMatches(live, expected);
    }
  }

  lemma SortedMatches(live: seq<Rendered>, expected: seq<Rendered>)
    requires DistinctById(expected) && SameEntries(SortedById(live), SortedById(expected))
    ensures SomeOrder(live, expected)
  {
    hide SameEntry, IdOf, SortedById, Expected, DistinctById;
    var normal := seq(|live|, i requires 0 <= i < |live| => Expected(expected, live[i]));
    var pair := (a: Rendered, b: Rendered) => b == Expected(expected, a);
    forall r
      ensures IdOf(Expected(expected, r)) == IdOf(r)
    {
      ExpectedIs(expected, r);
    }
    assert Paired(live, normal, pair);
    SortPaired(live, normal, pair);
    var sorted, target := SortedById(live), SortedById(expected);
    SortedByIdSorts(expected);
    SortedByIdSorts(live);
    SortedByIdSorts(normal);
    forall i | 0 <= i < |sorted|
      ensures SortedById(normal)[i] == target[i]
    {
      SameEntryIds(sorted[i], target[i]);
      ExpectedIs(expected, sorted[i]);
      assert target[i] in multiset(expected);
    }
    assert SortedById(normal) == target;
    NormalSame(live, normal, expected);
  }

  lemma NormalSame(live: seq<Rendered>, normal: seq<Rendered>, expected: seq<Rendered>)
    requires |normal| == |live| && forall i | 0 <= i < |live| :: normal[i] == Expected(expected, live[i])
    requires DistinctById(expected) && SameEntries(SortedById(live), SortedById(expected))
    ensures SameEntries(live, normal)
  {
    hide SameEntry, IdOf, SortedById, Expected, DistinctById;
    var sorted, target := SortedById(live), SortedById(expected);
    SortedByIdSorts(live);
    SortedByIdSorts(expected);
    forall i | 0 <= i < |live|
      ensures SameEntry(live[i], normal[i])
    {
      assert live[i] in multiset(sorted);
      var k :| 0 <= k < |sorted| && sorted[k] == live[i];
      SameEntryIds(sorted[k], target[k]);
      ExpectedIs(expected, live[i]);
      assert target[k] in multiset(expected);
    }
  }

  // The check that a live configuration agrees with the customer configuration
  // before anything is planned on it.
  predicate Agrees(rules: C.Rules, desired: Desired, runtime: Runtime) {
    && ModelList(rules, desired.config).Some?
    && SameEntries(SortedById(runtime.models), SortedById(ModelList(rules, desired.config).value))
    && forall s | s in desired.overrides :: forall k | k in desired.overrides[s] ::
         && s in runtime.sections && k in runtime.sections[s]
         && Canonical(runtime.sections[s][k]) == Canonical(Plain(desired.overrides[s][k]))
  }

  // What a fingerprint sees of a setting: a dictionary without its order.
  function Canonical(setting: Setting): Json {
    match setting
    case Plain(value) => value
    case Affinities(table) => Obj(map name | name in Keys(table) :: Value(table, name))
  }

  function Value(table: Table, name: string): Json {
    if table == [] then Null
    else if table[|table| - 1].0 == name then table[|table| - 1].1
    else Value(table[..|table| - 1], name)
  }

  function Fingerprint(runtime: Runtime): Digest<(seq<Rendered>, map<string, map<string, Json>>, map<string, Json>)> {
    Digest((runtime.models,
            map s | s in runtime.sections :: map k | k in runtime.sections[s] :: Canonical(runtime.sections[s][k]),
            runtime.other))
  }

  lemma RenderedIds(rules: C.Rules, config: C.Config)
    requires ModelList(rules, config).Some?
    ensures DistinctById(ModelList(rules, config).value)
  {
    SettingsConnect(rules, config);
    var list := RenderedModels(rules, config);
    forall i, j | 0 <= i < j < |list|
      ensures IdOf(list[i]) != IdOf(list[j])
    {
      IdIs(config.models[i], C.Endpoint(rules, ByAlias(config.connections, config.models[i].alias).value).value);
      IdIs(config.models[j], C.Endpoint(rules, ByAlias(config.connections, config.models[j].alias).value).value);
    }
  }

  lemma IdIs(m: C.Mapping, endpoint: string)
    ensures IdOf(RenderedModel(m, endpoint)) == m.id
  {
    assert "id" !in BaseModel(m);
  }

  // Every override is in force in the live settings.
  predicate OverridesInForce(overrides: Overrides, runtime: Runtime) {
    forall s | s in overrides :: forall k | k in overrides[s] ::
      && s in runtime.sections && k in runtime.sections[s]
      && Canonical(runtime.sections[s][k]) == overrides[s][k]
  }

  // A live configuration agrees exactly when its models are, in some order, equal to
  // the configured ones and every override is in force.
  lemma AgreementIsPermutation(rules: C.Rules, desired: Desired, runtime: Runtime)
    ensures Agrees(rules, desired, runtime) <==>
              && ModelList(rules, desired.config).Some?
              && SomeOrder(runtime.models, ModelList(rules, desired.config).value)
              && OverridesInForce(desired.overrides, runtime)
  {
    hide SomeOrder, SameEntries;
    if ModelList(rules, desired.config).Some? {
      RenderedIds(rules, desired.config);
      SortedEqualComparison(runtime.models, ModelList(rules, desired.config).value);
    }
  }

  // What rendering produced, rendered again, is itself; it agrees with the desired
  // configuration and its fingerprint reports no change.
  lemma RenderIsFixed(rules: C.Rules, checks: Checks, desired: Desired, runtime: Runtime)
    requires Render(rules, checks, desired, runtime).Some?
    requires AffinityOf(runtime).Some? ==> Dictionary(AffinityOf(runtime).value.table)
    ensures var next := Render(rules, checks, desired, runtime).value;
            && Render(rules, checks, desired, next) == Some(next)
            && Agrees(rules, desired, next)
            && Fingerprint(Render(rules, checks, desired, next).value) == Fingerprint(next)
  {
    var next := Render(rules, checks, desired, runtime).value;
    RenderAffinities(rules, checks, desired, runtime);
    RenderedNames(rules, desired.config);
    var wanted := WantedGroups(desired.config);
    if AffinityOf(runtime).Some? {
      AffinityFixed(AffinityOf(runtime).value.table, Names(runtime.models), wanted);
    }
    WithAffinityFixed(next, desired.config);
    OverlaidTwice(WithAffinity(runtime, desired.config), desired.overrides);
    OverridesApplied(WithAffinity(runtime, desired.config), desired.overrides);
    SameAsItself(SortedById(next.models));
  }

  lemma SameAsItself(list: seq<Rendered>)
    ensures SameEntries(list, list)
  {
    forall i | 0 <= i < |list|
      ensures SameEntry(list[i], list[i])
    {
      PyEqualSelf(Obj(list[i].params));
      PyEqualSelf(Obj(list[i].info));
    }
  }

  lemma WithAffinityFixed(next: Runtime, config: C.Config)
    requires Usable(AffinityOf(next))
    requires AffinityOf(next).Some? ==>
               NewTable(AffinityOf(next).value.table, Names(next.models), WantedGroups(config)) == AffinityOf(next).value.table
    ensures WithAffinity(next, config) == next.sections
  {
    if AffinityOf(next).Some? {
      var router := next.sections[ROUTER];
      assert router[AFFINITY := router[AFFINITY]] == router && next.sections[ROUTER := router] == next.sections;
    }
  }

  lemma OverridesApplied(sections: map<string, map<string, Setting>>, overrides: Overrides)
    ensures forall s | s in overrides :: forall k | k in overrides[s] ::
              var now := Overlaid(sections, overrides);
              s in now && k in now[s] && now[s][k] == Plain(overrides[s][k])
  {
  }

  /****** The Deployment ******/

  // A volume of the pod; the configuration is mounted from one of them.
  datatype Volume = ConfigVolume(configMap: string, rest: Json) | OtherVolume(rest: Json)

  datatype Spec = Spec(replicas: Option<Json>, volumes: seq<Volume>, rest: Json)

  datatype Deployment = Deployment(uid: string, version: nat, spec: Spec)

  datatype Scaler = Scaler(uid: string, minimum: int, maximum: int, rest: Json)

  // The approved baseline.
  datatype Baseline = Baseline(deployment: Deployment, volume: nat, scaler: Option<Scaler>, runtime: Runtime)

  predicate Mounted(b: Baseline) {
    b.volume < |b.deployment.spec.volumes| && b.deployment.spec.volumes[b.volume].ConfigVolume?
  }

  function CurrentName(b: Baseline): string
    requires Mounted(b)
  {
    b.deployment.spec.volumes[b.volume].configMap
  }

  function Repointed(spec: Spec, volume: nat, name: string): Spec
    requires volume < |spec.volumes| && spec.volumes[volume].ConfigVolume?
  {
    spec.(volumes := spec.volumes[volume := spec.volumes[volume].(configMap := name)])
  }

  // verify_deployment.
  predicate Verified(now: Deployment, scaler: Option<Scaler>, b: Baseline, wanted: string)
    requires Mounted(b)
  {
    && now.uid == b.deployment.uid && scaler == b.scaler
    && var expected := Repointed(b.deployment.spec, b.volume, wanted);
    if b.scaler.None? then now.spec == expected
    else
      && now.spec.replicas.Some? && now.spec.replicas.value.Int?
      && b.scaler.value.minimum <= now.spec.replicas.value.number <= b.scaler.value.maximum
      && now.spec == expected.(replicas := now.spec.replicas)
  }

  // It accepts exactly the deployments that differ from the approved one in the one
  // volume name and, under an autoscaler, in a replica count within its bounds.
  lemma VerifiedMeans(now: Deployment, scaler: Option<Scaler>, b: Baseline, wanted: string)
    requires Mounted(b)
    ensures Verified(now, scaler, b, wanted) <==>
              && now.uid == b.deployment.uid && scaler == b.scaler
              && now.spec.rest == b.deployment.spec.rest
              && |now.spec.volumes| == |b.deployment.spec.volumes|
              && (forall k | 0 <= k < |now.spec.volumes| && k != b.volume :: now.spec.volumes[k] == b.deployment.spec.volumes[k])
              && now.spec.volumes[b.volume].ConfigVolume? && now.spec.volumes[b.volume].configMap == wanted
              && now.spec.volumes[b.volume].rest == b.deployment.spec.volumes[b.volume].rest
              && (if b.scaler.None? then now.spec.replicas == b.deployment.spec.replicas
                  else now.spec.replicas.Some? && now.spec.replicas.value.Int?
                       && b.scaler.value.minimum <= now.spec.replicas.value.number <= b.scaler.value.maximum)
  {
    var expected := Repointed(b.deployment.spec, b.volume, wanted);
    assert now.spec.volumes == expected.volumes <==>
             |now.spec.volumes| == |expected.volumes| && forall k | 0 <= k < |expected.volumes| :: now.spec.volumes[k] == expected.volumes[k];
  }

  /****** Applying an approved change ******/

  predicate Changed(next: Runtime, b: Baseline) {
    Fingerprint(next) != Fingerprint(b.runtime)
  }

  // The approved Deployment once the patch has been applied to it.
  function Patched(b: Baseline, name: string): Deployment
    requires Mounted(b)
  {
    Deployment(b.deployment.uid, b.deployment.version + 1, Repointed(b.deployment.spec, b.volume, name))
  }

  // An autoscaled baseline has a replica count within the bounds.
  predicate InBounds(b: Baseline) {
    var replicas := b.deployment.spec.replicas;
    b.scaler.Some? ==>
      replicas.Some? && replicas.value.Int? && b.scaler.value.minimum <= replicas.value.number <= b.scaler.value.maximum
  }

  // The approved state itself passes, under any name it is pointed to.
  lemma ApprovedVerifies(b: Baseline, name: string)
    requires Mounted(b)
    ensures Verified(b.deployment, b.scaler, b, CurrentName(b)) <==> InBounds(b)
    ensures Verified(Patched(b, name), b.scaler, b, name) <==> InBounds(b)
  {
    var volumes := b.deployment.spec.volumes;
    assert volumes[b.volume := volumes[b.volume].(configMap := CurrentName(b))] == volumes;
  }

  // One write to the Deployment, and the configuration maps that existed then.
  datatype Write = Write(before: Deployment, now: Deployment, maps: map<string, Runtime>)

  // The cluster as the operator sees it. A resource version never names two states of
  // the Deployment. Calls may be interrupted before or after they take effect unless
  // `reliable`; when `shared`, others change the Deployment and its autoscaler at any
  // time, but not the immutable configuration maps.
  class Backend {
    const reliable: bool
    const shared: bool
    var deployment: Deployment
    var scaler: Option<Scaler>
    var maps: map<string, Runtime>
    ghost var history: map<nat, Deployment>
    ghost var writes: seq<Write>

    ghost predicate Valid()
      reads this
    {
      && deployment.version in history && history[deployment.version] == deployment
      && forall v | v in history :: v <= deployment.version && history[v].version == v
    }

    // A baseline was read from this cluster at some time.
    ghost predicate Known(b: Baseline)
      reads this
    {
      b.deployment.version in history && history[b.deployment.version] == b.deployment
    }

    constructor (deployment: Deployment, scaler: Option<Scaler>, maps: map<string, Runtime>, reliable: bool, shared: bool)
      ensures Valid() && this.deployment == deployment && this.scaler == scaler && this.maps == maps && writes == []
      ensures this.reliable == reliable && this.shared == shared
      ensures forall b: Baseline | b.deployment == deployment :: Known(b)
    {
      this.deployment, this.scaler, this.maps, this.reliable, this.shared := deployment, scaler, maps, reliable, shared;
      this.history, this.writes := map[deployment.version := deployment], [];
    }

    twostate predicate Later()
      reads this
    {
      && (forall v | v in old(history) :: v in history && history[v] == old(history)[v])
      && (forall n | n in old(maps) :: n in maps && maps[n] == old(maps)[n])
    }

    method Fault() returns (failed: bool)
      ensures reliable ==> !failed
    {
      failed := *;
      if reliable { failed := false; }
    }

    method Interfere()
      requires Valid()
      modifies this`deployment, this`scaler, this`history
      ensures Valid() && Later()
      ensures !shared ==> deployment == old(deployment) && scaler == old(scaler) && history == old(history)
    {
      if shared {
        var uid: string, spec: Spec := *, *;
        scaler := *;
        deployment := Deployment(uid, deployment.version + 1, spec);
        history := history[deployment.version := deployment];
      }
    }

    // Creating the map under its content-derived name; an existing one cannot change.
    method CreateMap(name: string, content: Runtime) returns (failed: bool)
      requires Valid()
      modifies this`maps
      ensures Valid() && Later()
      ensures !failed ==> name in maps && maps[name] == content && maps == old(maps)[name := content]
      ensures failed ==> maps == old(maps) || maps == old(maps)[name := content]
      ensures reliable && (name in maps ==> maps[name] == content) ==> !failed
    {
      var interrupted := Fault();
      if interrupted || (name in maps && maps[name] != content) { return true; }
      maps := maps[name := content];
      failed := Fault();
    }

    // The patch: three tests and one replacement, applied together or not at all.
    method Patch(b: Baseline, name: string) returns (failed: bool)
      requires Valid() && Mounted(b) && Known(b)
      modifies this`deployment, this`history, this`writes
      ensures Valid() && Later()
      ensures writes == old(writes) ==> deployment == old(deployment)
      ensures writes != old(writes) ==>
                && old(deployment) == b.deployment
                && deployment == Patched(b, name)
                && writes == old(writes) + [Write(b.deployment, deployment, maps)]
      ensures !failed ==> writes != old(writes)
      ensures reliable && old(deployment) == b.deployment ==> !failed
    {
      var interrupted := Fault();
      if interrupted { return true; }
      if deployment.uid != b.deployment.uid || deployment.version != b.deployment.version { return true; }
      if b.volume >= |deployment.spec.volumes| || !deployment.spec.volumes[b.volume].ConfigVolume? { return true; }
      if deployment.spec.volumes[b.volume].configMap != CurrentName(b) { return true; }
      var patched := Deployment(deployment.uid, deployment.version + 1, Repointed(deployment.spec, b.volume, name));
      writes := writes + [Write(deployment, patched, maps)];
      deployment := patched;
      history := history[deployment.version := deployment];
      failed := Fault();
    }

    // apply. Whatever others do meanwhile and wherever it stops, the only write to the
    // Deployment is the approved one, on the approved state, when the map it points to
    // exists with the rendered content.
    method Apply(b: Baseline, next: Runtime, name: string) returns (ok: bool)
      requires Valid() && Mounted(b) && Known(b)
      modifies this
      ensures Valid() && Later()
      ensures writes == old(writes) ||
              (&& Changed(next, b)
               && |writes| == |old(writes)| + 1 && old(writes) <= writes
               && var w := writes[|old(writes)|];
               && w.before == b.deployment
               && w.now == Patched(b, name)
               && name in w.maps && w.maps[name] == next)
      ensures !shared && (old(deployment) != b.deployment || old(scaler) != b.scaler || !Changed(next, b)) ==>
                deployment == old(deployment) && maps == old(maps) && writes == old(writes)
      ensures ok ==>
                var wanted := if Changed(next, b) then name else CurrentName(b);
                && Verified(deployment, scaler, b, wanted)
                && wanted in maps && Fingerprint(maps[wanted]) == Fingerprint(next)
                && (Changed(next, b) ==> |writes| == |old(writes)| + 1)
      ensures reliable && !shared && old(deployment) == b.deployment && old(scaler) == b.scaler ==>
                (ok <==>
                   && InBounds(b)
                   && (if Changed(next, b) then name !in old(maps) || old(maps)[name] == next
                       else CurrentName(b) in old(maps) && Fingerprint(old(maps)[CurrentName(b)]) == Fingerprint(next)))
    {
      hide Fingerprint, Verified, InBounds, Patched;
      ApprovedVerifies(b, name);
      if Changed(next, b) {
        if deployment.uid != b.deployment.uid || deployment.version != b.deployment.version || deployment.spec != b.deployment.spec {
          return false;
        }
        Interfere();
        if scaler != b.scaler { return false; }
        Interfere();
        var failed := CreateMap(name, next);
        if failed { return false; }
        Interfere();
        failed := Patch(b, name);
        if failed { return false; }
      }
      Interfere();   // the rollout
      var wanted := if Changed(next, b) then name else CurrentName(b);
      if !Verified(deployment, scaler, b, wanted) { return false; }
      if wanted !in maps || Fingerprint(maps[wanted]) != Fingerprint(next) { return false; }
      var unread := Fault();   // the checks of the ready pods
      return !unread;
    }
  }
}
