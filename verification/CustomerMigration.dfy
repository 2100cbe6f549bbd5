// The stages of a migration: which apply, what of the configuration each of them is
// bound to, and when its evidence is accepted.
module CustomerMigration {
  import opened Common
  import opened Text

  /****** The configuration ******/

  // The top-level fields a validated configuration may have, besides its parameters.
  datatype Field =
    | SchemaVersion | Environment | Azure | Location | BaseDomain | OwnerEmail | Target | Legacy | Governance
    | DeploymentMode | PrivateIngress | DatabaseAccess | Application | Proxy | Entra | AuditRuntime | ContentAudit
    | Observability | AuditGovernance | Dns | Certificates | LegacyAccess | L3Audit

  datatype Component =
    | Bootstrap | Network | Backup | RunnerConnectivity | LegacyLogging | Monitoring | Platform | AksIngressRole
    | CertificateVault | RunnerTargetConnectivity | AuditFoundation | ObservabilityComponent | ProxyFoundation | Audit
    | Origin | Edge

  type Fields = map<string, Json>

  datatype Config = Config(fields: map<Field, Json>, parameters: map<Component, Fields>)

  // The stage a component first belongs to.
  function FirstStage(component: Component): nat {
    match component
    case Bootstrap | Network | Backup | RunnerConnectivity => 0
    case LegacyLogging | Monitoring => 1
    case Platform => 3
    case AksIngressRole | CertificateVault | RunnerTargetConnectivity => 4
    case ProxyFoundation => 7
    case AuditFoundation | ObservabilityComponent | Audit => 8
    case Origin | Edge => 9
  }

  function Sub(fields: Fields, key: string): Fields {
    if key in fields && fields[key].Obj? then fields[key].fields else map[]
  }

  function Lookup(fields: Fields, key: string, default: Json): Json {
    if key in fields then fields[key] else default
  }

  function Section(fields: map<Field, Json>, field: Field): Fields {
    if field in fields && fields[field].Obj? then fields[field].fields else map[]
  }

  function Parameters(config: Config, component: Component): Fields {
    if component in config.parameters then config.parameters[component] else map[]
  }

  function AuthenticationMode(application: Fields): Json {
    Lookup(Sub(application, "authentication"), "mode", Str("entra"))
  }

  /****** What a stage is bound to ******/

  // The fields that are dropped for a stage.
  predicate Dropped(field: Field, stage: nat) {
    match field
    case L3Audit => stage != 4 && stage < 8
    case LegacyAccess => stage < 1
    case ContentAudit => stage < 2
    case Dns => stage < 9
    case AuditRuntime | Observability | AuditGovernance => stage < 8
    case Proxy | Entra => stage < 7
    case Application => stage < 6
    case DatabaseAccess => stage < 5
    case PrivateIngress | Certificates => stage < 4
    case _ => false
  }

  const DATA := "stage5Data"
  const CONNECTIONS := "azureOpenAIConnections"
  const ROLE_NAMING := "stage4RoleAssignmentNaming"

  // The parameters of a component that are dropped for a stage.
  function Hidden(component: Component, stage: nat): set<string> {
    if !component.Platform? then {}
    else (if stage < 5 then {DATA} else {}) + (if stage < 4 then {CONNECTIONS, ROLE_NAMING} else {})
  }

  function ScopedParameters(parameters: map<Component, Fields>, stage: nat): map<Component, Fields> {
    map c | c in parameters && FirstStage(c) <= stage :: parameters[c] - Hidden(c, stage)
  }

  function WorkspaceName(config: Config): Json {
    var first := Lookup(Parameters(config, Bootstrap), "logAnalyticsWorkspaceName", Null);
    if Truthy(first) then first
    else Lookup(Parameters(config, if Backup in config.parameters then Backup else Platform), "logAnalyticsWorkspaceName", Null)
  }

  // The content a stage fingerprint is taken of: `mode` and `workspace` are the two
  // derived fields.
  datatype Content = Content(
    fields: map<Field, Json>, mode: Option<Json>, workspace: Json, parameters: map<Component, Fields>)

  function ScopedFields(fields: map<Field, Json>, stage: nat): map<Field, Json> {
    map f | f in fields && !Dropped(f, stage) :: fields[f]
  }

  function Scoped(config: Config, stage: nat): Content {
    Content(ScopedFields(config.fields, stage),
            if 4 <= stage < 6 then Some(AuthenticationMode(Section(config.fields, Application))) else None,
            WorkspaceName(config),
            ScopedParameters(config.parameters, stage))
  }

  function StageFingerprint(config: Config, stage: nat): Digest<Content> {
    Digest(Scoped(config, stage))
  }

  // What is left when the fields of a group have been dropped for a stage.
  function Popped(fields: map<Field, Json>, group: set<Field>, stage: nat): map<Field, Json> {
    map f | f in fields && !(f in group && Dropped(f, stage)) :: fields[f]
  }

  method PopAudit(fields: map<Field, Json>, stage: nat) returns (scoped: map<Field, Json>)
    ensures scoped == Popped(fields, {L3Audit, Dns, AuditRuntime, Observability, AuditGovernance}, stage)
  {
    scoped := fields;
    if stage != 4 && stage < 8 { scoped := scoped - {L3Audit}; }
    if stage < 9 { scoped := scoped - {Dns}; }
    if stage < 8 { scoped := scoped - {AuditRuntime} - {Observability} - {AuditGovernance}; }
  }

  method PopEarly(fields: map<Field, Json>, stage: nat) returns (scoped: map<Field, Json>)
    ensures scoped == Popped(fields, {LegacyAccess, ContentAudit, PrivateIngress, Certificates}, stage)
  {
    scoped := fields;
    if stage < 1 { scoped := scoped - {LegacyAccess}; }
    if stage < 2 { scoped := scoped - {ContentAudit}; }
    if stage < 4 { scoped := scoped - {PrivateIngress} - {Certificates}; }
  }

  method PopLate(fields: map<Field, Json>, stage: nat) returns (scoped: map<Field, Json>)
    ensures scoped == Popped(fields, {Proxy, Entra, Application, DatabaseAccess}, stage)
  {
    scoped := fields;
    if stage < 7 { scoped := scoped - {Proxy} - {Entra}; }
    if stage < 6 { scoped := scoped - {Application}; }
    if stage < 5 { scoped := scoped - {DatabaseAccess}; }
  }

  lemma PoppedAll(fields: map<Field, Json>, stage: nat)
    ensures Popped(Popped(Popped(fields, {L3Audit, Dns, AuditRuntime, Observability, AuditGovernance}, stage),
                          {LegacyAccess, ContentAudit, PrivateIngress, Certificates}, stage),
                   {Proxy, Entra, Application, DatabaseAccess}, stage)
            == ScopedFields(fields, stage)
  {
  }

  // stage_fingerprint, which drops fields from a copy one by one.
  method ComputeStageFingerprint(config: Config, stage: nat) returns (digest: Digest<Content>)
    ensures digest == StageFingerprint(config, stage)
  {
    hide Sub, Lookup, WorkspaceName, Dropped, Popped, ScopedParameters;
    var mode := if 4 <= stage < 6 then Some(AuthenticationMode(Section(config.fields, Application))) else None;
    var scoped := PopAudit(config.fields, stage);
    scoped := PopEarly(scoped, stage);
    scoped := PopLate(scoped, stage);
    PoppedAll(config.fields, stage);
    var selected := SelectParameters(config.parameters, stage);
    return Digest(Content(scoped, mode, WorkspaceName(config), selected));
  }

  // The loop over the components.
  method SelectParameters(parameters: map<Component, Fields>, stage: nat) returns (scoped: map<Component, Fields>)
    ensures scoped == ScopedParameters(parameters, stage)
  {
    scoped := map[];
    var remaining := parameters.Keys;
    while remaining != {}
      invariant remaining <= parameters.Keys
      invariant scoped == map c | c in parameters && c !in remaining && FirstStage(c) <= stage :: parameters[c] - Hidden(c, stage)
      decreases remaining
    {
      var component :| component in remaining;
      remaining := remaining - {component};
      if FirstStage(component) <= stage {
        var selected := parameters[component];
        if component.Platform? && stage < 5 { selected := selected - {DATA}; }
        if component.Platform? && stage < 4 { selected := selected - {CONNECTIONS} - {ROLE_NAMING}; }
        assert selected == parameters[component] - Hidden(component, stage);
        scoped := scoped[component := selected];
      }
    }
  }

  /****** Non-interference between stages ******/

  function L3(config: Config): map<Field, Json> {
    if L3Audit in config.fields then map[L3Audit := config.fields[L3Audit]] else map[]
  }

  // The field that stage 4 sees although stages 5 to 7 do not.
  predicate Exception(stage: nat, earlier: nat) {
    earlier == 4 && 5 <= stage <= 7
  }

  // What an earlier stage is bound to, computed from what a later one is bound to and
  // the one field the later stage may not show.
  function Narrowed(scoped: Content, earlier: nat, l3: map<Field, Json>): Content {
    Content(ScopedFields(scoped.fields, earlier) + l3,
            if !(4 <= earlier < 6) then None
            else if scoped.mode.Some? then scoped.mode
            else Some(AuthenticationMode(Section(scoped.fields, Application))),
            scoped.workspace,
            ScopedParameters(scoped.parameters, earlier))
  }

  lemma ParametersNarrow(parameters: map<Component, Fields>, stage: nat, earlier: nat)
    requires earlier <= stage
    ensures ScopedParameters(ScopedParameters(parameters, stage), earlier) == ScopedParameters(parameters, earlier)
  {
    forall c | c in parameters && FirstStage(c) <= earlier
      ensures parameters[c] - Hidden(c, stage) - Hidden(c, earlier) == parameters[c] - Hidden(c, earlier)
    {
      assert Hidden(c, stage) <= Hidden(c, earlier);
    }
  }

  lemma DroppedEarlier(field: Field, stage: nat, earlier: nat)
    requires earlier <= stage && Dropped(field, stage)
    ensures Dropped(field, earlier) || (field.L3Audit? && Exception(stage, earlier))
  {
  }

  lemma FieldsNarrow(config: Config, stage: nat, earlier: nat)
    requires earlier <= stage
    ensures ScopedFields(ScopedFields(config.fields, stage), earlier) + (if Exception(stage, earlier) then L3(config) else map[])
            == ScopedFields(config.fields, earlier)
  {
    assert Exception(stage, earlier) ==> !Dropped(L3Audit, earlier);
    hide Dropped, Exception;
    forall f | f in config.fields && Dropped(f, stage)
      ensures Dropped(f, earlier) || (f.L3Audit? && Exception(stage, earlier))
    {
      DroppedEarlier(f, stage, earlier);
    }
  }

  lemma ScopedNarrows(config: Config, stage: nat, earlier: nat)
    requires earlier <= stage
    ensures Narrowed(Scoped(config, stage), earlier, if Exception(stage, earlier) then L3(config) else map[]) == Scoped(config, earlier)
  {
    ParametersNarrow(config.parameters, stage, earlier);
    FieldsNarrow(config, stage, earlier);
    if stage >= 6 { ApplicationShown(config, stage); }
    hide Sub, Lookup, WorkspaceName, ScopedFields, ScopedParameters, L3, Section;
  }

  lemma ApplicationShown(config: Config, stage: nat)
    requires stage >= 6
    ensures Section(ScopedFields(config.fields, stage), Application) == Section(config.fields, Application)
  {
  }

  // Two configurations that agree at a stage agree at every earlier one; only stage 4
  // can still tell them apart from stages 5 to 7, and exactly by the l3Audit section.
  lemma EarlierStagesAgree(a: Config, b: Config, stage: nat, earlier: nat)
    requires earlier <= stage && StageFingerprint(a, stage) == StageFingerprint(b, stage)
    ensures StageFingerprint(a, earlier) == StageFingerprint(b, earlier) <==> (Exception(stage, earlier) ==> L3(a) == L3(b))
  {
    hide Sub, Lookup, WorkspaceName, ScopedParameters;
    ScopedNarrows(a, stage, earlier);
    ScopedNarrows(b, stage, earlier);
    if Exception(stage, earlier) && Scoped(a, earlier) == Scoped(b, earlier) {
      assert ScopedFields(a.fields, 4) == ScopedFields(b.fields, 4);
      assert L3Audit in ScopedFields(a.fields, 4) <==> L3Audit in a.fields;
      assert L3Audit in ScopedFields(b.fields, 4) <==> L3Audit in b.fields;
    }
  }

  // The configuration with one l3Audit section put in place of its own, or with none.
  function WithL3(config: Config, section: Option<Json>): Config {
    config.(fields := if section.Some? then config.fields[L3Audit := section.value] else config.fields - {L3Audit})
  }

  // The exception is real: whatever the rest of a configuration, two different
  // l3Audit sections agree at stages 5, 6 and 7 but not at stage 4.
  lemma ExceptionIsReal(config: Config, x: Option<Json>, y: Option<Json>)
    requires x != y
    ensures var a, b := WithL3(config, x), WithL3(config, y);
            && (forall stage | 5 <= stage <= 7 :: StageFingerprint(a, stage) == StageFingerprint(b, stage))
            && StageFingerprint(a, 4) != StageFingerprint(b, 4)
  {
    var a, b := WithL3(config, x), WithL3(config, y);
    assert Section(a.fields, Application) == Section(b.fields, Application);
    forall stage | 5 <= stage <= 7
      ensures ScopedFields(a.fields, stage) == ScopedFields(b.fields, stage)
    {
      assert forall f: Field | !f.L3Audit? :: f in a.fields <==> f in b.fields;
    }
    var p, q := ScopedFields(a.fields, 4), ScopedFields(b.fields, 4);
    assert L3Audit in p <==> x.Some?;
    assert L3Audit in q <==> y.Some?;
    if x.Some? && y.Some? { assert p[L3Audit] == x.value && q[L3Audit] == y.value; }
  }

  /****** What a model synchronisation makes stale ******/

  const MODELS := "models"

  predicate HasModels(config: Config) {
    && Application in config.fields && config.fields[Application].Obj? && MODELS in Section(config.fields, Application)
    && Platform in config.parameters && CONNECTIONS in config.parameters[Platform]
  }

  function Connections(config: Config): Json
    requires HasModels(config)
  {
    config.parameters[Platform][CONNECTIONS]
  }

  function Models(config: Config): Json
    requires HasModels(config)
  {
    Section(config.fields, Application)[MODELS]
  }

  // The two places reconcile writes to.
  function WithModels(config: Config, connections: Json, models: Json): Config
    requires HasModels(config)
  {
    Config(config.fields[Application := Obj(Section(config.fields, Application)[MODELS := models])],
           config.parameters[Platform := config.parameters[Platform][CONNECTIONS := connections]])
  }

  lemma FieldsStale(config: Config, connections: Json, models: Json, stage: nat)
    requires HasModels(config)
    ensures var next := WithModels(config, connections, models);
            ScopedFields(config.fields, stage) == ScopedFields(next.fields, stage) <==> stage < 6 || models == Models(config)
  {
    var next, application := WithModels(config, connections, models), Section(config.fields, Application);
    var was, now := ScopedFields(config.fields, stage), ScopedFields(next.fields, stage);
    assert application[MODELS := Models(config)] == application;
    assert application[MODELS := models][MODELS] == models;
    if stage < 6 {
      assert was == now;
    } else {
      assert was[Application] == now[Application] <==> models == Models(config);
    }
  }

  lemma ParametersStale(config: Config, connections: Json, models: Json, stage: nat)
    requires HasModels(config)
    ensures var next := WithModels(config, connections, models);
            ScopedParameters(config.parameters, stage) == ScopedParameters(next.parameters, stage)
            <==> stage < 4 || connections == Connections(config)
  {
    var next := WithModels(config, connections, models);
    var p, q := config.parameters[Platform], next.parameters[Platform];
    var was, now := ScopedParameters(config.parameters, stage), ScopedParameters(next.parameters, stage);
    assert p[CONNECTIONS := Connections(config)] == p;
    if stage < 4 {
      assert p - Hidden(Platform, stage) == q - Hidden(Platform, stage);
      assert was == now;
    } else if connections == Connections(config) {
      assert was == now;
    } else {
      assert CONNECTIONS !in Hidden(Platform, stage);
      assert (p - Hidden(Platform, stage))[CONNECTIONS] != (q - Hidden(Platform, stage))[CONNECTIONS];
      assert was[Platform] != now[Platform];
    }
  }

  lemma DerivedSame(config: Config, connections: Json, models: Json)
    requires HasModels(config)
    ensures var next := WithModels(config, connections, models);
            && WorkspaceName(next) == WorkspaceName(config)
            && AuthenticationMode(Section(next.fields, Application)) == AuthenticationMode(Section(config.fields, Application))
  {
    var next := WithModels(config, connections, models);
    assert Sub(Section(next.fields, Application), "authentication") == Sub(Section(config.fields, Application), "authentication");
  }

  // Of the stages the synchronisation examines it makes stale none, exactly 6 to 9 or
  // exactly 4 to 9.
  lemma StaleStages(config: Config, connections: Json, models: Json)
    requires HasModels(config)
    ensures var next := WithModels(config, connections, models);
            var stale := set stage: nat | 4 <= stage < 10 && StageFingerprint(config, stage) != StageFingerprint(next, stage);
            stale == if connections != Connections(config) then {4, 5, 6, 7, 8, 9} else if models != Models(config) then {6, 7, 8, 9} else {}
  {
    hide WithModels, Connections, Models, WorkspaceName, AuthenticationMode, ScopedFields, ScopedParameters, Section;
    DerivedSame(config, connections, models);
    forall stage: nat
      ensures StageFingerprint(config, stage) != StageFingerprint(WithModels(config, connections, models), stage) <==>
                (stage >= 4 && connections != Connections(config)) || (stage >= 6 && models != Models(config))
    {
      FieldsStale(config, connections, models, stage);
      ParametersStale(config, connections, models, stage);
    }
  }

  /****** Stages and their checks ******/

  predicate Greenfield(config: Config) {
    DeploymentMode in config.fields && config.fields[DeploymentMode] == Str("greenfield")
  }

  predicate Native(config: Config) {
    AuthenticationMode(Section(config.fields, Application)) == Str("native")
  }

  predicate Active(config: Config, stage: int) {
    0 <= stage < 10 && (Greenfield(config) ==> stage != 1) && (Native(config) ==> stage != 7)
  }

  // The active stages below a bound, in order.
  function ActiveBelow(config: Config, bound: nat): seq<int> {
    if bound == 0 then []
    else if Active(config, bound - 1) then ActiveBelow(config, bound - 1) + [bound - 1]
    else ActiveBelow(config, bound - 1)
  }

  // The checks of each stage.
  const CHECKS_0 := ["inventory", "backup_restore", "key_salt_recovery", "protocol_baseline"]
  const CHECKS_1 := ["legacy_health", "alerts_received", "rollback_snapshot"]
  const CHECKS_2 := ["network_capacity", "identity_owners", "pg_auth_ha", "l3_policy", "protocol_scope"]
  const CHECKS_3 := ["oidc_scope", "source_image_sbom_scan", "target_isolation"]
  const CHECKS_4 := ["private_dns_egress", "private_runner", "target_image_signature_sbom", "workload_identity", "private_ingress"]
  const CHECKS_5 := ["pg_migration_restore", "key_salt_decryption", "redis_entra", "csi_rotation"]
  const CHECKS_6 := ["replica_failure", "load_affinity", "capacity_limits", "no_legacy_db_writes"]
  const CHECKS_7 := ["tenant_negative_tests", "object_ownership", "admin_private", "required_protocols"]
  const CHECKS_8 := ["durable_audit_recovery", "audit_governance", "telemetry_received", "guardrail_scope"]
  const CHECKS_9 := ["enabled_what_if", "origin_tls_private_link", "pilot_regression", "rollback_rehearsal", "dual_owner_release"]

  function CheckTable(stage: nat): seq<string>
    requires stage < 10
  {
    [CHECKS_0, CHECKS_1, CHECKS_2, CHECKS_3, CHECKS_4, CHECKS_5, CHECKS_6, CHECKS_7, CHECKS_8, CHECKS_9][stage]
  }

  // The lists that take their place under the options of a configuration.
  const L3_CHECKS := [
    "native_spend_metadata", "l3_protocol_capture", "l3_delivery_recovery", "l3_query_hold", "l3_alerts",
    "native_api_route_isolation"]
  const OPERATOR_CHECKS := [
    "enabled_what_if", "origin_tls_private_link", "pilot_regression", "rollback_rehearsal", "single_operator_release"]
  const SCOPE_CHECKS := ["subscription_scope", "deployment_permissions", "private_runner", "domain_ownership"]
  const DATABASE_CHECKS := ["database_schema", "application_secret_recovery", "redis_entra", "csi_rotation"]
  const CAPACITY_CHECKS := ["replica_failure", "load_affinity", "capacity_limits", "target_database_scope"]
  const ACCESS_CHECKS := ["legacy_health", "alerts_received", "rollback_snapshot", "legacy_source_access"]
  const CONTENT_CHECKS := ["network_capacity", "identity_owners", "pg_auth_ha", "content_audit_policy", "protocol_scope"]

  function AuditChecks(observed: bool, native: bool): seq<string> {
    ["native_spend_logs", "native_audit_access", "native_retention_recovery",
     if observed then "telemetry_received" else "telemetry_disabled",
     if native then "native_api_route_isolation" else "guardrail_scope"]
  }

  // stage_checks of an active stage; `single` is the single-operator policy.
  function StageChecks(config: Config, single: bool, stage: nat): seq<string>
    requires stage < 10
  {
    var audited, l3 := ContentAudit in config.fields, L3Audit in config.fields;
    if stage == 8 && l3 then L3_CHECKS
    else if stage == 8 && audited then AuditChecks(Observability in config.fields, Native(config))
    else if stage == 9 && single then OPERATOR_CHECKS
    else if Greenfield(config) && stage == 0 then SCOPE_CHECKS
    else if Greenfield(config) && stage == 5 then DATABASE_CHECKS
    else if Greenfield(config) && stage == 6 then CAPACITY_CHECKS
    else if stage == 1 && LegacyAccess in config.fields then ACCESS_CHECKS
    else if stage == 2 && audited then CONTENT_CHECKS
    else CheckTable(stage)
  }

  /****** Accepting evidence ******/

  // A recorded hash: of a stage's content, of a whole configuration, or of neither.
  datatype Hash = OfStage(digest: Digest<Content>) | OfConfig(whole: Digest<Config>) | Unknown

  datatype Binding = FullConfig | StageConfig | NoBinding

  datatype Item =
    | NotARecord
    | Item(stage: int, environment: Json, binding: Binding, digest: Hash, revision: string, approvalMode: string,
           status: string, checks: seq<string>, approvedBy: seq<string>, observed: Option<int>, url: string, hashed: bool)

  // The approval policy of a configuration and what else validation depends on. Times
  // are seconds; an absent one stands for an unreadable or zoneless text.
  datatype Context = Context(
    config: Config, revision: string, single: bool, eligible: set<string>, now: int,
    uuid: string -> Option<string>, url: string -> bool)

  const WEEK := 604800
  const ZERO := "00000000-0000-0000-0000-000000000000"

  predicate IsRevision(s: string) {
    |s| == 40 && forall c | c in s :: IsDigit(c) || 'a' <= c <= 'f'
  }

  function ApprovalMode(ctx: Context): string {
    if ctx.single then "single-operator" else "dual"
  }

  function Required(ctx: Context): nat {
    if ctx.single then 1 else 2
  }

  function EnvironmentOf(config: Config): Json {
    if Environment in config.fields then config.fields[Environment] else Null
  }

  predicate Approved(ctx: Context, approvers: seq<string>) {
    && |approvers| == Required(ctx)
    && (forall a | a in approvers :: ctx.uuid(a).Some? && ctx.uuid(a).value != ZERO)
    && |set a | a in approvers && ctx.uuid(a).Some? :: ctx.uuid(a).value| == Required(ctx)
    && (ctx.eligible != {} ==> forall a | a in approvers :: ctx.uuid(a).Some? ==> ctx.uuid(a).value in ctx.eligible)
  }

  function ExpectedHash(config: Config, binding: Binding, stage: nat): Hash {
    if binding.StageConfig? then OfStage(StageFingerprint(config, stage)) else OfConfig(Digest(config))
  }

  // The tests one record has to pass, whatever else is in the list.
  predicate Accepted(ctx: Context, item: Item) {
    && item.Item? && Active(ctx.config, item.stage)
    && !item.binding.NoBinding? && item.digest == ExpectedHash(ctx.config, item.binding, item.stage)
    && item.environment == EnvironmentOf(ctx.config)
    && IsRevision(item.revision) && (ctx.single || item.revision == ctx.revision)
    && item.approvalMode == ApprovalMode(ctx) && item.status == "passed"
    && (set c | c in item.checks) == (set c | c in StageChecks(ctx.config, ctx.single, item.stage))
    && Approved(ctx, item.approvedBy)
    && item.observed.Some? && ctx.now - WEEK <= item.observed.value <= ctx.now
    && ctx.url(item.url) && item.hashed
  }

  function StagesOf(items: seq<Item>): set<int> {
    set item | item in items && item.Item? :: item.stage
  }

  predicate DistinctStages(items: seq<Item>) {
    forall i, j | 0 <= i < j < |items| :: items[i].Item? && items[j].Item? ==> items[i].stage != items[j].stage
  }

  // Evidence opens a stage when every record is accepted, none is doubled and no
  // earlier active stage is missing.
  predicate Opens(ctx: Context, evidence: seq<Item>, stage: int) {
    && (stage == 10 || Active(ctx.config, stage)) && IsRevision(ctx.revision)
    && (forall item | item in evidence :: Accepted(ctx, item)) && DistinctStages(evidence)
    && forall earlier | 0 <= earlier < stage && Active(ctx.config, earlier) :: earlier in StagesOf(evidence)
  }

  // validate_evidence.
  method ValidateEvidence(ctx: Context, evidence: seq<Item>, stage: int) returns (completed: Option<set<int>>)
    ensures completed.Some? <==> Opens(ctx, evidence, stage)
    ensures completed.Some? ==> completed.value == StagesOf(evidence)
  {
    hide Accepted, Active, IsRevision;
    if (stage != 10 && !Active(ctx.config, stage)) || !IsRevision(ctx.revision) { return None; }
    var done: set<int> := {};
    for i := 0 to |evidence|
      invariant done == StagesOf(evidence[..i])
      invariant (forall k | 0 <= k < i :: Accepted(ctx, evidence[k]) && evidence[k].Item?) && DistinctStages(evidence[..i])
    {
      var item := evidence[i];
      assert evidence[..i + 1] == evidence[..i] + [item];
      if item.NotARecord? || item.stage in done || !Accepted(ctx, item) {
        if item.Item? && Accepted(ctx, item) {
          var k :| 0 <= k < i && evidence[k].stage == item.stage;
        }
        AcceptedIsRecord(ctx, item);
        assert item in evidence;
        return None;
      }
      done := done + {item.stage};
    }
    assert evidence[..|evidence|] == evidence;
    if exists earlier | 0 <= earlier < stage :: Active(ctx.config, earlier) && earlier !in done { return None; }
    return Some(done);
  }

  lemma AcceptedIsRecord(ctx: Context, item: Item)
    ensures Accepted(ctx, item) ==> item.Item?
  {
  }
}
