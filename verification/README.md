# Verified models of the gateway migration workflows

These Dafny files model the plan-bound workflows that migrate an LLM gateway to Azure and prove what
their operators rely on: that an interrupted or repeated run does no harm, that every write stays
inside what was approved, and that the transformations in between lose and add nothing.
`dafny verify dfyconfig.toml` checks everything.

Each protocol is modelled twice and the two are tied together. A module gives a step relation over
the effective remote writes of the workflow (conditional writes, creations, deletions, and where
stated the edits of others) and proves its theorems by induction over all runs. A class then follows
the program method by method on its mutable state; every remote call may fail before or after it has
taken effect, and each method ensures that the history so far is a legal run that ends in the present
state. `reliable` switches the failures off and `shared` switches the edits of others on, which is how
"completes when nothing interferes" and "holds whatever others do" are stated. A fingerprint is an
injective constructor over what it is taken of, so comparing fingerprints is comparing contents.

| files | subject |
|---|---|
| `AuditWindow.dfy` | pausing and resuming two workloads behind a checkpoint |
| `Networks.dfy`, `AccessPolicy.dfy`, `JsonPatch.dfy`, `LegacyAccess.dfy` | IPv4 prefixes, source ranges, patches (sections 4 and 5 of RFC 6902) and the restrict/restore cycles |
| `DnsRuntime.dfy` | publishing and rolling back two DNS records with conditional writes (section 13.1 of RFC 9110) |
| `CertificateRuntime.dfy` | ACME issuance with a DNS-01 challenge (section 8.4 of RFC 8555) |
| `AdminCredentials.dfy` | one credential in two stores |
| `EntraAccess.dfy` | intended grants, paged reads and resumable granting |
| `ModelSyncCatalog.dfy`, `ModelSyncRuntime.dfy` | reconciling model mappings, rendering and applying them |
| `CustomerMigration.dfy`, `MigrationEvidence.dfy` | stage fingerprints, evidence and its ledger |
| `MergeConfig.dfy` | merging configuration trees and reporting changes |
| `Patterns.dfy`, `ApiProtocol.dfy`, `PrivateIngress.dfy`, `ApiWss.dfy`, `Domains.dfy`, `EdgeBinding.dfy` | regular expressions, admission rules, their update, the configured domain and the Front Door binding |
| `Common.dfy`, `Text.dfy` | shared values and string operations |

Where the code does not do what one might expect of it, the model follows the code and a lemma says
exactly when: `DnsRuntime.ForeignAdminEditIsOverwritten` with
`DnsRuntime.ForeignAdminEditIsOverwrittenIff`, `AccessPolicy.UnionOfHalvesIsRefused`
with `AccessPolicy.RestrictionAcceptedIff`, `CustomerMigration.ExceptionIsReal` with
`CustomerMigration.EarlierStagesAgree`, `MergeConfig.KindChangeIsUnreported` with
`MergeConfig.UnreportedIsEqual`, `MergeConfig.DottedKeysAreAmbiguous` and
`MergeConfig.EmptyKeysAreAmbiguous` with `MergeConfig.PrintedAlike`,
`EdgeBinding.CapitalDomainIsRefused` with `EdgeBinding.RenderedIsAcceptedWhen`, and
`EdgeBinding.BracedIdentifierIsRefused` with `EdgeBinding.BindsWhen`.

## Model

| member | source | states |
|---|---|---|
| AuditWindow.DesiredIsApproved | scripts/audit_window.py:109-116 | Editing the one field of a snapshotted spec, or of its paused variant, gives exactly the paused variant (pause) or the snapshotted spec including whether the field was present (resume). |
| AuditWindow.EditKeepsReview | scripts/audit_window.py:24-28 | The edit does not touch the service account that is checked before every step. |
| AuditWindow.SnapshotIsNeverRewritten | scripts/audit_window.py:35-48 | In every run, with foreign edits of the workloads, the checkpoint in force is, up to its phase, the snapshot taken when it was created: a paused value is never re-snapshotted as the original. |
| AuditWindow.WritesStayInsideTheSnapshot | scripts/audit_window.py:82-89 | In every run with foreign edits, a workload write replaces the snapshotted spec or its paused variant, on the same UID, by one of these two. |
| AuditWindow.InvHolds | scripts/audit_window.py:92-129 | In every state operators alone can reach: no window means the workloads are as found; a window holds their snapshot, each workload is in one of its two forms, phase paused implies both are paused, and a paused deployment implies a paused cron job. |
| AuditWindow.ResumeRestoresEverything | scripts/audit_window.py:125-128 | Any number of interrupted pauses and resumes that end with no window open leave both workloads exactly as they were. |
| AuditWindow.CheckpointTellsTheTruth | scripts/audit_window.py:51-55 | What a reader of a checkpoint may rely on in every reachable state, in terms of the workloads as they were found. |
| AuditWindow.ResumingPersists | scripts/audit_window.py:74-76 | Once a resume has begun, until the window is deleted its checkpoint does not change and no write pauses anything. |
| AuditWindow.AuditCluster.PlanWindow | scripts/audit_window.py:66-79 | The plan that is reviewed, or a refusal; planning writes nothing. |
| AuditWindow.AuditCluster.PatchTarget | scripts/audit_window.py:82-89 | At most the one conditional write, and none when the spec is already as desired. |
| AuditWindow.AuditCluster.SaveWindow | scripts/audit_window.py:58-63 | The phase is changed only on the checkpoint that was read, and nothing else is. |
| AuditWindow.AuditCluster.EditTargets | scripts/audit_window.py:104-117 | The loop in its two opposite orders reaches all paused or all original, and every intermediate stop is a legal state. |
| AuditWindow.AuditCluster.ExecuteWindow | scripts/audit_window.py:92-129 | Every attempt, wherever it stops, extends a legal run; an unapproved plan and a pause during a resume write nothing; completion means paused, or no window and the original workloads; an approved plan completes when nothing fails. |
| AuditWindow.AuditCluster.AssertPaused | scripts/audit_window.py:132-139 | Recovery is let in only under a paused window of its scope with both workloads paused. |
| Networks.PrintParse | scripts/legacy_access.py:20-22 | Parsing the printed form of a network gives the network back. |
| Networks.MasksReadBack | scripts/legacy_access.py:20 | A network written with its netmask, or short of the two ends with its hostmask, is parsed as the same network. |
| Networks.EndsAreSwapped | scripts/legacy_access.py:20 | At the two ends a hostmask is read as the netmask of the other end. |
| Networks.SubnetIsInclusion | scripts/legacy_access.py:89 | The prefix test for subnets is inclusion of the address sets. |
| AccessPolicy.SourceRanges | scripts/legacy_access.py:15-24 | The loop accepts exactly the lists of 1 to 64 allowed, canonical, distinct ranges and returns their sorted canonical texts. |
| AccessPolicy.SourceRangesStable | scripts/legacy_access.py:15-24 | Normalising twice is normalising once, and an address is inside the normalised list exactly when it is inside the requested one. |
| AccessPolicy.SourceRangesElements | scripts/legacy_access.py:17-24 | The normalised list holds the canonical text of each requested range and no other. |
| AccessPolicy.RestrictionNarrows | scripts/legacy_access.py:82-90 | For every address: admitted by the restricted value implies admitted by the previous one, an absent or empty one admitting everybody. |
| AccessPolicy.RestrictionAcceptedIff | scripts/legacy_access.py:85-90 | Against an existing policy a request is accepted exactly when each requested range lies inside one existing range. |
| AccessPolicy.UnionOfHalvesIsRefused | scripts/legacy_access.py:89 | A concrete request that broadens nothing and is refused all the same: covering by several existing ranges together does not count. |
| LegacyAccess.PatchReachesTheView | scripts/legacy_access.py:93-102 | Applying the patch and viewing the result gives exactly the desired view and keeps the rest, also without annotations; it fails exactly when an absent policy is to be removed. |
| LegacyAccess.OriginalIsTheFirstView | scripts/legacy_access.py:118-128 | Over any number of restrict and restore cycles, crashes and changing range lists, the checkpoint remembers the view before the very first restriction and the live view is that one or the current restriction, as the phase says. |
| LegacyAccess.InvHolds | scripts/legacy_access.py:105-132 | The invariant behind it: the recorded restriction is always the original narrowed to some requested list. |
| LegacyAccess.NeverBroader | scripts/legacy_access.py:82-90 | In every reachable state the live policy admits no address the first policy did not. |
| LegacyAccess.RecordedViews | scripts/legacy_access.py:122-123 | Foreign edits included, the restricted view in a checkpoint is its original with a policy put in. |
| LegacyAccess.LegacyCluster.PatchEntry | scripts/legacy_access.py:161-166 | The entry is written only as read, by UID and resource version, and success means the desired view. |
| LegacyAccess.LegacyCluster.AccessOperation | scripts/legacy_access.py:135-171 | Refused or unapproved plans write nothing; wherever an operation stops the history is a legal run; success means the desired view under the finished phase; an approved plan succeeds when nothing fails. |
| DnsRuntime.InvHolds | scripts/dns_runtime.py:116-128 | In every closed run with crashes: no record differs from its first value without a checkpoint holding that value, and each plane holds its before or its after value. |
| DnsRuntime.CheckpointIsFixed | scripts/dns_runtime.py:93-108 | The before and after values of a checkpoint never change. |
| DnsRuntime.RolledBackIsFinal | scripts/dns_runtime.py:105-106 | After a recorded rollback nothing is written any more and both records hold their first values. |
| DnsRuntime.ForeignAdminEditIsOverwrittenIff | scripts/dns_runtime.py:122-125 | When the admin record is edited by somebody else after planning, the edit is overwritten exactly when the API record had to be written first, because the re-read record is not compared with the checkpoint. |
| DnsRuntime.ForeignAdminEditIsOverwritten | scripts/dns_runtime.py:122-125 | The input: a legal run of a first publication that replaces an admin record which holds neither the value before nor the one to publish. |
| DnsRuntime.DnsZone.Write | scripts/dns_runtime.py:58-68 | A conditional write on the tag that was read changes exactly one record or nothing. |
| DnsRuntime.DnsZone.ChangeDns | scripts/dns_runtime.py:71-132 | Unapproved or refused plans, also for values outside the checkpoint, write nothing; success leaves both records as desired under the recorded phase; an approved plan succeeds when nothing fails; an admin write replaces a value outside the checkpoint only after an API write of the same attempt. |
| DnsRuntime.DnsZone.WritePlanes | scripts/dns_runtime.py:122-125 | The loop over the planes: every API write replaces the planned record, every admin write the planned one or, once the API record was written, the one read after that write; on success an admin record that differs from what is desired has been replaced. |
| CertificateRuntime.OrderedAtMostOnce | scripts/certificate_runtime.py:73-80 | Over all runs with crashes, lost acknowledgements and retries, no CSR is ordered twice. |
| CertificateRuntime.PersistedStatesProgress | scripts/certificate_runtime.py:67-118 | Persisted versions with one key are one issuance: same CSR, phases only forward, the order kept and an issued state final. |
| CertificateRuntime.InvHolds | scripts/certificate_runtime.py:67-118 | The invariant of all runs, among others that a saved PEM ends in the persisted key. |
| CertificateRuntime.RecordHoldsOnlyTheNamedValue | scripts/certificate_runtime.py:82-85 | With others editing the record, and removing our value from it, our validation value is in it only while the durable state names it, and once. |
| CertificateRuntime.ForeignValuesAreTheirs | scripts/certificate_runtime.py:37-53 | The values of others in the record are changed by their writes only. |
| CertificateRuntime.Workflow.Change | scripts/certificate_runtime.py:37-53 | Adding or removing exactly our value on condition that the record is as read; success means it is there or gone. |
| CertificateRuntime.Workflow.PutRecord | scripts/certificate_runtime.py:50-53 | The conditional PUT fails when the record has changed and otherwise installs the edited list. |
| CertificateRuntime.Workflow.PlaceOrder | scripts/certificate_runtime.py:75-80 | The ordering phase is saved before the one order is placed, and the order after it. |
| CertificateRuntime.Workflow.Finalize | scripts/certificate_runtime.py:111-114 | An issued state keeps everything but the phase and the PEM, whose key is the persisted one. |
| CertificateRuntime.Workflow.Issue | scripts/certificate_runtime.py:67-118 | A PEM is returned only with its state saved, ending in the persisted key and with nothing of ours left in the record; an uncertain order stops everything. |
| CertificateRuntime.Workflow.CertificateOperation | scripts/certificate_runtime.py:142-232 | One operation: unapproved plans write nothing, a published certificate is the issued one, and without failures an approved operation publishes. |
| AdminCredentials.StoresAgree | scripts/admin_credentials.py:136-156 | In every run of all actions with crashes between the stores: the current secret has its key in Entra with the recorded expiry, at most five managed keys and at most one orphan exist. |
| AdminCredentials.RemovalsAreSafe | scripts/admin_credentials.py:203-216 | A removed key was unknown to the Vault, or expired for a day and not current. |
| AdminCredentials.OtherKeysUntouched | scripts/admin_credentials.py:150 | Keys of the application this workflow did not create are never touched. |
| AdminCredentials.VersionsOnlyGrow | scripts/admin_credentials.py:88-93 | Vault versions are only ever appended. |
| AdminCredentials.RecoveryIsAlwaysPossible | scripts/admin_credentials.py:172 | Recovery can be planned in every reachable state, removes exactly the orphans and leaves none. |
| AdminCredentials.InterruptedInitializationNeedsRecovery | scripts/admin_credentials.py:44-56 | Without a current secret, initialization is accepted again exactly when there is no orphan. |
| AdminCredentials.Stores.CreateCredential | scripts/admin_credentials.py:182-189 | Success adds one key and one version that belong together. |
| AdminCredentials.Stores.InitializeCredentials | scripts/admin_credentials.py:68-100 | Only what is missing is created; a refused inspection or approval writes nothing. |
| AdminCredentials.Stores.RemoveKeys | scripts/admin_credentials.py:203-218 | The removal loops remove exactly the planned keys, re-reading before each, and change no version. |
| AdminCredentials.Stores.ManageCredentialLifecycle | scripts/admin_credentials.py:159-222 | The four actions with their exact final states; an unapproved plan writes nothing. |
| EntraAccess.IntentIsAsked | scripts/entra_access.py:16-43 | The intent holds exactly the role of each enabled binding and a consent for each of its clients, under canonical identifiers; it exists exactly when all of them are usable. |
| EntraAccess.IntentIsNarrow | scripts/entra_access.py:40 | Whatever the directory answers, consent is intended only for one named user and the invocation scope. |
| EntraAccess.AccessIntent | scripts/entra_access.py:16-43 | The accumulation loop computes the intent. |
| EntraAccess.CollectedIsAChain | scripts/entra_access.py:63-79 | A paged read returns the items of one chain of at most a hundred distinct pages of the same collection, in order, and at most ten thousand. |
| EntraAccess.Collection | scripts/entra_access.py:63-79 | The paging loop ends within its bound whatever the server answers, with that result. |
| EntraAccess.PostsAreApprovedAndNew | scripts/entra_access.py:51-61 | In every run a write posts a narrow document of the approved intent to its own path, grants nothing that is granted already, and the grants stay a duplicate-free part of the intent. |
| EntraAccess.EachGrantIsCreatedOnce | scripts/entra_access.py:119-155 | Without foreign edits no grant is created twice over any number of interrupted runs, and none that existed before. |
| EntraAccess.InvHolds | scripts/entra_access.py:109-116 | While an operation runs, what is granted and what is pending partition its intent. |
| EntraAccess.NothingIsLeft | scripts/entra_access.py:143-145 | Once all that was missing has been added the closing read finds nothing missing. |
| EntraAccess.GraphAccess.Request | scripts/entra_access.py:51-56 | A document is posted only to the path it was approved for. |
| EntraAccess.GraphAccess.Approve | scripts/entra_access.py:58-61 | The transport is opened for exactly the missing pairs, or refused when one of them is not narrow. |
| EntraAccess.GraphAccess.PostAll | scripts/entra_access.py:137-142 | A write loop creates exactly its documents, each once. |
| EntraAccess.GraphAccess.GrantAccess | scripts/entra_access.py:119-155 | Unapproved plans write nothing; a completed run has created exactly the planned difference and a new plan has nothing to create; an approved plan completes when nothing fails. |
| ModelSyncCatalog.ParseCatalog | scripts/model_sync_catalog.py:43-98 | The loops accept exactly the catalogs that name each subscription, account and exact mapping once, and return their accounts in order. |
| ModelSyncCatalog.CatalogIsDiscovered | scripts/model_sync_catalog.py:101-169 | Matches of a parsed catalog have distinct keys and one account each, as the results below need. |
| ModelSyncCatalog.Reconcile | scripts/model_sync_catalog.py:172-227 | The loops over mutable lists, alias and key sets compute the specified result, refusals included. |
| ModelSyncCatalog.LoopKeeps | scripts/model_sync_catalog.py:190-220 | Aliases, resource IDs, mapping keys and model IDs stay unique; existing ones never change; connections are only appended; the selected keys are those of the matches. |
| ModelSyncCatalog.ReconcileTwice | scripts/model_sync_catalog.py:172-227 | Idempotence under both policies, and replacing after merging equals replacing. |
| ModelSyncCatalog.ReconcileKeeps | scripts/model_sync_catalog.py:178-189 | The same for the whole operation: uniqueness, kept connections and IDs, and under merge every mapping in its place. |
| ModelSyncCatalog.ReconcileExactly | scripts/model_sync_catalog.py:201-225 | Each match is applied to exactly its previous mapping or a new one; merge leaves the unselected mappings as they were; replace yields exactly the selected keys in the order of the merged list. |
| ModelSyncCatalog.SelectedOrder | scripts/model_sync_catalog.py:221-225 | Replacing keeps the order: a subsequence at increasing positions. |
| ModelSyncCatalog.Reconciles | scripts/model_sync_catalog.py:226 | The result passes all starting checks again and represents every match. |
| ModelSyncRuntime.MatchesAreServed | scripts/model_configuration.py:146-158 | After a reconciliation every match is served by a rendered entry with its group, deployment, live endpoint, API version, base model, ID, options and model information. |
| ModelSyncRuntime.RenderAffinity | scripts/model_sync_runtime.py:179-185 | The two loops compute the new affinity table. |
| ModelSyncRuntime.AffinityGroups | scripts/model_sync_runtime.py:179-185 | Its keys are exactly the old ones minus the dropped groups plus the wanted ones; what stays keeps value and order, what is new gets the first value. |
| ModelSyncRuntime.RenderAffinities | scripts/model_sync_runtime.py:186 | No setting override can reach the affinity table. |
| ModelSyncRuntime.RenderFrame | scripts/model_sync_runtime.py:173-187 | Settings outside models, affinities and overrides are unchanged. |
| ModelSyncRuntime.AgreementIsPermutation | scripts/model_sync_runtime.py:154-162 | The live models agree exactly when, entry by entry equal in the sense of the language, they are a permutation of the configured ones and the overrides are in force. |
| ModelSyncRuntime.RenderIsFixed | scripts/model_sync_runtime.py:173-203 | Rendering the desired configuration against its own output gives it back, agrees with it and reports no change. |
| ModelSyncRuntime.OverlaidTwice | scripts/runtime_configuration.py:105-114 | The setting overlay is idempotent. |
| ModelSyncRuntime.VerifiedMeans | scripts/model_sync_runtime.py:235-249 | Exactly the deployments are accepted that differ from the approved one in the one volume name and, under an autoscaler, in a replica count within its bounds. |
| ModelSyncRuntime.Backend.Patch | scripts/model_sync_runtime.py:197-200 | Three tests and one replacement, together or not at all, on the approved state only. |
| ModelSyncRuntime.Backend.Apply | scripts/model_sync_runtime.py:252-296 | Whatever others change meanwhile and wherever it stops, the only write is the approved one on the approved state, pointing to an existing map with the rendered content; success means a verified deployment; with nothing interfering it succeeds exactly when the replica count is in bounds and the new map name is free or holds the content, or, for an unchanged runtime, the current map holds it. |
| CustomerMigration.ComputeStageFingerprint | scripts/customer_migration.py:149-187 | Dropping fields from a copy step by step computes the fingerprint of the scoped content. |
| CustomerMigration.SelectParameters | scripts/customer_migration.py:176-186 | The loop over the components selects and trims their parameters. |
| CustomerMigration.EarlierStagesAgree | scripts/customer_migration.py:149-187 | Equal fingerprints at a stage give equal ones at every earlier stage; only stage 4 under stages 5 to 7 is left open, and there they are equal exactly when the l3Audit sections are. |
| CustomerMigration.ExceptionIsReal | scripts/customer_migration.py:151-152 | In any configuration two different l3Audit sections, or one and none, agree at stages 5 to 7 and differ at stage 4. |
| CustomerMigration.StaleStages | local_execution/model_sync.py:137 | New connections make stale exactly stages 4 to 9, new models alone exactly 6 to 9, neither none. |
| CustomerMigration.ValidateEvidence | scripts/customer_migration.py:336-371 | The loop accepts exactly when every record is accepted, no stage is doubled and no earlier active stage is missing. |
| MigrationEvidence.LedgerIsExact | scripts/migration_evidence.py:54-82 | From any previous list, success leaves exactly the active stages up to the recorded one, each once and in order, every record accepted for its stage and the new one last. |
| MigrationEvidence.RecordingTruncates | scripts/migration_evidence.py:56-79 | Recording an earlier stage of a ledger again truncates it there. |
| MigrationEvidence.StaleRecordsAreRefused | scripts/customer_migration.py:348-353 | A ledger is only extended under a configuration with the same content for each stage recorded in it, and the same revision under dual approval. |
| MigrationEvidence.RecordingSucceeds | scripts/migration_evidence.py:78-81 | The closing validation of the whole list tests nothing but the approvals, the time and the reference of the new record. |
| MigrationEvidence.ConfirmedPasses | scripts/migration_evidence.py:30-51 | Whatever a confirmation returns passes every scope, check-set and observation test of recording. |
| MigrationEvidence.DraftIsConfirmable | scripts/migration_evidence.py:17-51 | A draft no older than a week, with all its checks selected and real notes, is confirmed by its operator. |
| MigrationEvidence.DraftIsPending | scripts/migration_evidence.py:17-27 | A draft itself never passes recording. |
| MigrationEvidence.ChecksAreListed | scripts/customer_migration.py:122-146 | Under every configuration and policy each stage has checks, each of them once and under a name without separators. |
| MigrationEvidence.PrintedChecklistIsSelected | scripts/migration_evidence.py:45-46 | The comma-separated checklist of any stage, pasted back, selects every check of the stage. |
| MigrationEvidence.PrintedDraftPasses | scripts/migration_evidence.py:17-51 | A recent draft with its printed checklist pasted back and real notes is confirmed by its operator, and what comes out passes recording. |
| MergeConfig.DeepMerge | local_execution/merge_config.py:54-60 | The mutating recursion computes the merged tree. |
| MergeConfig.MergeTwice | local_execution/merge_config.py:54-60 | Merging a fragment twice is merging it once. |
| MergeConfig.MergedAt | local_execution/merge_config.py:54-60 | Every lookup in the merged tree: the fragment where it decides, the target where the fragment ends, both merged where both are objects. |
| MergeConfig.Absorbed | local_execution/merge_config.py:54-60 | A fragment merged before a second one is absorbed when both are merged again. |
| MergeConfig.RemoveKeys | local_execution/merge_config.py:63-66 | The loop removes exactly the listed keys. |
| MergeConfig.ApplySection | local_execution/merge_config.py:143-151 | Removals, customer fragment and local fragment in order, or the refusal. |
| MergeConfig.SectionTwice | local_execution/merge_config.py:143-151 | Applying a section twice is applying it once. |
| MergeConfig.ChangedPaths | local_execution/merge_config.py:191-201 | The recursion lists exactly the reported paths, each once, in sorted key order, printed. |
| MergeConfig.NothingReported | local_execution/merge_config.py:191-201 | Nothing is reported exactly when the trees are equal in the sense of the language, where True, 1 and 1.0 are equal. |
| MergeConfig.UnreportedIsEqual | local_execution/merge_config.py:201 | An unreported pair of trees is equal exactly when every number kept its kind. |
| MergeConfig.KindChangeIsUnreported | local_execution/merge_config.py:201 | Replacing true by 1 changes the tree and is not reported. |
| MergeConfig.UnreportedAgree | local_execution/merge_config.py:191-201 | Lookups at paths not at, below or above a reported one agree. |
| MergeConfig.PrintedAlike | local_execution/merge_config.py:195 | Two paths are printed alike exactly when they have the same pieces: leading empty keys dropped, the other keys split at their dots. |
| MergeConfig.PrintedOnce | local_execution/merge_config.py:195 | Paths without empty or dotted keys are told apart by their text. |
| MergeConfig.DottedKeysAreAmbiguous | local_execution/merge_config.py:195 | One change of two values whose report names the same text twice, because of a dot in a key. |
| MergeConfig.EmptyKeysAreAmbiguous | local_execution/merge_config.py:195 | The same because of an empty key. |
| Patterns.WordIsPiece | scripts/api_protocol.py:24 | The expression for a word between separators finds it exactly when it is one of the separated pieces. |
| ApiProtocol.UriMatches | scripts/api_protocol.py:14 | On a well-formed address the expression accepts exactly the two Responses paths, with or without authority and query. |
| ApiProtocol.PassesIsGate | scripts/api_protocol.py:4-31 | For every request the four rules let it through exactly when it is POST, or GET on a Responses path with Upgrade websocket and an upgrade token in Connection. |
| PrivateIngress.NativeAdmits | scripts/private_ingress.py:21-39 | What the printed rule of each plane admits, in terms of host, protocol and Front Door. |
| PrivateIngress.ProtocolsAdmit | scripts/private_ingress.py:22-29 | The protocol part: POST on the six paths or a websocket handshake. |
| PrivateIngress.AdmittedPasses | scripts/private_ingress.py:21-32 | Every request the API rule admits passes the firewall. |
| PrivateIngress.GatesAgreeOnGet | scripts/private_ingress.py:24-28 | On GET for its host through the bound Front Door both gates agree. |
| ApiWss.NormalizedRule | local_execution/api_wss.py:18-33 | Dropping fields from a copy computes the normal spelling. |
| ApiWss.RuleMeansTheSame | local_execution/api_wss.py:18-33 | Normalising does not change what a rule blocks. |
| ApiWss.DesiredIsFixed | local_execution/api_wss.py:36-71 | The installed rules are accepted again and unchanged, with the same rate rule and settings. |
| ApiWss.UpdateOnlyAdmitsHandshakes | local_execution/api_wss.py:57-65 | From either reviewed baseline the update blocks nothing that passed, lets through exactly the gate, and adds only websocket handshakes. |
| Domains.NormalWhen | scripts/render_stage7_domain.py:18 | A domain is in normal form exactly when it has no capital, no blank at either end and no dot at its end. |
| Domains.AcceptedIsPlain | scripts/render_stage7_domain.py:17-33 | What the host check accepts consists of label characters and dots, is in normal form and is accepted again unchanged; the configured text cannot break out of a rule. |
| Domains.CapitalIsValidated | scripts/customer_migration.py:289-290 | The domain with a capital letter passes the placeholder and the host check. |
| EdgeBinding.ReadsBack | scripts/edge_binding.py:216 | Extracting the ID from a printed rule of either plane returns exactly the printed ID, or none. |
| EdgeBinding.AcceptsExactlyPrinted | scripts/edge_binding.py:202-224 | The state check accepts exactly the printed business and health rules on documents that are otherwise as reviewed, and reports the ID that was printed. |
| EdgeBinding.BindsWhen | scripts/edge_binding.py:275-296 | When binding succeeds; an established ID is neither dropped nor swapped; an identifier in another notation is refused because it cannot be read back. |
| EdgeBinding.BracedIdentifierIsRefused | scripts/edge_binding.py:287-295 | The input: an identifier in braces is refused on every unbound gateway, and accepted without them. |
| EdgeBinding.BindTwice | scripts/edge_binding.py:275-296 | Binding again with the same identifier changes nothing. |
| EdgeBinding.PreserveKeepsRoutes | scripts/private_ingress.py:104-130 | Rendering again and preserving always keeps the ID of the live gateway; it gives its rules and route digest, and passes the state check again, exactly when the configured domain is in normal form. |
| EdgeBinding.PreserveIsBinding | scripts/private_ingress.py:104-130 | When a rendered gateway can be bound, and that binding it then equals rendering it with its binding preserved. |
| EdgeBinding.RenderedIsAcceptedWhen | scripts/edge_binding.py:218-224 | A gateway rendered for an accepted domain passes the state check exactly when the configured domain is in normal form and its documents are otherwise as reviewed; its health rule is printed and compared too. |
| EdgeBinding.NormalisedIsAccepted | scripts/private_ingress.py:136 | With the normal form configured instead the same gateway is rendered, and it passes when its documents are otherwise as reviewed. |
| EdgeBinding.CapitalDomainIsRefused | scripts/edge_binding.py:218-224 | The input: a domain with a capital letter that validation accepts; its gateway is rendered and refused whatever else it holds. |
| EdgeBinding.BoundDeploymentTrusts | scripts/edge_binding.py:32-42 | A bound proxy trusts what it trusted before, or else the identifier, and binding again changes nothing. |
| EdgeBinding.PreserveBinding | scripts/edge_binding.py:45-57 | The loop edits each rendered document by its live counterpart, or refuses. |
| EdgeBinding.PreservedTrusts | scripts/edge_binding.py:52-56 | A re-rendered proxy trusts the Front Door its live counterpart trusts. |

## Left out

- Azure CLI, kubectl, Graph, Key Vault, ACME and DNS transport: only the effect of a call, its failure and its lost acknowledgement are modelled.
- SHA-256 and JSON or YAML text: fingerprints are injective constructors, and content-derived names are arbitrary functions without any freedom from collisions.
- X.509: a certificate check is an arbitrary outcome, and only the key at the end of a PEM is kept.
- Clocks, UUIDs, endpoint normalisation, UUID and URL syntax and the literal option checks are parameters; the results hold for all of them.
- Two operators at the same moment: the code does not serialise them, so runs interleave operators only between calls that the conditional writes protect.
- Foreign edits during a legacy access operation: they are modelled between operations; during one the resource version of the patch refuses them.
- Comparison of True with 1 and of 1 with 1.0 in the protocol checks: only the merge and the comparison with the baseline model it.
- IPv6 ranges in an existing legacy policy: its texts are IPv4 networks, with a prefix length or a mask.
- The literal checks of services, ingresses, manifests, firewall policies, edge outputs and directory properties: single branches that a reading settles; they appear as one predicate where a result depends on them.
- Order of set iteration and of sorted fingerprints: removals, posts and component loops take their elements in any order.
- Placeholder replacement, derived values and the choice of stage options in the configuration merge: text substitution whose remainder the operation lists for review; sections and their merging are modelled without it.
- Eventual consistency of directory reads: a read shows what has been granted; the page texts of one collection do not change while they are read.
- Repeated header fields and percent-encoding of paths: a header has one value and a path is compared as written.
- Cross-network reachability checks, rollout waiting and the digest of mounted files in the pods: they are the failures of `ModelSyncRuntime.Backend.Apply`.
- Applying the bound gateways plane by plane in the edge workflow: each plane's documents are modelled, the two patches of a plane are not.
- Unicode blanks and case: stripping, lowering and upper-casing are modelled for ASCII.
- Database grants, image supply chain, backup and restore commands, diagnostics and argument parsing: plumbing without a property that spans calls.
