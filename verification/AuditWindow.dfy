// The audit maintenance window: a restartable pause and resume of two workloads,
// guarded by a durable checkpoint and JSON Patch `test` operations.
module AuditWindow {
  import opened Common

  /****** Workloads and their snapshot ******/

  datatype Kind = Deployment | CronJob

  type Spec = map<string, Json>

  datatype Workload = Workload(uid: string, spec: Spec)

  datatype Workloads = Workloads(deployment: Workload, cronjob: Workload) {
    function Of(kind: Kind): Workload {
      if kind.Deployment? then deployment else cronjob
    }

    function With(kind: Kind, spec: Spec): Workloads {
      if kind.Deployment? then this.(deployment := deployment.(spec := spec))
      else this.(cronjob := cronjob.(spec := spec))
    }
  }

  function Field(kind: Kind): string {
    if kind.Deployment? then "replicas" else "suspend"
  }

  function PausedValue(kind: Kind): Json {
    if kind.Deployment? then Int(0) else Bool(true)
  }

  function DefaultValue(kind: Kind): Json {
    if kind.Deployment? then Int(1) else Bool(false)
  }

  function PausedSpec(kind: Kind, spec: Spec): Spec {
    spec[Field(kind) := PausedValue(kind)]
  }

  function AccountPath(kind: Kind): seq<string> {
    if kind.Deployment? then ["template", "spec", "serviceAccountName"]
    else ["jobTemplate", "spec", "template", "spec", "serviceAccountName"]
  }

  function Account(kind: Kind): string {
    if kind.Deployment? then "llm-api-proxy" else "l3-retention"
  }

  // Both workloads run under the expected service accounts.
  predicate Reviewed(w: Workloads) {
    forall kind: Kind :: At(Obj(w.Of(kind).spec), AccountPath(kind)) == Some(Str(Account(kind)))
  }

  datatype Saved = Saved(
    uid: string, original: Digest<Spec>, paused: Digest<Spec>, fieldPresent: bool, originalValue: Json)

  datatype Phase = Pausing | Paused | Resuming

  datatype Window = Window(id: string, scope: string, phase: Phase, deployment: Saved, cronjob: Saved) {
    function Of(kind: Kind): Saved {
      if kind.Deployment? then deployment else cronjob
    }
  }

  // A window can only be opened over a writer that runs between 1 and 32 replicas.
  predicate Snapshotable(w: Workloads) {
    var spec := w.deployment.spec;
    var replicas := if "replicas" in spec then spec["replicas"] else Int(1);
    replicas.Int? && 1 <= replicas.number <= 32
  }

  function SnapshotOne(kind: Kind, w: Workload): Saved {
    Saved(w.uid, Digest(w.spec), Digest(PausedSpec(kind, w.spec)), Field(kind) in w.spec,
          if Field(kind) in w.spec then w.spec[Field(kind)] else DefaultValue(kind))
  }

  function Snapshot(id: string, scope: string, w: Workloads): Window {
    Window(id, scope, Pausing, SnapshotOne(Deployment, w.deployment), SnapshotOne(CronJob, w.cronjob))
  }

  // The live workloads are the ones snapshotted, each in its original or its paused form.
  predicate Verified(w: Workloads, window: Window) {
    forall kind: Kind ::
      && w.Of(kind).uid == window.Of(kind).uid
      && Digest(w.Of(kind).spec) in {window.Of(kind).original, window.Of(kind).paused}
  }

  predicate AllPaused(w: Workloads, window: Window) {
    forall kind: Kind :: Digest(w.Of(kind).spec) == window.Of(kind).paused
  }

  predicate AllOriginal(w: Workloads, window: Window) {
    forall kind: Kind :: Digest(w.Of(kind).spec) == window.Of(kind).original
  }

  datatype Action = AuditPause | AuditResume

  // The edit execute_window makes to the spec it has just read.
  function Desired(kind: Kind, action: Action, current: Spec, saved: Saved): Spec {
    if action.AuditPause? then current[Field(kind) := PausedValue(kind)]
    else if saved.fieldPresent then current[Field(kind) := saved.originalValue]
    else current - {Field(kind)}
  }

  // The reviewed service account sits outside the edited field.
  lemma EditKeepsReview(w: Workloads, kind: Kind, desired: Spec, action: Action, current: Spec, saved: Saved)
    requires Reviewed(w) && current == w.Of(kind).spec && desired == Desired(kind, action, current, saved)
    ensures Reviewed(w.With(kind, desired))
  {
    forall k: Kind
      ensures At(Obj(w.With(kind, desired).Of(k).spec), AccountPath(k)) == Some(Str(Account(k)))
    {
      var path := AccountPath(k);
      assert At(Obj(w.Of(k).spec), path) == Some(Str(Account(k)));
      assert k == kind ==> path[0] in desired && desired[path[0]] == current[path[0]];
    }
  }

  // Editing one field of an approved spec lands exactly on the approved target,
  // including whether the field was present at all.
  lemma DesiredIsApproved(kind: Kind, action: Action, w: Workload, current: Spec)
    requires current in {w.spec, PausedSpec(kind, w.spec)}
    ensures Desired(kind, action, current, SnapshotOne(kind, w)) ==
            if action.AuditPause? then PausedSpec(kind, w.spec) else w.spec
  {
    var result := Desired(kind, action, current, SnapshotOne(kind, w));
    var target := if action.AuditPause? then PausedSpec(kind, w.spec) else w.spec;
    assert result.Keys == target.Keys;
    assert forall key | key in target :: result[key] == target[key];
  }

  /****** The protocol as a relation over its remote effects ******/

  datatype Checkpoint = Checkpoint(uid: string, window: Window)

  datatype World = World(workloads: Workloads, checkpoint: Option<Checkpoint>)

  // One effective remote write. Create carries the workloads its snapshot was
  // taken from; Foreign is any edit by somebody else to the workloads.
  datatype Event =
    | Create(uid: string, id: string, scope: string, observed: Workloads)
    | Mark(phase: Phase)
    | Write(kind: Kind, desired: Spec)
    | Delete
    | Foreign(workloads: Workloads)

  function Effect(w: World, e: Event): World {
    match e
    case Create(uid, id, scope, observed) => w.(checkpoint := Some(Checkpoint(uid, Snapshot(id, scope, observed))))
    case Mark(phase) =>
      if w.checkpoint.None? then w
      else w.(checkpoint := Some(w.checkpoint.value.(window := w.checkpoint.value.window.(phase := phase))))
    case Write(kind, desired) => w.(workloads := w.workloads.With(kind, desired))
    case Delete => w.(checkpoint := None)
    case Foreign(workloads) => w.(workloads := workloads)
  }

  // What the operator may do to the world. `shared` says that others edit the
  // workloads too; without them every guard is about the live state.
  predicate Legal(w: World, e: Event, shared: bool) {
    match e
    case Create(uid, id, scope, observed) =>
      w.checkpoint.None? && Snapshotable(observed) && (!shared ==> observed == w.workloads)
    case Foreign(_) => shared
    case _ => w.checkpoint.Some? && LegalUnder(w.workloads, w.checkpoint.value.window, e, shared)
  }

  predicate LegalUnder(live: Workloads, window: Window, e: Event, shared: bool)
    requires e.Mark? || e.Write? || e.Delete?
  {
    match e
    case Mark(phase) =>
      || phase == Resuming
      || (phase == Paused && window.phase != Resuming && (!shared ==> AllPaused(live, window)))
    case Write(kind, desired) =>
      && live.Of(kind).uid == window.Of(kind).uid
      && Digest(live.Of(kind).spec) in {window.Of(kind).original, window.Of(kind).paused}
      && (if window.phase == Resuming then
            && Digest(desired) == window.Of(kind).original
            && (!shared && kind == CronJob ==> Digest(live.deployment.spec) == window.deployment.original)
          else
            && Digest(desired) == window.Of(kind).paused
            && (!shared && kind == Deployment ==> Digest(live.cronjob.spec) == window.cronjob.paused))
    case Delete => window.phase == Resuming && (!shared ==> AllOriginal(live, window))
  }

  function After(w: World, events: seq<Event>): World {
    if events == [] then w else Effect(After(w, events[..|events| - 1]), events[|events| - 1])
  }

  // A run of any number of operators, one at a time, each of which may have
  // stopped after any of its remote calls.
  ghost predicate Run(w: World, events: seq<Event>, shared: bool) {
    w.checkpoint.None? && forall i | 0 <= i < |events| :: LegalAt(w, events, i, shared)
  }

  ghost predicate LegalAt(w: World, events: seq<Event>, i: nat, shared: bool)
    requires i < |events|
  {
    Legal(After(w, events[..i]), events[i], shared)
  }

  lemma Extend(w: World, events: seq<Event>, e: Event, shared: bool)
    requires Run(w, events, shared) && Legal(After(w, events), e, shared)
    ensures Run(w, events + [e], shared)
    ensures After(w, events + [e]) == Effect(After(w, events), e)
  {
    var longer := events + [e];
    assert longer[..|events|] == events;
    forall i | 0 <= i < |longer|
      ensures LegalAt(w, longer, i, shared)
    {
      assert i < |events| ==> longer[..i] == events[..i] && LegalAt(w, events, i, shared);
    }
  }

  lemma RunPrefix(w: World, events: seq<Event>, n: nat, shared: bool)
    requires Run(w, events, shared) && n <= |events|
    ensures Run(w, events[..n], shared)
  {
    forall i | 0 <= i < n
      ensures LegalAt(w, events[..n], i, shared)
    {
      assert events[..n][..i] == events[..i] && LegalAt(w, events, i, shared);
    }
  }

  /****** Safety with foreign edits ******/

  // The window in force is, up to its phase, a snapshot of some workloads.
  ghost predicate FromSnapshot(window: Window, observed: Workloads) {
    Snapshotable(observed) && window.(phase := Pausing) == Snapshot(window.id, window.scope, observed)
  }

  // The workloads the window in force was opened over.
  function Source(events: seq<Event>): Option<Workloads> {
    if events == [] then None
    else
      var last := events[|events| - 1];
      if last.Create? then Some(last.observed)
      else if last.Delete? then None
      else Source(events[..|events| - 1])
  }

  // In every run, foreign edits included, the snapshot is the one taken when the
  // window was created: marking a phase or writing a workload never rewrites it.
  lemma {:induction false} SnapshotIsNeverRewritten(w: World, events: seq<Event>, shared: bool)
    requires Run(w, events, shared)
    ensures var now := After(w, events);
            && (now.checkpoint.None? <==> Source(events).None?)
            && (now.checkpoint.Some? ==> FromSnapshot(now.checkpoint.value.window, Source(events).value))
  {
    if events != [] {
      var before := events[..|events| - 1];
      RunPrefix(w, events, |before|, shared);
      SnapshotIsNeverRewritten(w, before, shared);
      assert LegalAt(w, events, |before|, shared);
    }
  }

  // Whatever others do to the workloads, a write replaces a spec that is the
  // snapshotted one or its paused variant, on the snapshotted object, and puts the
  // snapshotted one or its paused variant in its place.
  lemma WritesStayInsideTheSnapshot(w: World, events: seq<Event>, i: nat, shared: bool)
    requires Run(w, events, shared) && i < |events| && events[i].Write?
    ensures var live := After(w, events[..i]).workloads.Of(events[i].kind);
            && Source(events[..i]).Some?
            && var origin := Source(events[..i]).value.Of(events[i].kind);
            && live.uid == origin.uid
            && live.spec in {origin.spec, PausedSpec(events[i].kind, origin.spec)}
            && events[i].desired in {origin.spec, PausedSpec(events[i].kind, origin.spec)}
  {
    RunPrefix(w, events, i, shared);
    SnapshotIsNeverRewritten(w, events[..i], shared);
    assert LegalAt(w, events, i, shared);
  }

  /****** Safety without foreign edits ******/

  // The invariant of every reachable state when only operators touch the cluster.
  ghost predicate Inv(start: Workloads, now: World) {
    if now.checkpoint.None? then now.workloads == start
    else
      var window := now.checkpoint.value.window;
      && FromSnapshot(window, start)
      && Verified(now.workloads, window)
      && (window.phase == Paused ==> AllPaused(now.workloads, window))
      && (Digest(now.workloads.deployment.spec) == window.deployment.paused ==>
            Digest(now.workloads.cronjob.spec) == window.cronjob.paused)
  }

  lemma PausedDiffers(w: Workloads)
    requires Snapshotable(w)
    ensures PausedSpec(Deployment, w.deployment.spec) != w.deployment.spec
  {
    assert PausedSpec(Deployment, w.deployment.spec)["replicas"] == Int(0);
  }

  lemma InvKept(start: Workloads, now: World, e: Event)
    requires Inv(start, now) && Legal(now, e, false)
    ensures Inv(start, Effect(now, e))
  {
    if e.Create? {
      PausedDiffers(start);
    } else if e.Delete? {
      var window := now.checkpoint.value.window;
      assert forall kind: Kind :: now.workloads.Of(kind).spec == start.Of(kind).spec by {
        assert AllOriginal(now.workloads, window);
      }
      assert now.workloads.Of(Deployment) == start.Of(Deployment);
      assert now.workloads.Of(CronJob) == start.Of(CronJob);
    } else {
      PausedDiffers(start);
      var live, window := now.workloads, now.checkpoint.value.window;
      var after := Effect(now, e);
      var window' := after.checkpoint.value.window;
      assert window'.Of(Deployment) == window.Of(Deployment) && window'.Of(CronJob) == window.Of(CronJob);
      if e.Write? {
        var other := if e.kind == Deployment then CronJob else Deployment;
        assert after.workloads.Of(other) == live.Of(other);
        assert after.workloads.Of(e.kind) == Workload(live.Of(e.kind).uid, e.desired);
        assert window.phase == Paused ==> AllPaused(live, window);
      }
    }
  }

  lemma {:induction false} InvHolds(w: World, events: seq<Event>)
    requires Run(w, events, false)
    ensures Inv(w.workloads, After(w, events))
  {
    if events != [] {
      var before := events[..|events| - 1];
      RunPrefix(w, events, |before|, false);
      InvHolds(w, before);
      assert LegalAt(w, events, |before|, false);
      InvKept(w.workloads, After(w, before), events[|before|]);
    }
  }

  // Any number of interrupted pauses and resumes that end with no window open
  // leave both workloads exactly as they were found.
  lemma ResumeRestoresEverything(w: World, events: seq<Event>)
    requires Run(w, events, false) && After(w, events).checkpoint.None?
    ensures After(w, events).workloads == w.workloads
  {
    InvHolds(w, events);
  }

  // Everything a reader of the checkpoint may rely on in a reachable state.
  lemma CheckpointTellsTheTruth(w: World, events: seq<Event>)
    requires Run(w, events, false) && After(w, events).checkpoint.Some?
    ensures var now := After(w, events);
            var window := now.checkpoint.value.window;
            && FromSnapshot(window, w.workloads)
            && Verified(now.workloads, window)
            && (window.phase == Paused ==> AllPaused(now.workloads, window))
            && (now.workloads.deployment.spec != w.workloads.deployment.spec ==>
                  now.workloads.cronjob.spec == PausedSpec(CronJob, w.workloads.cronjob.spec))
  {
    InvHolds(w, events);
    var now := After(w, events);
    assert Digest(now.workloads.Of(Deployment).spec)
           in {now.checkpoint.value.window.Of(Deployment).original, now.checkpoint.value.window.Of(Deployment).paused};
  }

  // Once a resume has begun, only the deletion of the window ends it: no write
  // pauses anything and the phase does not go back.
  lemma {:induction false} ResumingPersists(w: World, events: seq<Event>, i: nat, j: nat, shared: bool)
    requires Run(w, events, shared) && i <= j <= |events|
    requires var at := After(w, events[..i]); at.checkpoint.Some? && at.checkpoint.value.window.phase == Resuming
    requires forall k | i <= k < j :: !events[k].Delete?
    ensures After(w, events[..j]).checkpoint == After(w, events[..i]).checkpoint
    ensures forall k | i <= k < j && events[k].Write? ::
              Digest(events[k].desired) == After(w, events[..i]).checkpoint.value.window.Of(events[k].kind).original
  {
    if i < j {
      ResumingPersists(w, events, i, j - 1, shared);
      assert LegalAt(w, events, j - 1, shared);
      assert events[..j][..j - 1] == events[..j - 1];
    }
  }

  /****** The operator ******/

  // The reviewed plan. A window that does not exist yet has no id.
  datatype Plan = Plan(
    action: Action, window: Window, checkpointUid: Option<string>,
    deployment: Digest<Spec>, cronjob: Digest<Spec>)

  // What plan_window returns for the state it reads, or None when it refuses.
  function PlanOf(w: World, scope: string, action: Action): Option<Plan> {
    var live := w.workloads;
    if !Reviewed(live) then None
    else if w.checkpoint.None? then
      if action.AuditResume? || !Snapshotable(live) then None
      else Some(Plan(action, Snapshot("", scope, live), None, Digest(live.deployment.spec), Digest(live.cronjob.spec)))
    else
      var Checkpoint(uid, window) := w.checkpoint.value;
      if window.scope != scope || (action.AuditPause? && window.phase.Resuming?) || !Verified(live, window) then None
      else Some(Plan(action, window, Some(uid), Digest(live.deployment.spec), Digest(live.cronjob.spec)))
  }

  // The operator's own effects, in order.
  function Own(events: seq<Event>): seq<Event> {
    if events == [] then []
    else
      var last := events[|events| - 1];
      Own(events[..|events| - 1]) + if last.Foreign? then [] else [last]
  }

  datatype Outcome = Completed(windowId: string) | Stopped

  // The cluster as one operator at a time drives it. Every remote call may be
  // interrupted before it takes effect, or after it did and before its
  // acknowledgement arrives, unless the connection is `reliable`; `shared` lets
  // others edit the workloads as well.
  class AuditCluster {
    const shared: bool
    const reliable: bool
    var workloads: Workloads
    var checkpoint: Option<Checkpoint>
    ghost const start: World
    ghost var events: seq<Event>

    ghost function Now(): World
      reads this
    {
      World(workloads, checkpoint)
    }

    // The history is a legal run that ends in the present state.
    ghost predicate Valid()
      reads this
    {
      Run(start, events, shared) && After(start, events) == Now()
    }

    constructor (workloads: Workloads, shared: bool, reliable: bool)
      ensures Valid() && events == [] && checkpoint.None?
      ensures this.workloads == workloads && this.shared == shared && this.reliable == reliable
    {
      this.shared, this.reliable, this.workloads, this.checkpoint := shared, reliable, workloads, None;
      this.start, this.events := World(workloads, None), [];
    }

    // A call that is interrupted, or a wait that times out.
    method Fault() returns (failed: bool)
      ensures reliable ==> !failed
    {
      failed := *;
      if reliable { failed := false; }
    }

    method Commit(e: Event)
      requires Valid() && Legal(Now(), e, shared)
      modifies this
      ensures Valid() && events == old(events) + [e] && Now() == Effect(old(Now()), e)
      ensures Own(events) == Own(old(events)) + if e.Foreign? then [] else [e]
    {
      Extend(start, events, e, shared);
      assert (events + [e])[..|events|] == events;
      var next := Effect(World(workloads, checkpoint), e);
      workloads, checkpoint, events := next.workloads, next.checkpoint, events + [e];
    }

    // Others may edit the workloads before any read or conditional write.
    method Interfere()
      requires Valid()
      modifies this
      ensures Valid() && old(events) <= events && Own(events) == Own(old(events))
      ensures checkpoint == old(checkpoint)
      ensures !shared ==> Now() == old(Now()) && events == old(events)
    {
      if shared {
        var edited: Workloads := *;
        Commit(Foreign(edited));
      }
    }

    method TargetState() returns (resources: Option<Workloads>)
      requires Valid()
      modifies this
      ensures Valid() && old(events) <= events && Own(events) == Own(old(events))
      ensures checkpoint == old(checkpoint)
      ensures !shared ==> Now() == old(Now()) && events == old(events)
      ensures resources.Some? ==> Reviewed(resources.value) && (!shared ==> resources.value == workloads)
      ensures !shared && resources.None? ==> !Reviewed(workloads)
    {
      Interfere();
      var deployment := workloads.deployment;
      Interfere();
      var cronjob := workloads.cronjob;
      var found := Workloads(deployment, cronjob);
      if At(Obj(found.Of(Deployment).spec), AccountPath(Deployment)) != Some(Str(Account(Deployment))) {
        return None;
      }
      if At(Obj(found.Of(CronJob).spec), AccountPath(CronJob)) != Some(Str(Account(CronJob))) {
        return None;
      }
      return Some(found);
    }

    // `test /metadata/uid`, `test /spec`, `replace /spec` (RFC 6902, sections 4.6 and 5).
    method PatchSpec(kind: Kind, uid: string, tested: Spec, desired: Spec) returns (ok: bool)
      requires Valid()
      requires forall live: Workloads ::
                 live.Of(kind) == Workload(uid, tested) && (!shared ==> live == workloads) ==>
                   Legal(World(live, checkpoint), Write(kind, desired), shared)
      modifies this
      ensures Valid() && old(events) <= events && checkpoint == old(checkpoint)
      ensures ok ==> Own(events) == Own(old(events)) + [Write(kind, desired)]
      ensures reliable && !shared && old(workloads).Of(kind) == Workload(uid, tested) ==> ok
      ensures !ok ==> Own(events) in {Own(old(events)), Own(old(events)) + [Write(kind, desired)]}
      ensures ok && !shared ==> workloads == old(workloads).With(kind, desired)
    {
      Interfere();
      if workloads.Of(kind) != Workload(uid, tested) { return false; }
      var interrupted := Fault();
      if interrupted { return false; }
      Commit(Write(kind, desired));
      var unconfirmed := Fault();
      if unconfirmed { return false; }
      return true;
    }

    method PatchTarget(kind: Kind, current: Workload, desired: Spec) returns (ok: bool)
      requires Valid()
      requires forall live: Workloads ::
                 live.Of(kind) == current && (!shared ==> live == workloads) ==>
                   Legal(World(live, checkpoint), Write(kind, desired), shared)
      requires !shared ==> workloads.Of(kind) == current
      modifies this
      ensures Valid() && old(events) <= events && checkpoint == old(checkpoint)
      ensures Own(events) in {Own(old(events)), Own(old(events)) + [Write(kind, desired)]}
      ensures reliable && !shared ==> ok
      ensures ok && !shared ==> workloads == old(workloads).With(kind, desired)
    {
      if current.spec == desired { return true; }
      ok := PatchSpec(kind, current.uid, current.spec, desired);
    }

    // `test` on the checkpoint's uid and data, then replace its phase.
    method SaveWindow(expected: Checkpoint, phase: Phase) returns (ok: bool)
      requires Valid()
      requires checkpoint == Some(expected) ==> Legal(Now(), Mark(phase), shared)
      modifies this
      ensures Valid() && old(events) <= events && workloads == old(workloads)
      ensures ok ==> old(checkpoint) == Some(expected) && Now() == Effect(old(Now()), Mark(phase))
      ensures !ok ==> Now() in {old(Now()), Effect(old(Now()), Mark(phase))}
      ensures reliable && old(checkpoint) == Some(expected) ==> ok
    {
      if checkpoint != Some(expected) { return false; }
      var interrupted := Fault();
      if interrupted { return false; }
      Commit(Mark(phase));
      var unconfirmed := Fault();
      if unconfirmed { return false; }
      return true;
    }

    method PlanWindow(scope: string, action: Action) returns (plan: Option<Plan>, observed: Workloads)
      requires Valid()
      modifies this
      ensures Valid() && old(events) <= events && Own(events) == Own(old(events)) && checkpoint == old(checkpoint)
      ensures !shared ==> Now() == old(Now()) && events == old(events) && observed == workloads
      ensures plan.Some? ==> plan == PlanOf(World(observed, checkpoint), scope, action)
      ensures reliable && !shared ==> plan == PlanOf(Now(), scope, action)
    {
      var resources := TargetState();
      observed := workloads;
      if resources.None? { return None, observed; }
      var live := resources.value;
      observed := live;
      var busy := Fault();
      if busy { return None, observed; }   // assert_no_recovery_jobs
      if checkpoint.None? {
        if action.AuditResume? || !Snapshotable(live) { return None, observed; }
        plan := Some(Plan(action, Snapshot("", scope, live), None,
                          Digest(live.deployment.spec), Digest(live.cronjob.spec)));
      } else {
        var window := checkpoint.value.window;
        if window.scope != scope || (action.AuditPause? && window.phase.Resuming?) { return None, observed; }
        if !Verified(live, window) { return None, observed; }
        plan := Some(Plan(action, window, Some(checkpoint.value.uid),
                          Digest(live.deployment.spec), Digest(live.cronjob.spec)));
      }
    }

    // One attempt to pause or resume. Whatever happens, the history stays a legal
    // run; an unapproved plan changes nothing; completion means what it says; and
    // an approved plan does complete when nothing interferes.
    method ExecuteWindow(scope: string, action: Action, approved: Digest<Plan>) returns (outcome: Outcome)
      requires Valid()
      modifies this
      ensures Valid() && old(events) <= events
      ensures !shared && (PlanOf(old(Now()), scope, action).None? || Digest(PlanOf(old(Now()), scope, action).value) != approved) ==>
                outcome.Stopped? && Now() == old(Now()) && events == old(events)
      ensures action.AuditPause? && old(checkpoint).Some? && old(checkpoint).value.window.phase.Resuming? ==>
                outcome.Stopped? && Own(events) == Own(old(events))
      ensures reliable && !shared && PlanOf(old(Now()), scope, action).Some? && approved == Digest(PlanOf(old(Now()), scope, action).value) ==>
                outcome.Completed?
      ensures outcome.Completed? && action.AuditPause? ==>
                && checkpoint.Some? && checkpoint.value.window.phase == Paused && checkpoint.value.window.id == outcome.windowId
                && (!shared ==> AllPaused(workloads, checkpoint.value.window))
      ensures outcome.Completed? && action.AuditResume? ==>
                checkpoint.None? && (!shared ==> workloads == start.workloads)
    {
      var begun := OpenWindow(scope, action, approved);
      if !begun { return Stopped; }
      var id := checkpoint.value.window.id;
      var edited := EditTargets(action);
      if !edited { return Stopped; }
      if action.AuditPause? {
        assert reliable && !shared && Reviewed(workloads) ==> AllPaused(workloads, checkpoint.value.window);
        var closed := ConfirmPaused();
        return if closed then Completed(id) else Stopped;
      } else {
        var closed := CloseWindow();
        return if closed then Completed(id) else Stopped;
      }
    }

    // Plan, compare with the approval, create the checkpoint if there is none and
    // record that a resume has begun.
    method OpenWindow(scope: string, action: Action, approved: Digest<Plan>) returns (ok: bool)
      requires Valid()
      modifies this
      ensures Valid() && old(events) <= events
      ensures ok ==> checkpoint.Some? && (action.AuditResume? <==> checkpoint.value.window.phase == Resuming)
      ensures reliable && !shared && PlanOf(old(Now()), scope, action).Some? && approved == Digest(PlanOf(old(Now()), scope, action).value) ==>
                ok && Reviewed(workloads)
      ensures !shared && (PlanOf(old(Now()), scope, action).None? || Digest(PlanOf(old(Now()), scope, action).value) != approved) ==>
                !ok && Now() == old(Now()) && events == old(events)
      ensures action.AuditPause? && old(checkpoint).Some? && old(checkpoint).value.window.phase.Resuming? ==>
                !ok && Own(events) == Own(old(events))
    {
      var plan, observed := PlanWindow(scope, action);
      if plan.None? || Digest(plan.value) != approved { return false; }
      if checkpoint.None? {
        var uid: string := *;
        var id: string := *;
        var interrupted := Fault();
        if interrupted { return false; }
        Commit(Create(uid, id, scope, observed));
        var unconfirmed := Fault();
        if unconfirmed { return false; }
      }
      if action.AuditResume? {
        var saved := SaveWindow(checkpoint.value, Resuming);
        if !saved { return false; }
      }
      return true;
    }

    // Drain, re-read both workloads and mark the window paused.
    method ConfirmPaused() returns (ok: bool)
      requires Valid() && checkpoint.Some? && checkpoint.value.window.phase != Resuming
      modifies this
      ensures Valid() && old(events) <= events
      ensures ok ==> checkpoint == Some(old(checkpoint).value.(window := old(checkpoint).value.window.(phase := Paused)))
      ensures ok && !shared ==> AllPaused(workloads, checkpoint.value.window)
      ensures reliable && !shared && Reviewed(old(workloads)) && AllPaused(old(workloads), old(checkpoint).value.window) ==> ok
    {
      var noisy := Fault();
      if noisy { return false; }   // wait_quiet
      var resources := TargetState();
      if resources.None? || !AllPaused(resources.value, checkpoint.value.window) { return false; }
      ghost var window := checkpoint.value.window;
      ok := SaveWindow(checkpoint.value, Paused);
      assert ok ==> forall kind: Kind :: checkpoint.value.window.Of(kind) == window.Of(kind);
    }

    // Wait for the writer, then delete the checkpoint by uid.
    method CloseWindow() returns (ok: bool)
      requires Valid() && checkpoint.Some? && checkpoint.value.window.phase == Resuming
      requires !shared ==> AllOriginal(workloads, checkpoint.value.window)
      modifies this
      ensures Valid() && old(events) <= events
      ensures ok ==> checkpoint.None? && (!shared ==> workloads == start.workloads)
      ensures reliable ==> ok
    {
      var unready := Fault();
      if unready { return false; }   // wait_ready
      var interrupted := Fault();
      if interrupted { return false; }
      Commit(Delete);
      if !shared { ResumeRestoresEverything(start, events); }
      var unconfirmed := Fault();
      if unconfirmed { return false; }
      return true;
    }

    // The loop of execute_window: pause stops the cron job first, resume starts
    // the deployment first.
    method EditTargets(action: Action) returns (ok: bool)
      requires Valid() && checkpoint.Some?
      requires action.AuditResume? <==> checkpoint.value.window.phase == Resuming
      modifies this
      ensures Valid() && old(events) <= events && checkpoint == old(checkpoint)
      ensures ok && !shared && action.AuditPause? ==> AllPaused(workloads, checkpoint.value.window)
      ensures ok && !shared && action.AuditResume? ==> AllOriginal(workloads, checkpoint.value.window)
      ensures reliable && !shared && Reviewed(old(workloads)) ==> ok && Reviewed(workloads)
    {
      var order := if action.AuditPause? then [CronJob, Deployment] else [Deployment, CronJob];
      for i := 0 to |order|
        invariant Valid() && old(events) <= events && checkpoint == old(checkpoint)
        invariant reliable && !shared && Reviewed(old(workloads)) ==> Reviewed(workloads)
        invariant !shared ==> forall k | 0 <= k < i ::
                    workloads.Of(order[k]).spec == Target(order[k], action, checkpoint.value.window)
      {
        ghost var before := workloads;
        assert !shared && i == 1 ==> before.Of(order[0]).spec == Target(order[0], action, checkpoint.value.window);
        var edited := EditTarget(order[i], action);
        if !edited { return false; }
      }
      assert !shared ==> workloads.Of(order[0]).spec == Target(order[0], action, checkpoint.value.window)
                         && workloads.Of(order[1]).spec == Target(order[1], action, checkpoint.value.window);
      return true;
    }

    // One turn of that loop: re-read and verify both workloads, edit one.
    method EditTarget(kind: Kind, action: Action) returns (ok: bool)
      requires Valid() && checkpoint.Some?
      requires action.AuditResume? <==> checkpoint.value.window.phase == Resuming
      requires !shared && (kind.Deployment? <==> action.AuditPause?) ==>
                 var other := if kind.Deployment? then CronJob else Deployment;
                 workloads.Of(other).spec == Target(other, action, checkpoint.value.window)
      modifies this
      ensures Valid() && old(events) <= events && checkpoint == old(checkpoint)
      ensures ok && !shared ==> workloads == old(workloads).With(kind, Target(kind, action, checkpoint.value.window))
      ensures reliable && !shared && Reviewed(old(workloads)) ==> ok && Reviewed(workloads)
    {
      var window := checkpoint.value.window;
      var resources := TargetState();
      if !shared { InvHolds(start, events); }
      if resources.None? || !Verified(resources.value, window) { return false; }
      var current := resources.value.Of(kind);
      var saved := window.Of(kind);
      var desired := Desired(kind, action, current.spec, saved);
      assert desired == Target(kind, action, window) by {
        SnapshotIsNeverRewritten(start, events, shared);
        assert Digest(current.spec) in {saved.original, saved.paused};
        assert saved == SnapshotOne(kind, Source(events).value.Of(kind));
        DesiredIsApproved(kind, action, Source(events).value.Of(kind), current.spec);
      }
      if !shared { EditKeepsReview(workloads, kind, desired, action, current.spec, saved); }
      ok := PatchTarget(kind, current, desired);
    }

    // Recovery may start only inside a paused window.
    method AssertPaused(scope: string) returns (windowId: Option<string>)
      requires Valid()
      modifies this
      ensures Valid() && old(events) <= events && Own(events) == Own(old(events)) && checkpoint == old(checkpoint)
      ensures windowId.Some? ==>
                && checkpoint.Some? && checkpoint.value.window.phase == Paused && checkpoint.value.window.scope == scope
                && windowId.value == checkpoint.value.window.id
                && (!shared ==> AllPaused(workloads, checkpoint.value.window))
    {
      if checkpoint.None? || checkpoint.value.window.scope != scope || checkpoint.value.window.phase != Paused { return None; }
      var resources := TargetState();
      if resources.None? { return None; }
      var window := checkpoint.value.window;
      if !Verified(resources.value, window) || !AllPaused(resources.value, window) { return None; }
      var noisy := Fault();
      if noisy { return None; }   // assert_quiet
      return Some(window.id);
    }
  }

  // The spec an approved edit leaves behind.
  function Target(kind: Kind, action: Action, window: Window): Spec {
    if action.AuditPause? then window.Of(kind).paused.content else window.Of(kind).original.content
  }
}
