// Restricting and restoring the source ranges of the legacy gateway, cycle after
// cycle, behind a durable checkpoint.
module LegacyAccess {
  import opened Common
  import opened Text
  import opened AccessPolicy
  import opened JsonPatch

  /****** The entry, its view and the patch between views ******/

  const ANNOTATION := "nginx.ingress.kubernetes.io/whitelist-source-range"
  const APPLIED := "kubectl.kubernetes.io/last-applied-configuration"
  const RANGES := "loadBalancerSourceRanges"

  // What the API server guarantees of a Service or an Ingress. Annotations may be
  // absent or null.
  predicate IsEntry(resource: Json) {
    && resource.Obj?
    && "metadata" in resource.fields && resource.fields["metadata"].Obj?
    && "spec" in resource.fields && resource.fields["spec"].Obj?
    && "uid" in Metadata(resource) && "resourceVersion" in Metadata(resource)
    && ("annotations" in Metadata(resource) ==>
          Metadata(resource)["annotations"].Null? || Metadata(resource)["annotations"].Obj?)
  }

  type Entry = resource: Json | IsEntry(resource)
    witness Obj(map["metadata" := Obj(map["uid" := Null, "resourceVersion" := Null]), "spec" := Obj(map[])])

  function Metadata(resource: Json): map<string, Json>
    requires resource.Obj? && "metadata" in resource.fields && resource.fields["metadata"].Obj?
  {
    resource.fields["metadata"].fields
  }

  function SpecOf(resource: Entry): map<string, Json>
  {
    resource.fields["spec"].fields
  }

  predicate HasAnnotations(resource: Entry)
  {
    "annotations" in Metadata(resource) && Metadata(resource)["annotations"].Obj?
  }

  function Annotations(resource: Entry): map<string, Json>
  {
    if HasAnnotations(resource) then Metadata(resource)["annotations"].fields else map[]
  }

  function Lookup(fields: map<string, Json>, key: string): Json {
    if key in fields then fields[key] else Null
  }

  function AccessView(resource: Entry, kind: Kind): View
  {
    var spec, notes := SpecOf(resource), Annotations(resource) - {APPLIED};
    match kind
    case Service =>
      View(Metadata(resource)["uid"], Digest((Obj(spec - {RANGES}), Obj(notes))), RANGES in spec, Lookup(spec, RANGES))
    case Ingress =>
      View(Metadata(resource)["uid"], Digest((Obj(spec), Obj(notes - {ANNOTATION}))), ANNOTATION in notes, Lookup(notes, ANNOTATION))
  }

  function PolicyPath(kind: Kind): Path {
    if kind.Service? then ["spec", RANGES] else ["metadata", "annotations", ANNOTATION]
  }

  // The patch from the entry just read, or None when access_patch refuses.
  function AccessPatch(resource: Entry, kind: Kind, present: bool, value: Json): Option<seq<Operation>>
  {
    var tests := [Test(["metadata", "uid"], Metadata(resource)["uid"]),
                  Test(["metadata", "resourceVersion"], Metadata(resource)["resourceVersion"])];
    if kind.Ingress? && !HasAnnotations(resource) then
      if present then Some(tests + [Add(["metadata", "annotations"], Obj(map[ANNOTATION := value]))]) else None
    else Some(tests + [if present then Add(PolicyPath(kind), value) else Remove(PolicyPath(kind))])
  }

  lemma ApplyTests(resource: Entry, kind: Kind, present: bool, value: Json)
    requires AccessPatch(resource, kind, present, value).Some?
    ensures var ops := AccessPatch(resource, kind, present, value).value;
            |ops| == 3 && Apply(resource, ops) == ApplyOne(resource, ops[2])
  {
    var ops := AccessPatch(resource, kind, present, value).value;
    var metadata := resource.fields["metadata"];
    assert At(metadata, ["uid"]) == Some(metadata.fields["uid"]);
    assert At(metadata, ["resourceVersion"]) == Some(metadata.fields["resourceVersion"]);
    assert ["metadata", "uid"][1..] == ["uid"] && ["metadata", "resourceVersion"][1..] == ["resourceVersion"];
    assert ApplyOne(resource, ops[0]) == Some(resource) && ApplyOne(resource, ops[1]) == Some(resource);
    assert ops[1..][1..] == [ops[2]] && [ops[2]][1..] == [];
    assert Apply(resource, ops) == Apply(resource, ops[1..]) == Apply(resource, [ops[2]]);
    assert forall next :: Apply(next, []) == Some(next);
  }

  lemma PutSpec(resource: Entry, value: Option<Json>)
    ensures Put(resource, ["spec", RANGES], value) ==
            if value.Some? then Some(Obj(resource.fields["spec" := Obj(SpecOf(resource)[RANGES := value.value])]))
            else if RANGES in SpecOf(resource) then Some(Obj(resource.fields["spec" := Obj(SpecOf(resource) - {RANGES})]))
            else None
  {
    assert ["spec", RANGES][1..] == [RANGES];
  }

  lemma PutAnnotation(resource: Entry, value: Option<Json>)
    requires HasAnnotations(resource)
    ensures var notes, metadata := Annotations(resource), Metadata(resource);
            Put(resource, ["metadata", "annotations", ANNOTATION], value) ==
            if value.Some? then
              Some(Obj(resource.fields["metadata" := Obj(metadata["annotations" := Obj(notes[ANNOTATION := value.value])])]))
            else if ANNOTATION in notes then
              Some(Obj(resource.fields["metadata" := Obj(metadata["annotations" := Obj(notes - {ANNOTATION})])]))
            else None
  {
    var path := ["metadata", "annotations", ANNOTATION];
    assert path[1..] == ["annotations", ANNOTATION] && path[1..][1..] == [ANNOTATION];
    var metadata := resource.fields["metadata"];
    assert Put(metadata.fields["annotations"], [ANNOTATION], value) ==
           if value.Some? then Some(Obj(Annotations(resource)[ANNOTATION := value.value]))
           else if ANNOTATION in Annotations(resource) then Some(Obj(Annotations(resource) - {ANNOTATION}))
           else None;
    assert Put(metadata, path[1..], value) ==
           var child := Put(metadata.fields["annotations"], [ANNOTATION], value);
           if child.None? then None else Some(Obj(metadata.fields["annotations" := child.value]));
  }

  lemma PutAnnotations(resource: Entry, value: Json)
    ensures Put(resource, ["metadata", "annotations"], Some(value)) ==
            Some(Obj(resource.fields["metadata" := Obj(Metadata(resource)["annotations" := value])]))
  {
    assert ["metadata", "annotations"][1..] == ["annotations"];
  }

  // Applying the patch and viewing the result gives exactly the desired view, also
  // when the entry has no annotations at all. Only removing a policy that is not
  // there fails.
  lemma PatchReachesTheView(resource: Entry, kind: Kind, present: bool, value: Json)
    requires !present ==> value == Null
    ensures var view := AccessView(resource, kind);
            var patch := AccessPatch(resource, kind, present, value);
            var result := if patch.Some? then Apply(resource, patch.value) else None;
            && (result.Some? <==> present || view.present)
            && (result.Some? ==>
                  && IsEntry(result.value)
                  && AccessView(result.value, kind) == view.(present := present, value := value)
                  && Metadata(result.value)["resourceVersion"] == Metadata(resource)["resourceVersion"])
  {
    if kind.Ingress? && !HasAnnotations(resource) && !present { return; }
    ApplyTests(resource, kind, present, value);
    var spec, notes := SpecOf(resource), Annotations(resource);
    var change := if present then Some(value) else None;
    match kind
    case Service =>
      PutSpec(resource, change);
      assert spec[RANGES := value] - {RANGES} == spec - {RANGES};
      assert (spec - {RANGES}) - {RANGES} == spec - {RANGES};
    case Ingress =>
      if !HasAnnotations(resource) {
        PutAnnotations(resource, Obj(map[ANNOTATION := value]));
        assert map[ANNOTATION := value] - {APPLIED} - {ANNOTATION} == map[];
      } else {
        PutAnnotation(resource, change);
        assert notes[ANNOTATION := value] - {APPLIED} - {ANNOTATION} == notes - {APPLIED} - {ANNOTATION};
        assert notes - {ANNOTATION} - {APPLIED} - {ANNOTATION} == notes - {APPLIED} - {ANNOTATION};
      }
  }

  /****** The protocol as a relation over its remote effects ******/

  datatype Phase = Restricting | Restricted | Restoring | Restored

  datatype State = State(scope: string, phase: Phase, original: View, restricted: View)

  datatype Checkpoint = Checkpoint(uid: string, state: State)

  datatype World = World(entry: Entry, checkpoint: Option<Checkpoint>)

  datatype Action = Restrict | Restore

  // A new cycle over the view just read, for a normalised list of ranges.
  function Opened(scope: string, kind: Kind, requested: seq<string>, view: View): Option<State>
    requires |requested| > 0
  {
    var value := RestrictedValue(kind, requested, view.value);
    if value.None? then None
    else Some(State(scope, Restricting, view, view.(present := true, value := value.value)))
  }

  // One effective remote write. Open starts a cycle, in a new or in a restored
  // checkpoint; Begin and Finish record a phase; Patch changes the entry;
  // Foreign is an edit by somebody else between two operations.
  datatype Event =
    | Open(uid: string, scope: string, values: seq<string>)
    | Begin(action: Action)
    | Patch(entry: Entry)
    | Finish
    | Foreign(entry: Entry)

  function Effect(w: World, e: Event, kind: Kind): World
  {
    match e
    case Open(uid, scope, values) =>
      var requested := SourceRangesOf(values);
      if requested.None? || requested.value == [] then w
      else
        var state := Opened(scope, kind, requested.value, AccessView(w.entry, kind));
        if state.None? then w
        else w.(checkpoint := Some(Checkpoint(if w.checkpoint.Some? then w.checkpoint.value.uid else uid, state.value)))
    case Begin(action) => WithPhase(w, if action.Restrict? then Restricting else Restoring)
    case Patch(entry) => w.(entry := entry)
    case Finish =>
      if w.checkpoint.None? then w
      else WithPhase(w, if w.checkpoint.value.state.phase == Restricting then Restricted else Restored)
    case Foreign(entry) => w.(entry := entry)
  }

  function WithPhase(w: World, phase: Phase): World {
    if w.checkpoint.None? then w
    else w.(checkpoint := Some(w.checkpoint.value.(state := w.checkpoint.value.state.(phase := phase))))
  }

  predicate Legal(w: World, e: Event, kind: Kind)
  {
    var view := AccessView(w.entry, kind);
    match e
    case Open(uid, scope, values) =>
      var requested := SourceRangesOf(values);
      && requested.Some? && requested.value != [] && Opened(scope, kind, requested.value, view).Some?
      && (w.checkpoint.Some? ==>
            var state := w.checkpoint.value.state;
            state.scope == scope && state.phase == Restored && view == state.original)
    case Begin(action) =>
      && w.checkpoint.Some?
      && var state := w.checkpoint.value.state;
      && view in {state.original, state.restricted}
      && (action.Restrict? ==> state.phase in {Restricting, Restricted})
    case Patch(entry) =>
      && w.checkpoint.Some?
      && var state := w.checkpoint.value.state;
      && view in {state.original, state.restricted}
      && ( || (state.phase == Restricting && AccessView(entry, kind) == state.restricted)
           || (state.phase == Restoring && AccessView(entry, kind) == state.original))
    case Finish =>
      && w.checkpoint.Some?
      && var state := w.checkpoint.value.state;
      || (state.phase == Restricting && view == state.restricted)
      || (state.phase == Restoring && view == state.original)
    case Foreign(_) => true
  }

  function After(w: World, events: seq<Event>, kind: Kind): World {
    if events == [] then w
    else Effect(After(w, events[..|events| - 1], kind), events[|events| - 1], kind)
  }

  ghost predicate Run(w: World, events: seq<Event>, kind: Kind) {
    if events == [] then w.checkpoint.None?
    else
      var before, e := events[..|events| - 1], events[|events| - 1];
      Run(w, before, kind) && Legal(After(w, before, kind), e, kind)
  }

  lemma Extend(w: World, events: seq<Event>, e: Event, kind: Kind)
    requires Run(w, events, kind) && Legal(After(w, events, kind), e, kind)
    ensures Run(w, events + [e], kind) && After(w, events + [e], kind) == Effect(After(w, events, kind), e, kind)
  {
    assert (events + [e])[..|events|] == events;
  }

  /****** Safety over every run ******/

  // Holds in every state that operators alone can reach, over any number of
  // cycles, crashes and changes of the requested ranges.
  ghost predicate Inv(start: View, now: World, kind: Kind)
  {
    var view := AccessView(now.entry, kind);
    if now.checkpoint.None? then view == start
    else
      var state := now.checkpoint.value.state;
      && state.original == start
      && state.restricted == start.(present := true, value := state.restricted.value)
      && (exists values :: NarrowedTo(kind, values, start.value, state.restricted.value))
      && view in {state.original, state.restricted}
      && (state.phase == Restricted ==> view == state.restricted)
      && (state.phase == Restored ==> view == state.original)
  }

  ghost predicate NarrowedTo(kind: Kind, values: seq<string>, previous: Json, value: Json) {
    && SourceRangesOf(values).Some? && SourceRangesOf(values).value != []
    && RestrictedValue(kind, SourceRangesOf(values).value, previous) == Some(value)
  }

  lemma {:induction false} InvHolds(w: World, events: seq<Event>, kind: Kind)
    requires Run(w, events, kind) && forall e | e in events :: !e.Foreign?
    ensures Inv(AccessView(w.entry, kind), After(w, events, kind), kind)
  {
    hide SourceRangesOf, RestrictedValue, AccessView;
    if events != [] {
      var before, e := events[..|events| - 1], events[|events| - 1];
      assert forall x | x in before :: x in events;
      InvHolds(w, before, kind);
      var start, now := AccessView(w.entry, kind), After(w, before, kind);
      assert e in events && Inv(start, now, kind);
      if e.Open? {
        assert NarrowedTo(kind, e.values, start.value, Effect(now, e, kind).checkpoint.value.state.restricted.value);
      }
    }
  }

  // However often the entry has been restricted and restored, the checkpoint
  // remembers the very first view, and the live entry shows that view or the
  // current restriction of it.
  lemma OriginalIsTheFirstView(w: World, events: seq<Event>, kind: Kind)
    requires Run(w, events, kind) && forall e | e in events :: !e.Foreign?
    ensures var start, now := AccessView(w.entry, kind), After(w, events, kind);
            var view := AccessView(now.entry, kind);
            if now.checkpoint.None? then view == start
            else
              var state := now.checkpoint.value.state;
              && state.original == start
              && view in {start, state.restricted}
              && (state.phase == Restricted ==> view == state.restricted)
              && (state.phase == Restored ==> view == start)
  {
    InvHolds(w, events, kind);
  }

  lemma NarrowedAdmits(kind: Kind, values: seq<string>, previous: Json, value: Json, ip: nat)
    requires NarrowedTo(kind, values, previous, value) && Admits(kind, value, ip)
    ensures Admits(kind, previous, ip)
  {
    RestrictionNarrows(kind, values, previous, ip);
  }

  // In every reachable state the live policy admits nobody the first one did not.
  lemma NeverBroader(w: World, events: seq<Event>, kind: Kind, ip: nat)
    requires Run(w, events, kind) && forall e | e in events :: !e.Foreign?
    requires Admits(kind, AccessView(After(w, events, kind).entry, kind).value, ip)
    ensures Admits(kind, AccessView(w.entry, kind).value, ip)
  {
    hide SourceRangesOf, RestrictedValue, AccessView, Admits, Effect, Legal, NarrowedTo;
    InvHolds(w, events, kind);
    var start, now := AccessView(w.entry, kind), After(w, events, kind);
    var view := AccessView(now.entry, kind);
    if view != start {
      var state := now.checkpoint.value.state;
      var values :| NarrowedTo(kind, values, start.value, state.restricted.value);
      NarrowedAdmits(kind, values, start.value, state.restricted.value, ip);
    }
  }

  /****** The operator ******/

  datatype Plan = Plan(
    action: Action, scope: string, current: View, desired: View, checkpoint: Option<(string, Digest<State>)>)

  // The state access_plan settles on before it is written, or None when it refuses.
  function Planned(w: World, kind: Kind, scope: string, values: seq<string>, action: Action): Option<State> {
    var requested, view := SourceRangesOf(values), AccessView(w.entry, kind);
    if requested.None? || requested.value == [] then None
    else if w.checkpoint.Some?
            && (w.checkpoint.value.state.scope != scope
                || view !in {w.checkpoint.value.state.original, w.checkpoint.value.state.restricted}) then None
    else if action.Restore? then
      if w.checkpoint.None? then None else Some(w.checkpoint.value.state)
    else if w.checkpoint.Some? && w.checkpoint.value.state.phase == Restoring then None
    else
      var state :=
        if w.checkpoint.Some? && w.checkpoint.value.state.phase != Restored then Some(w.checkpoint.value.state)
        else if w.checkpoint.Some? && view != w.checkpoint.value.state.original then None
        else Opened(scope, kind, requested.value, view);
      if state.None? || state.value.restricted.value != Stored(kind, requested.value) then None else state
  }

  function PlanOf(w: World, kind: Kind, scope: string, values: seq<string>, action: Action): Option<Plan> {
    var state := Planned(w, kind, scope, values, action);
    if state.None? then None
    else Some(Plan(action, scope, AccessView(w.entry, kind),
                   if action.Restrict? then state.value.restricted else state.value.original,
                   if w.checkpoint.Some? then Some((w.checkpoint.value.uid, Digest(w.checkpoint.value.state))) else None))
  }

  function Started(state: State, action: Action): State {
    state.(phase := if action.Restrict? then Restricting else Restoring)
  }

  lemma ViewShape(resource: Entry, kind: Kind)
    ensures !AccessView(resource, kind).present ==> AccessView(resource, kind).value == Null
  {
  }

  // Foreign edits included, a checkpoint records an entry's view and the same view
  // with a policy put in.
  lemma {:induction false} RecordedViews(w: World, events: seq<Event>, kind: Kind)
    requires Run(w, events, kind)
    ensures var now := After(w, events, kind);
            now.checkpoint.Some? ==>
              var state := now.checkpoint.value.state;
              && state.restricted == state.original.(present := true, value := state.restricted.value)
              && (!state.original.present ==> state.original.value == Null)
  {
    hide SourceRangesOf, RestrictedValue, AccessView;
    if events != [] {
      var before := events[..|events| - 1];
      RecordedViews(w, before, kind);
      ViewShape(After(w, before, kind).entry, kind);
    }
  }

  // The server gives every stored entry a new version; no view shows it.
  function Stamped(resource: Entry, version: Json): (r: Entry)
    ensures forall kind :: AccessView(r, kind) == AccessView(resource, kind)
  {
    Obj(resource.fields["metadata" := Obj(Metadata(resource)["resourceVersion" := version])])
  }

  // The cluster as one operator at a time drives it. Any remote call may be
  // interrupted before or after it takes effect unless the connection is
  // `reliable`; others may edit the entry between two operations.
  class LegacyCluster {
    const kind: Kind
    const reliable: bool
    var entry: Entry
    var checkpoint: Option<Checkpoint>
    ghost const start: World
    ghost var events: seq<Event>

    ghost function Now(): World
      reads this
    {
      World(entry, checkpoint)
    }

    ghost function Live(): View
      reads this
    {
      AccessView(entry, kind)
    }

    ghost predicate Valid()
      reads this
    {
      Run(start, events, kind) && After(start, events, kind) == Now()
    }

    constructor (entry: Entry, kind: Kind, reliable: bool)
      ensures Valid() && events == [] && checkpoint.None?
      ensures this.entry == entry && this.kind == kind && this.reliable == reliable
    {
      this.entry, this.kind, this.reliable, this.checkpoint := entry, kind, reliable, None;
      this.start, this.events := World(entry, None), [];
    }

    method Fault() returns (failed: bool)
      ensures reliable ==> !failed
    {
      failed := *;
      if reliable { failed := false; }
    }

    method Commit(e: Event)
      requires Valid() && Legal(Now(), e, kind)
      modifies this
      ensures Valid() && events == old(events) + [e] && Now() == Effect(old(Now()), e, kind)
    {
      hide Legal, Effect;
      Extend(start, events, e, kind);
      var next := Effect(World(entry, checkpoint), e, kind);
      entry, checkpoint, events := next.entry, next.checkpoint, events + [e];
    }

    // Record the phase an operation starts in, opening a cycle when there is none.
    method SaveCheckpoint(scope: string, values: seq<string>, action: Action) returns (ok: bool)
      requires Valid() && Planned(Now(), kind, scope, values, action).Some?
      modifies this
      ensures Valid() && old(events) <= events && entry == old(entry)
      ensures ok ==>
                && checkpoint.Some?
                && checkpoint.value.state == Started(Planned(old(Now()), kind, scope, values, action).value, action)
      ensures reliable ==> ok
      ensures forall e | e in events[|old(events)|..] :: !e.Foreign?
    {
      hide SourceRangesOf, RestrictedValue, AccessView;
      var interrupted := Fault();
      if interrupted { return false; }
      if action.Restrict? && (checkpoint.None? || checkpoint.value.state.phase == Restored) {
        var uid: string := *;
        Commit(Open(uid, scope, values));
      } else {
        Commit(Begin(action));
      }
      var unconfirmed := Fault();
      return !unconfirmed;
    }

    // Patch the entry from one recorded view to the other, conditional on its uid
    // and version.
    method PatchEntry(target: Entry, desired: View) returns (ok: bool)
      requires Valid() && checkpoint.Some? && entry == target
      requires var state := checkpoint.value.state;
               && Live() in {state.original, state.restricted}
               && ((state.phase == Restricting && desired == state.restricted) || (state.phase == Restoring && desired == state.original))
      requires desired.(present := Live().present, value := Live().value) == Live()
      requires (!desired.present ==> desired.value == Null) && (desired.present || Live().present)
      modifies this
      ensures Valid() && old(events) <= events && checkpoint == old(checkpoint)
      ensures ok ==> Live() == desired
      ensures reliable ==> ok
      ensures forall e | e in events[|old(events)|..] :: !e.Foreign?
    {
      hide AccessView, IsEntry, Apply;
      PatchReachesTheView(target, kind, desired.present, desired.value);
      var operations := AccessPatch(target, kind, desired.present, desired.value);
      var interrupted := Fault();
      if interrupted { return false; }
      var patched: Entry := Apply(entry, operations.value).value;
      var version: Json := *;
      Commit(Patch(Stamped(patched, version)));
      var unconfirmed := Fault();
      return !unconfirmed;
    }

    method FinishPhase() returns (ok: bool)
      requires Valid() && checkpoint.Some?
      requires var state := checkpoint.value.state;
               || (state.phase == Restricting && Live() == state.restricted)
               || (state.phase == Restoring && Live() == state.original)
      modifies this
      ensures Valid() && old(events) <= events && entry == old(entry)
      ensures ok ==>
                var state := old(checkpoint).value.state;
                checkpoint == Some(old(checkpoint).value.(
                  state := state.(phase := if state.phase == Restricting then Restricted else Restored)))
      ensures reliable ==> ok
      ensures forall e | e in events[|old(events)|..] :: !e.Foreign?
    {
      hide AccessView;
      var interrupted := Fault();
      if interrupted { return false; }
      Commit(Finish);
      var unconfirmed := Fault();
      return !unconfirmed;
    }

    // One attempt to restrict or to restore. It never writes an entry whose view
    // nobody recorded, an unapproved plan changes nothing, and an approved one
    // completes when nothing interferes.
    method AccessOperation(scope: string, values: seq<string>, action: Action, approved: Digest<Plan>) returns (ok: bool)
      requires Valid()
      modifies this
      ensures Valid() && old(events) <= events
      ensures forall e | e in events[|old(events)|..] :: !e.Foreign?
      ensures (PlanOf(old(Now()), kind, scope, values, action).None? || Digest(PlanOf(old(Now()), kind, scope, values, action).value) != approved) ==>
                !ok && Now() == old(Now())
      ensures old(checkpoint).Some? && old(Live()) !in {old(checkpoint).value.state.original, old(checkpoint).value.state.restricted} ==>
                !ok && Now() == old(Now())
      ensures ok && action.Restrict? ==>
                && checkpoint.Some? && checkpoint.value.state.phase == Restricted && Live() == checkpoint.value.state.restricted
                && SourceRangesOf(values).Some? && SourceRangesOf(values).value != []
                && Live() == old(Live()).(present := true, value := Stored(kind, SourceRangesOf(values).value))
      ensures ok && action.Restore? ==>
                && checkpoint.Some? && checkpoint.value.state.phase == Restored && old(checkpoint).Some?
                && Live() == checkpoint.value.state.original == old(checkpoint).value.state.original
      ensures reliable && PlanOf(old(Now()), kind, scope, values, action).Some? ==>
                approved == Digest(PlanOf(old(Now()), kind, scope, values, action).value) ==> ok
    {
      hide SourceRangesOf, RestrictedValue, AccessView, Legal, Effect;
      var state := Planned(World(entry, checkpoint), kind, scope, values, action);
      if state.None? { return false; }
      var plan := PlanOf(World(entry, checkpoint), kind, scope, values, action).value;
      if Digest(plan) != approved { return false; }
      var target := entry;
      var saved := SaveCheckpoint(scope, values, action);
      if !saved { return false; }
      RecordedViews(start, events, kind);
      ViewShape(entry, kind);
      if plan.current != plan.desired {
        var patched := PatchEntry(target, plan.desired);
        if !patched { return false; }
      }
      ok := FinishPhase();
    }
  }
}
