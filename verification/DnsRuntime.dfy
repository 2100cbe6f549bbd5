// The DNS cutover: two CNAME records published or rolled back under one durable
// checkpoint, with conditional writes (RFC 9110, sections 13.1.1 and 13.1.2).
module DnsRuntime {
  import opened Common

  datatype Plane = Api | Admin

  datatype Planes<+T> = Planes(api: T, admin: T) {
    function Of(plane: Plane): T {
      if plane.Api? then api else admin
    }
  }

  // A record set: its concurrency token and its properties.
  datatype Record = Record(etag: nat, properties: Json)

  type Live = Planes<Option<Record>>

  function Content(record: Option<Record>): Option<Json> {
    if record.None? then None else Some(record.value.properties)
  }

  function Contents(live: Live): Planes<Option<Json>> {
    Planes(Content(live.api), Content(live.admin))
  }

  datatype Phase = Prepared | Published | RolledBack

  datatype Checkpoint = Checkpoint(
    scope: string, before: Planes<Option<Json>>, after: Planes<Option<Json>>, phase: Phase, revision: string)

  predicate Settled(live: Live, checkpoint: Checkpoint) {
    forall plane: Plane :: Content(live.Of(plane)) in {checkpoint.before.Of(plane), checkpoint.after.Of(plane)}
  }

  /****** The protocol as a relation over its remote effects ******/

  datatype World = World(live: Live, checkpoint: Option<Checkpoint>)

  datatype Event =
    | Save(checkpoint: Checkpoint)
    | Write(plane: Plane, desired: Option<Record>, previous: Option<Record>)
    | Mark(phase: Phase)
    | Foreign(live: Live)

  function Put(live: Live, plane: Plane, record: Option<Record>): Live {
    if plane.Api? then live.(api := record) else live.(admin := record)
  }

  function Effect(w: World, e: Event): World {
    match e
    case Save(checkpoint) => w.(checkpoint := Some(checkpoint))
    case Write(plane, desired, _) => w.(live := Put(w.live, plane, desired))
    case Mark(phase) => if w.checkpoint.None? then w else w.(checkpoint := Some(w.checkpoint.value.(phase := phase)))
    case Foreign(live) => w.(live := live)
  }

  // Foreign edits (`shared`) can slip in before the second plane is read again, so
  // the guard on what it replaces is about the live record only without them.
  predicate Legal(w: World, e: Event, shared: bool) {
    match e
    case Save(checkpoint) =>
      w.checkpoint.None? && checkpoint.phase == Prepared && (!shared ==> checkpoint.before == Contents(w.live))
    case Write(plane, desired, previous) =>
      && w.checkpoint.Some?
      && previous == w.live.Of(plane)
      && Content(desired) in {w.checkpoint.value.before.Of(plane), w.checkpoint.value.after.Of(plane)}
      && (plane.Api? || !shared ==>
            Content(previous) in {w.checkpoint.value.before.Of(plane), w.checkpoint.value.after.Of(plane)})
      && (w.checkpoint.value.phase == RolledBack ==> shared && Content(desired) == w.checkpoint.value.before.Of(plane))
    case Mark(phase) =>
      && w.checkpoint.Some?
      && var checkpoint := w.checkpoint.value;
      && (phase == Published ==>
            checkpoint.phase != RolledBack && (!shared ==> Contents(w.live) == checkpoint.after))
      && (phase == RolledBack ==> !shared ==> Contents(w.live) == checkpoint.before)
      && phase != Prepared
    case Foreign(_) => shared
  }

  function After(w: World, events: seq<Event>): World {
    if events == [] then w else Effect(After(w, events[..|events| - 1]), events[|events| - 1])
  }

  ghost predicate Run(w: World, events: seq<Event>, shared: bool) {
    if events == [] then w.checkpoint.None?
    else Run(w, events[..|events| - 1], shared) && Legal(After(w, events[..|events| - 1]), events[|events| - 1], shared)
  }

  lemma Extend(w: World, events: seq<Event>, e: Event, shared: bool)
    requires Run(w, events, shared) && Legal(After(w, events), e, shared)
    ensures Run(w, events + [e], shared) && After(w, events + [e]) == Effect(After(w, events), e)
  {
    assert (events + [e])[..|events|] == events;
  }

  lemma {:induction false} RunPrefix(w: World, events: seq<Event>, n: nat, shared: bool)
    requires Run(w, events, shared) && n <= |events|
    ensures Run(w, events[..n], shared)
  {
    if n < |events| {
      RunPrefix(w, events[..|events| - 1], n, shared);
      assert events[..|events| - 1][..n] == events[..n];
    } else {
      assert events[..n] == events;
    }
  }

  /****** Safety over every run ******/

  ghost predicate Inv(start: Live, now: World) {
    if now.checkpoint.None? then now.live == start
    else
      var checkpoint := now.checkpoint.value;
      && checkpoint.before == Contents(start)
      && Settled(now.live, checkpoint)
      && (checkpoint.phase == RolledBack ==> Contents(now.live) == Contents(start))
  }

  lemma InvKept(start: Live, now: World, e: Event)
    requires Inv(start, now) && Legal(now, e, false)
    ensures Inv(start, Effect(now, e))
  {
    var next := Effect(now, e);
    if e.Save? {
      assert Content(now.live.Of(Api)) == e.checkpoint.before.Of(Api);
      assert Content(now.live.Of(Admin)) == e.checkpoint.before.Of(Admin);
    } else if e.Write? {
      var other := if e.plane.Api? then Admin else Api;
      assert next.live.Of(other) == now.live.Of(other) && next.live.Of(e.plane) == e.desired;
      assert Content(now.live.Of(other)) in {now.checkpoint.value.before.Of(other), now.checkpoint.value.after.Of(other)};
    } else {
      assert forall plane: Plane :: next.checkpoint.value.before.Of(plane) == now.checkpoint.value.before.Of(plane)
                                    && next.checkpoint.value.after.Of(plane) == now.checkpoint.value.after.Of(plane);
    }
  }

  // With no foreign edits: nothing is written before a checkpoint holds the prior
  // values, each plane holds its prior or its published value, and a rolled-back
  // checkpoint means every prior value is in place.
  lemma {:induction false} InvHolds(w: World, events: seq<Event>)
    requires Run(w, events, false)
    ensures Inv(w.live, After(w, events))
  {
    if events != [] {
      var before := events[..|events| - 1];
      InvHolds(w, before);
      InvKept(w.live, After(w, before), events[|events| - 1]);
    }
  }

  // The values to go back to, and those to publish, never change once saved, foreign
  // edits or not; and a rolled-back checkpoint stays rolled back.
  lemma {:induction false} CheckpointIsFixed(w: World, events: seq<Event>, i: nat, shared: bool)
    requires Run(w, events, shared) && i <= |events| && After(w, events[..i]).checkpoint.Some?
    ensures var early, late := After(w, events[..i]).checkpoint, After(w, events).checkpoint;
            && late.Some?
            && late.value.(phase := early.value.phase) == early.value
            && (early.value.phase == RolledBack ==> late.value.phase == RolledBack)
  {
    if i < |events| {
      var before := events[..|events| - 1];
      assert before[..i] == events[..i];
      CheckpointIsFixed(w, before, i, shared);
    } else {
      assert events[..i] == events;
    }
  }

  // After a rollback has been recorded no operator writes anything again.
  lemma {:induction false} RolledBackIsFinal(w: World, events: seq<Event>, i: nat)
    requires Run(w, events, false) && i <= |events|
    requires var at := After(w, events[..i]); at.checkpoint.Some? && at.checkpoint.value.phase == RolledBack
    ensures After(w, events) == After(w, events[..i])
    ensures Contents(After(w, events).live) == Contents(w.live)
  {
    if i < |events| {
      var before := events[..|events| - 1];
      assert before[..i] == events[..i];
      RolledBackIsFinal(w, before, i);
    } else {
      assert events[..i] == events;
      InvHolds(w, events);
    }
  }

  /****** The operator ******/

  datatype Action = Publish | Rollback

  datatype Plan = Plan(
    action: Action, scope: string, before: Live, checkpoint: Checkpoint, desired: Planes<Option<Json>>)

  // What change_dns plans for the state it reads, or None when it refuses. `target`
  // is the pair of records the deployed edge asks for.
  function PlanOf(w: World, action: Action, scope: string, revision: string, target: Planes<Json>, enabled: bool): Option<Plan> {
    var after := Planes(Some(target.api), Some(target.admin));
    if w.checkpoint.Some? && (w.checkpoint.value.scope != scope || !Settled(w.live, w.checkpoint.value)) then None
    else if action.Publish? then
      if !enabled then None
      else if w.checkpoint.None? then
        Some(Plan(action, scope, w.live, Checkpoint(scope, Contents(w.live), after, Prepared, revision), after))
      else if w.checkpoint.value.after != after || w.checkpoint.value.phase == RolledBack then None
      else Some(Plan(action, scope, w.live, w.checkpoint.value, after))
    else if w.checkpoint.None? then None
    else Some(Plan(action, scope, w.live, w.checkpoint.value, w.checkpoint.value.before))
  }

  // The records the admin write is based on: read again once the API plane has been
  // written, otherwise still the planned ones.
  function BeforeAdmin(planned: Live, reread: Live, desired: Planes<Option<Json>>): Live {
    if Content(planned.api) != desired.api then reread else planned
  }

  // The record the admin write replaces, if it writes at all.
  function AdminReplaces(planned: Live, reread: Live, desired: Planes<Option<Json>>): Option<Option<Record>> {
    var current := BeforeAdmin(planned, reread, desired);
    if Content(current.admin) != desired.admin then Some(current.admin) else None
  }

  // A foreign edit to the admin record after planning is overwritten exactly when
  // the API plane had to be written first: that write is followed by a fresh read
  // which is not compared with the checkpoint.
  lemma ForeignAdminEditIsOverwrittenIff(planned: Live, reread: Live, checkpoint: Checkpoint, desired: Planes<Option<Json>>)
    requires Settled(planned, checkpoint) && desired in {checkpoint.before, checkpoint.after}
    requires Content(reread.admin) !in {checkpoint.before.admin, checkpoint.after.admin}
    ensures AdminReplaces(planned, reread, desired) == Some(reread.admin) <==> Content(planned.api) != desired.api
  {
    assert Content(planned.Of(Admin)) in {checkpoint.before.Of(Admin), checkpoint.after.Of(Admin)};
  }

  // The input: a first publication in which somebody creates the admin record after
  // the API record has been written. The run is legal and replaces that record,
  // although its value is neither the one before nor the one to publish.
  lemma ForeignAdminEditIsOverwritten(theirs: Json, api: Json, admin: Json)
    requires theirs != admin
    ensures var nothing: Live := Planes(None, None);
            var checkpoint := Checkpoint("scope", Planes(None, None), Planes(Some(api), Some(admin)), Prepared, "revision");
            var edited: Live := Planes(Some(Record(1, api)), Some(Record(2, theirs)));
            var events := [Save(checkpoint), Write(Api, Some(Record(1, api)), None), Foreign(edited),
                           Write(Admin, Some(Record(3, admin)), Some(Record(2, theirs)))];
            && Run(World(nothing, None), events, true)
            && Some(theirs) !in {checkpoint.before.admin, checkpoint.after.admin}
            && Content(After(World(nothing, None), events[..3]).live.admin) == Some(theirs)
            && Content(After(World(nothing, None), events).live.admin) == Some(admin)
  {
    var nothing: Live := Planes(None, None);
    var start := World(nothing, None);
    var checkpoint := Checkpoint("scope", Planes(None, None), Planes(Some(api), Some(admin)), Prepared, "revision");
    var edited: Live := Planes(Some(Record(1, api)), Some(Record(2, theirs)));
    var first, second := Save(checkpoint), Write(Api, Some(Record(1, api)), None);
    var third, fourth := Foreign(edited), Write(Admin, Some(Record(3, admin)), Some(Record(2, theirs)));
    Extend(start, [], first, true);
    assert [] + [first] == [first];
    Extend(start, [first], second, true);
    assert [first] + [second] == [first, second];
    Extend(start, [first, second], third, true);
    assert [first, second] + [third] == [first, second, third];
    Extend(start, [first, second, third], fourth, true);
    assert [first, second, third] + [fourth] == [first, second, third, fourth];
    assert [first, second, third, fourth][..3] == [first, second, third];
  }

  // Every write to a plane among the events from n on replaces the record given.
  predicate Replaces(events: seq<Event>, n: nat, plane: Plane, previous: Option<Record>) {
    forall k | n <= k < |events| && events[k].Write? && events[k].plane == plane :: events[k].previous == previous
  }

  predicate NoWrites(events: seq<Event>, n: nat) {
    forall k | n <= k < |events| :: !events[k].Write?
  }

  predicate OnlyWrites(events: seq<Event>, n: nat, plane: Plane) {
    forall k | n <= k < |events| && events[k].Write? :: events[k].plane == plane
  }

  predicate HasWrite(events: seq<Event>, n: nat, plane: Plane) {
    exists k | n <= k < |events| :: events[k].Write? && events[k].plane == plane
  }

  // An admin write from n on that replaces a value outside the checkpoint comes after
  // a write of the API plane from n on.
  predicate OutsideOnlyAfterApi(events: seq<Event>, n: nat, checkpoint: Checkpoint) {
    forall k | n <= k < |events| && events[k].Write? && events[k].plane.Admin?
               && Content(events[k].previous) !in {checkpoint.before.admin, checkpoint.after.admin} ::
      exists j | n <= j < k :: events[j].Write? && events[j].plane.Api?
  }

  lemma LaterOutside(events: seq<Event>, n: nat, m: nat, checkpoint: Checkpoint)
    requires n <= m <= |events| && NoWrites(events[..m], n) && OutsideOnlyAfterApi(events, m, checkpoint)
    ensures OutsideOnlyAfterApi(events, n, checkpoint)
  {
    assert forall k | n <= k < m :: events[..m][k] == events[k];
  }

  // Only the values of the checkpoint matter, and events that write nothing do not.
  lemma MoreOutside(events: seq<Event>, more: seq<Event>, n: nat, checkpoint: Checkpoint, later: Checkpoint)
    requires n <= |events| && events <= more && NoWrites(more, |events|) && OutsideOnlyAfterApi(events, n, checkpoint)
    requires later.before == checkpoint.before && later.after == checkpoint.after
    ensures OutsideOnlyAfterApi(more, n, later)
  {
    forall k | n <= k < |more| && more[k].Write? && more[k].plane.Admin?
               && Content(more[k].previous) !in {later.before.admin, later.after.admin}
      ensures exists j | n <= j < k :: more[j].Write? && more[j].plane.Api?
    {
      assert k < |events| && more[k] == events[k];
      var j :| n <= j < k && events[j].Write? && events[j].plane.Api?;
      assert more[j] == events[j];
    }
  }

  // What the two turns of the loop over the planes leave in the history.
  lemma AdminAfterApi(early: seq<Event>, events: seq<Event>, n: nat, planned: Live, reread: Live,
                      desired: Planes<Option<Json>>, checkpoint: Checkpoint)
    requires n <= |early| && early <= events && Settled(planned, checkpoint)
    requires OnlyWrites(early, n, Api) && Replaces(early, n, Api, planned.api)
    requires Content(planned.api) != desired.api ==> HasWrite(early, n, Api)
    requires OnlyWrites(events, |early|, Admin) && Replaces(events, |early|, Admin, BeforeAdmin(planned, reread, desired).admin)
    ensures Replaces(events, n, Api, planned.api) && Replaces(events, n, Admin, BeforeAdmin(planned, reread, desired).admin)
    ensures OutsideOnlyAfterApi(events, n, checkpoint)
  {
    assert forall k | 0 <= k < |early| :: events[k] == early[k];
    assert Content(planned.Of(Admin)) in {checkpoint.before.Of(Admin), checkpoint.after.Of(Admin)};
    if Content(planned.api) != desired.api {
      var j :| n <= j < |early| && early[j].Write? && early[j].plane == Api;
      assert events[j].Write? && events[j].plane.Api?;
    }
  }

  // The zone as one operator at a time drives it. Any remote call may be interrupted
  // before or after it takes effect unless the connection is `reliable`; `shared`
  // lets others edit the records at any moment.
  class DnsZone {
    const shared: bool
    const reliable: bool
    var live: Live
    var checkpoint: Option<Checkpoint>
    var tags: nat
    ghost const start: World
    ghost var events: seq<Event>

    ghost function Now(): World
      reads this
    {
      World(live, checkpoint)
    }

    ghost predicate Valid()
      reads this
    {
      && Run(start, events, shared) && After(start, events) == Now()
      && forall plane: Plane :: live.Of(plane).Some? ==> live.Of(plane).value.etag < tags
    }

    constructor (live: Live, tags: nat, shared: bool, reliable: bool)
      requires forall plane: Plane :: live.Of(plane).Some? ==> live.Of(plane).value.etag < tags
      ensures Valid() && events == [] && checkpoint.None? && this.live == live
      ensures this.shared == shared && this.reliable == reliable
    {
      this.live, this.tags, this.shared, this.reliable, this.checkpoint := live, tags, shared, reliable, None;
      this.start, this.events := World(live, None), [];
    }

    method Fault() returns (failed: bool)
      ensures reliable ==> !failed
    {
      failed := *;
      if reliable { failed := false; }
    }

    method Commit(e: Event)
      requires Valid() && Legal(Now(), e, shared)
      requires forall plane: Plane :: Effect(Now(), e).live.Of(plane).Some? ==> Effect(Now(), e).live.Of(plane).value.etag < tags
      modifies this`live, this`checkpoint, this`events
      ensures Valid() && events == old(events) + [e] && Now() == Effect(old(Now()), e)
    {
      Extend(start, events, e, shared);
      var next := Effect(World(live, checkpoint), e);
      live, checkpoint, events := next.live, next.checkpoint, events + [e];
    }

    // Somebody else may write a record; the server gives it a token never used before.
    method Interfere()
      requires Valid()
      modifies this
      ensures Valid() && old(events) <= events && checkpoint == old(checkpoint) && tags >= old(tags)
      ensures forall plane: Plane :: live.Of(plane) == old(live).Of(plane) || live.Of(plane).None? || live.Of(plane).value.etag >= old(tags)
      ensures !shared ==> Now() == old(Now()) && events == old(events)
      ensures NoWrites(events, |old(events)|)
    {
      if shared {
        var plane: Plane := *;
        var properties: Option<Json> := *;
        var edited := Put(live, plane, if properties.Some? then Some(Record(tags, properties.value)) else None);
        assert forall p: Plane :: edited.Of(p) == live.Of(p) || edited.Of(p).None? || edited.Of(p).value.etag == tags;
        tags := tags + 1;
        Commit(Foreign(edited));
      }
    }

    // PUT or DELETE, on condition that the record is the one read before.
    method Write(plane: Plane, desired: Option<Json>, previous: Option<Record>) returns (ok: bool)
      requires Valid() && checkpoint.Some?
      requires previous.Some? ==> previous.value.etag < tags
      requires previous.Some? && live.Of(plane).Some? && previous.value.etag == live.Of(plane).value.etag ==> previous == live.Of(plane)
      requires !shared ==> previous == live.Of(plane)
      requires Legal(Now().(live := Put(live, plane, previous)), Event.Write(plane, if desired.None? then None else Some(Record(tags, desired.value)), previous), shared)
      modifies this
      ensures Valid() && old(events) <= events && checkpoint == old(checkpoint) && tags >= old(tags)
      ensures ok && !shared ==> Content(live.Of(plane)) == desired && forall p: Plane :: p != plane ==> live.Of(p) == old(live).Of(p)
      ensures OnlyWrites(events, |old(events)|, plane) && Replaces(events, |old(events)|, plane, previous)
      ensures ok ==> |events| > |old(events)| && events[|events| - 1].Write? && events[|events| - 1].plane == plane
      ensures reliable && !shared ==> ok
    {
      Interfere();
      var current := live.Of(plane);
      if (previous.Some? && (current.None? || current.value.etag != previous.value.etag)) || (previous.None? && current.Some?) {
        return false;
      }
      assert current == previous && Put(live, plane, previous) == live;
      ok := Install(plane, desired, previous);
    }

    // The accepted request: it may be interrupted before or after it takes effect.
    method Install(plane: Plane, desired: Option<Json>, previous: Option<Record>) returns (ok: bool)
      requires Valid() && checkpoint.Some?
      requires Legal(Now(), Event.Write(plane, if desired.None? then None else Some(Record(tags, desired.value)), previous), shared)
      modifies this
      ensures Valid() && checkpoint == old(checkpoint) && tags >= old(tags)
      ensures forall p: Plane :: p != plane ==> live.Of(p) == old(live).Of(p)
      ensures ok ==> Content(live.Of(plane)) == desired && events != old(events)
      ensures events == old(events) || exists written :: events == old(events) + [Event.Write(plane, written, previous)]
      ensures reliable ==> ok
    {
      var interrupted := Fault();
      if interrupted { return false; }
      var record := if desired.None? then None else Some(Record(tags, desired.value));
      tags := tags + 1;
      assert forall p: Plane :: Put(live, plane, record).Of(p) == if p == plane then record else live.Of(p);
      Commit(Event.Write(plane, record, previous));
      var unconfirmed := Fault();
      return !unconfirmed;
    }

    method Read() returns (current: Live)
      requires Valid()
      modifies this
      ensures Valid() && old(events) <= events && checkpoint == old(checkpoint) && tags >= old(tags)
      ensures current == live && NoWrites(events, |old(events)|)
      ensures forall plane: Plane :: live.Of(plane) == old(live).Of(plane) || live.Of(plane).None? || live.Of(plane).value.etag >= old(tags)
      ensures !shared ==> Now() == old(Now()) && events == old(events)
    {
      Interfere();
      current := live;
    }

    // Save the first checkpoint, or record how an operation ended.
    method Save(e: Event) returns (ok: bool)
      requires Valid() && (e.Save? || e.Mark?) && Legal(Now(), e, shared)
      modifies this
      ensures Valid() && old(events) <= events && live == old(live) && tags == old(tags) && NoWrites(events, |old(events)|)
      ensures ok ==> Now() == Effect(old(Now()), e)
      ensures checkpoint in {old(checkpoint), Effect(old(Now()), e).checkpoint}
      ensures reliable ==> ok
    {
      var interrupted := Fault();
      if interrupted { return false; }
      Commit(e);
      var unconfirmed := Fault();
      return !unconfirmed;
    }

    // One attempt to publish or to roll back. A record found outside the checkpoint
    // at planning time, or an unapproved plan, means that nothing is written.
    method ChangeDns(action: Action, scope: string, revision: string, target: Planes<Json>, enabled: bool,
                     approved: Digest<Plan>) returns (ok: bool)
      requires Valid()
      modifies this
      ensures Valid() && old(events) <= events
      ensures var plan := PlanOf(old(Now()), action, scope, revision, target, enabled);
              !shared && (plan.None? || Digest(plan.value) != approved) ==> !ok && Now() == old(Now())
      ensures var plan := PlanOf(old(Now()), action, scope, revision, target, enabled);
              reliable && !shared && plan.Some? && Digest(plan.value) == approved ==> ok
      ensures old(checkpoint).Some? && !shared && !Settled(old(live), old(checkpoint).value) ==> !ok && Now() == old(Now())
      ensures ok && action.Publish? ==>
                && checkpoint.Some? && checkpoint.value.phase == Published
                && checkpoint.value.after == Planes(Some(target.api), Some(target.admin))
                && (!shared ==> Contents(live) == checkpoint.value.after)
      ensures ok && action.Rollback? ==>
                && checkpoint.Some? && checkpoint.value.phase == RolledBack
                && (!shared ==> Contents(live) == checkpoint.value.before)
      ensures checkpoint.None? ==> NoWrites(events, |old(events)|)
      ensures checkpoint.Some? ==> OutsideOnlyAfterApi(events, |old(events)|, checkpoint.value)
    {
      var current := Read();
      var planned := PlanOf(World(current, checkpoint), action, scope, revision, target, enabled);
      if planned.None? || Digest(planned.value) != approved { return false; }
      var plan := planned.value;
      var again := Read();
      if again != current { return false; }
      ok := ExecutePlan(plan, current);
    }

    // The writes of an approved plan, from the checkpoint to the recorded outcome.
    method ExecutePlan(plan: Plan, current: Live) returns (ok: bool)
      requires Valid() && current == live && Settled(current, plan.checkpoint)
      requires checkpoint.None? ==> plan.checkpoint.phase == Prepared && plan.checkpoint.before == Contents(live)
      requires checkpoint.Some? ==> checkpoint.value == plan.checkpoint
      requires plan.desired == if plan.action.Publish? then plan.checkpoint.after else plan.checkpoint.before
      requires plan.action.Publish? ==> plan.checkpoint.phase != RolledBack
      requires !shared && plan.checkpoint.phase == RolledBack ==> Contents(live) == plan.desired
      modifies this
      ensures Valid() && old(events) <= events
      ensures ok ==> checkpoint == Some(plan.checkpoint.(phase := if plan.action.Publish? then Published else RolledBack))
      ensures ok && !shared ==> Contents(live) == plan.desired
      ensures reliable && !shared ==> ok
      ensures checkpoint.None? ==> NoWrites(events, |old(events)|)
      ensures checkpoint.Some? ==> OutsideOnlyAfterApi(events, |old(events)|, checkpoint.value)
    {
      ghost var n := |events|;
      if checkpoint.None? {
        var saved := Save(Event.Save(plan.checkpoint));
        if !saved { return false; }
      }
      ghost var m := |events|;
      assert NoWrites(events, n) && Approved(plan.desired) && Known(current);
      ghost var written: Live, at: nat;
      ok, written, at := WritePlanes(current, plan.desired);
      LaterOutside(events, n, m, checkpoint.value);
      if !ok { return false; }
      ghost var done := events;
      var observed := Read();
      MoreOutside(done, events, n, checkpoint.value, checkpoint.value);
      if Contents(observed) != plan.desired { return false; }
      ghost var read := events;
      ok := Save(Mark(if plan.action.Publish? then Published else RolledBack));
      MoreOutside(read, events, n, plan.checkpoint, checkpoint.value);
    }

    // The records were read earlier: their tokens are used up, and a live record with
    // the same token is the same record.
    ghost predicate Known(current: Live)
      reads this
    {
      forall plane: Plane :: current.Of(plane).Some? ==>
        && current.Of(plane).value.etag < tags
        && (live.Of(plane).Some? && live.Of(plane).value.etag == current.Of(plane).value.etag ==> live.Of(plane) == current.Of(plane))
    }

    ghost predicate Approved(desired: Planes<Option<Json>>)
      reads this
    {
      && checkpoint.Some?
      && (desired == checkpoint.value.before || (desired == checkpoint.value.after && checkpoint.value.phase != RolledBack))
      && (!shared ==> Settled(live, checkpoint.value))
      && (!shared && checkpoint.value.phase == RolledBack ==> Contents(live) == desired)
    }

    // One plane that differs from what is desired: write it and read both again.
    method WriteAndRead(plane: Plane, desired: Planes<Option<Json>>, current: Live) returns (ok: bool, next: Live)
      requires Valid() && Approved(desired) && Known(current) && Content(current.Of(plane)) != desired.Of(plane)
      requires plane.Api? ==> Content(current.api) in {checkpoint.value.before.api, checkpoint.value.after.api}
      requires !shared ==> current == live
      modifies this
      ensures Valid() && old(events) <= events && checkpoint == old(checkpoint)
      ensures OnlyWrites(events, |old(events)|, plane) && Replaces(events, |old(events)|, plane, current.Of(plane))
      ensures ok ==> next == live && Known(next) && Approved(desired) && HasWrite(events, |old(events)|, plane)
      ensures ok && !shared ==> Content(live.Of(plane)) == desired.Of(plane) && forall p: Plane :: p != plane ==> live.Of(p) == old(live).Of(p)
      ensures reliable && !shared ==> ok
    {
      next := current;
      ghost var other := if plane.Api? then Admin else Api;
      ghost var before := live;
      assert !shared ==> Content(before.Of(other)) in {checkpoint.value.before.Of(other), checkpoint.value.after.Of(other)};
      assert !shared ==> Content(before.Of(plane)) in {checkpoint.value.before.Of(plane), checkpoint.value.after.Of(plane)};
      assert !shared ==> checkpoint.value.phase != RolledBack by { assert Contents(live) == desired ==> Content(live.Of(plane)) == desired.Of(plane); }
      ok := Write(plane, desired.Of(plane), current.Of(plane));
      if !ok { return; }
      ghost var k := |events| - 1;
      assert !shared ==> Settled(live, checkpoint.value) by {
        assert !shared ==> live.Of(other) == before.Of(other) && Content(live.Of(plane)) == desired.Of(plane);
      }
      next := Read();
      assert events[k].Write? && events[k].plane == plane;
    }

    // The loop over the planes. After writing a plane the records are read again, and
    // the record read then is the one the admin write replaces.
    method WritePlanes(planned: Live, desired: Planes<Option<Json>>) returns (ok: bool, ghost reread: Live, ghost at: nat)
      requires Valid() && Approved(desired) && Known(planned) && Settled(planned, checkpoint.value)
      requires !shared ==> planned == live
      modifies this
      ensures Valid() && old(events) <= events && checkpoint == old(checkpoint)
      ensures ok && !shared ==> Contents(live) == desired
      ensures reliable && !shared ==> ok
      ensures Replaces(events, |old(events)|, Api, planned.api)
      ensures Replaces(events, |old(events)|, Admin, BeforeAdmin(planned, reread, desired).admin)
      ensures Content(planned.api) != desired.api && HasWrite(events, |old(events)|, Admin) ==>
                |old(events)| < at <= |events| && reread == After(start, events[..at]).live
      ensures OutsideOnlyAfterApi(events, |old(events)|, checkpoint.value)
      ensures ok && AdminReplaces(planned, reread, desired).Some? ==> HasWrite(events, |old(events)|, Admin)
    {
      SettledApi(planned, checkpoint.value);
      hide Legal, Effect, Settled, Known, Approved, After, Run;
      var current := planned;
      reread, at := planned, |events|;
      ghost var n := |events|;
      var order := [Api, Admin];
      for i := 0 to |order|
        invariant Valid() && old(events) <= events && checkpoint == old(checkpoint)
        invariant Known(current) && Approved(desired) && (!shared ==> current == live)
        invariant !shared ==> forall k | 0 <= k < i :: Content(live.Of(order[k])) == desired.Of(order[k])
        invariant i == 0 ==> current == planned && |events| == n
        invariant i == 1 ==>
                    && current == BeforeAdmin(planned, reread, desired)
                    && OnlyWrites(events, n, Api) && Replaces(events, n, Api, planned.api)
        invariant i > 0 && Content(planned.api) != desired.api ==>
                    HasWrite(events, n, Api) && n < at <= |events| && reread == After(start, events[..at]).live
        invariant i == 2 ==>
                    && Replaces(events, n, Api, planned.api) && Replaces(events, n, Admin, BeforeAdmin(planned, reread, desired).admin)
                    && OutsideOnlyAfterApi(events, n, checkpoint.value)
                    && (AdminReplaces(planned, reread, desired).Some? ==> HasWrite(events, n, Admin))
      {
        var plane := order[i];
        ghost var early := events;
        if Content(current.Of(plane)) != desired.Of(plane) {
          ghost var before := live;
          ok, current := WriteAndRead(plane, desired, current);
          if plane.Admin? {
            AdminAfterApi(early, events, n, planned, reread, desired, checkpoint.value);
            assert Content(planned.api) != desired.api ==> events[..at] == early[..at];
          }
          if !ok { return; }
          if plane.Api? {
            reread, at := current, |events|;
            assert events[..at] == events;
          } else {
            assert !shared ==> live.Of(order[0]) == before.Of(order[0]);
          }
        } else if plane.Admin? {
          AdminAfterApi(early, events, n, planned, reread, desired, checkpoint.value);
        }
      }
      assert !shared ==> Content(live.Of(order[0])) == desired.Of(order[0]) && Content(live.Of(order[1])) == desired.Of(order[1]);
      ok := true;
    }
  }

  lemma SettledApi(live: Live, checkpoint: Checkpoint)
    requires Settled(live, checkpoint)
    ensures Content(live.api) in {checkpoint.before.api, checkpoint.after.api}
  {
    assert Content(live.Of(Api)) in {checkpoint.before.Of(Api), checkpoint.after.Of(Api)};
  }
}
