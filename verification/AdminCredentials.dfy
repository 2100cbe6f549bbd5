// The admin OIDC credential: a key in Entra and its secret in the Vault, kept
// consistent through creation, rotation, recovery and retirement although the two
// stores can only be written one after the other.
module AdminCredentials {
  import opened Common

  /****** The two stores ******/

  type KeyId = nat

  // Times are seconds on one clock.
  type Time = int

  const DAY: Time := 86400

  // A password credential of the application; `managed` says that it carries the
  // display name of this workflow.
  datatype Credential = Credential(managed: bool, end: Time)

  // A version of the OIDC secret: the key it belongs to and when it expires.
  datatype Version = Version(keyId: KeyId, expires: Time)

  datatype World = World(keys: map<KeyId, Credential>, versions: seq<Version>, sessions: nat)

  function ManagedKeys(keys: map<KeyId, Credential>): set<KeyId> {
    set id | id in keys && keys[id].managed
  }

  function ReferencedKeys(versions: seq<Version>): set<KeyId> {
    set v | v in versions :: v.keyId
  }

  function Managed(w: World): set<KeyId> {
    ManagedKeys(w.keys)
  }

  function References(w: World): set<KeyId> {
    ReferencedKeys(w.versions)
  }

  function Orphans(w: World): set<KeyId> {
    Managed(w) - References(w)
  }

  function Current(w: World): Option<Version> {
    if w.versions == [] then None else Some(w.versions[|w.versions| - 1])
  }

  /****** The protocol as a relation over its remote effects ******/

  datatype Event =
    | AddKey(id: KeyId, end: Time)
    | StoreOidc(id: KeyId, expires: Time)
    | StoreSession
    | RemoveKey(id: KeyId, now: Time)

  function Effect(w: World, e: Event): World {
    match e
    case AddKey(id, end) => w.(keys := w.keys[id := Credential(true, end)])
    case StoreOidc(id, expires) => w.(versions := w.versions + [Version(id, expires)])
    case StoreSession => w.(sessions := w.sessions + 1)
    case RemoveKey(id, _) => w.(keys := w.keys - {id})
  }

  predicate Expired(end: Time, now: Time) {
    end <= now - DAY
  }

  predicate Legal(w: World, e: Event) {
    match e
    case AddKey(id, _) => id !in w.keys && id !in References(w) && Orphans(w) == {} && |Managed(w)| < 5
    case StoreOidc(id, expires) => id in Orphans(w) && w.keys[id].end == expires
    case StoreSession => true
    case RemoveKey(id, now) =>
      || id in Orphans(w)
      || (id in Managed(w) && Current(w).Some? && id != Current(w).value.keyId && Expired(w.keys[id].end, now))
  }

  function After(w: World, events: seq<Event>): World {
    if events == [] then w else Effect(After(w, events[..|events| - 1]), events[|events| - 1])
  }

  // A run from stores that this workflow has not touched yet.
  ghost predicate Run(w: World, events: seq<Event>) {
    if events == [] then Managed(w) == {} && w.versions == [] && w.sessions == 0
    else Run(w, events[..|events| - 1]) && Legal(After(w, events[..|events| - 1]), events[|events| - 1])
  }

  lemma Extend(w: World, events: seq<Event>, e: Event)
    requires Run(w, events) && Legal(After(w, events), e)
    ensures Run(w, events + [e]) && After(w, events + [e]) == Effect(After(w, events), e)
  {
    assert (events + [e])[..|events|] == events;
  }

  /****** Safety over every run ******/

  ghost predicate Inv(w: World) {
    && (Current(w).Some? ==>
          && Current(w).value.keyId in Managed(w)
          && w.keys[Current(w).value.keyId].end == Current(w).value.expires)
    && |Orphans(w)| <= 1
    && |Managed(w)| <= 5
  }

  lemma SubsetSize<T>(a: set<T>, b: set<T>)
    requires a <= b
    ensures |a| <= |b|
  {
    assert b == a + (b - a);
  }

  // What an event does to the managed keys, the references and the orphans.
  lemma EffectSets(w: World, e: Event)
    requires Legal(w, e)
    ensures var next := Effect(w, e);
            match e
            case AddKey(id, _) => Managed(next) == Managed(w) + {id} && References(next) == References(w)
            case StoreOidc(id, _) => Managed(next) == Managed(w) && References(next) == References(w) + {id}
            case StoreSession => Managed(next) == Managed(w) && References(next) == References(w)
            case RemoveKey(id, _) => Managed(next) == Managed(w) - {id} && References(next) == References(w)
  {
  }

  lemma CurrentIsReferenced(w: World)
    ensures Current(w).Some? ==> Current(w).value.keyId in References(w)
  {
    assert Current(w).Some? ==> Current(w).value in w.versions;
  }

  // No event separates the current secret from its key.
  lemma CurrentKept(w: World, e: Event)
    requires Inv(w) && Legal(w, e)
    ensures var next := Effect(w, e);
            Current(next).Some? ==>
              && Current(next).value.keyId in Managed(next)
              && next.keys[Current(next).value.keyId].end == Current(next).value.expires
  {
    EventFacts(w, e);
    EffectSets(w, e);
    hide ReferencedKeys, ManagedKeys, Orphans, Legal;
  }

  // What an event leaves of the current secret and its key.
  lemma EventFacts(w: World, e: Event)
    requires Legal(w, e)
    ensures e.RemoveKey? ==> Current(w).None? || e.id != Current(w).value.keyId
    ensures e.StoreOidc? ==> e.id in Managed(w) && w.keys[e.id].end == e.expires
    ensures e.AddKey? ==> e.id !in w.keys
  {
    CurrentIsReferenced(w);
  }

  lemma InvKept(w: World, e: Event)
    requires Inv(w) && Legal(w, e)
    ensures Inv(Effect(w, e))
  {
    hide ReferencedKeys, ManagedKeys;
    var next := Effect(w, e);
    EffectSets(w, e);
    CurrentIsReferenced(w);
    CurrentKept(w, e);
    if e.AddKey? {
      assert Orphans(next) == {e.id};
    } else {
      assert Orphans(next) <= Orphans(w) && Managed(next) <= Managed(w);
      SubsetSize(Orphans(next), Orphans(w));
      SubsetSize(Managed(next), Managed(w));
    }
  }

  // In every reachable state the current secret's key exists in Entra with the
  // recorded expiry, at most five managed keys exist and at most one of them is
  // unknown to the Vault.
  lemma {:induction false} StoresAgree(w: World, events: seq<Event>)
    requires Run(w, events)
    ensures Inv(After(w, events))
  {
    if events != [] {
      StoresAgree(w, events[..|events| - 1]);
      InvKept(After(w, events[..|events| - 1]), events[|events| - 1]);
    }
  }

  // A key that is ever removed was unknown to the Vault, or expired for a day and
  // not current; so a key the current secret needs is never removed.
  lemma RemovalsAreSafe(w: World, events: seq<Event>, i: nat)
    requires Run(w, events) && i < |events| && events[i].RemoveKey?
    ensures var before := After(w, events[..i]);
            && events[i].id in Managed(before)
            && (Current(before).Some? ==> Current(before).value.keyId != events[i].id)
            && (events[i].id in References(before) ==> Expired(before.keys[events[i].id].end, events[i].now))
  {
    RunAt(w, events, i);
    var before := After(w, events[..i]);
    assert Current(before).Some? ==> Current(before).value in before.versions && Current(before).value.keyId in References(before);
  }

  lemma {:induction false} RunAt(w: World, events: seq<Event>, i: nat)
    requires Run(w, events) && i < |events|
    ensures Run(w, events[..i]) && Legal(After(w, events[..i]), events[i])
  {
    var before := events[..|events| - 1];
    if i < |before| {
      RunAt(w, before, i);
      assert before[..i] == events[..i];
    }
  }

  lemma {:induction false} RunStarts(w: World, events: seq<Event>)
    requires Run(w, events)
    ensures Managed(w) == {}
  {
    if events != [] { RunStarts(w, events[..|events| - 1]); }
  }

  // Keys this workflow did not create are never touched.
  lemma {:induction false} OtherKeysUntouched(w: World, events: seq<Event>, id: KeyId)
    requires Run(w, events) && id in w.keys
    ensures var now := After(w, events); id in now.keys && now.keys[id] == w.keys[id]
  {
    if events != [] {
      OtherKeysUntouched(w, events[..|events| - 1], id);
      RunStarts(w, events);
      assert id !in Managed(w);
    }
  }

  // Vault versions are only ever appended.
  lemma {:induction false} VersionsOnlyGrow(w: World, events: seq<Event>, i: nat)
    requires i <= |events|
    ensures After(w, events[..i]).versions <= After(w, events).versions
    ensures After(w, events[..i]).sessions <= After(w, events).sessions
  {
    if i < |events| {
      VersionsOnlyGrow(w, events[..|events| - 1], i);
      assert events[..|events| - 1][..i] == events[..i];
    } else {
      assert events[..i] == events;
    }
  }

  /****** The operator ******/

  datatype Action = Rotate | Recover | SessionRotate | RetireExpired

  // What lifecycle_state reports.
  datatype Report = Report(
    current: Option<Version>, sessions: nat, versions: seq<Version>, credentials: map<KeyId, Time>, orphaned: set<KeyId>)

  function ReportOf(w: World): Report {
    Report(Current(w), w.sessions, w.versions, map id | id in Managed(w) :: w.keys[id].end, Orphans(w))
  }

  // The current secret still has its key; otherwise lifecycle_state refuses.
  predicate Matched(w: World) {
    Current(w).Some? ==> Current(w).value.keyId in Managed(w)
  }

  // What inspect_credentials accepts.
  predicate Inspected(w: World, now: Time) {
    if Current(w).None? then Managed(w) == {}
    else
      && Current(w).value.keyId in Managed(w)
      && w.keys[Current(w).value.keyId].end == Current(w).value.expires
      && Current(w).value.expires > now + 7 * DAY
  }

  // Before anything but recovery: a current secret, a session key and no orphan.
  predicate Ready(w: World, action: Action, now: Time) {
    && Current(w).Some? && w.sessions > 0 && Orphans(w) == {}
    && (if action.Rotate? then |Managed(w)| < 5 else Inspected(w, now))
  }

  // The keys an action is approved to remove.
  function Removals(w: World, action: Action, now: Time): set<KeyId> {
    match action
    case Recover => Orphans(w)
    case RetireExpired =>
      set id | id in Managed(w) && (Current(w).Some? ==> id != Current(w).value.keyId) && Expired(w.keys[id].end, now)
    case _ => {}
  }

  datatype Plan = Plan(action: Action, before: Report, lifetimeDays: nat, removals: set<KeyId>)

  function PlanOf(w: World, action: Action, lifetimeDays: nat, now: Time): Option<Plan> {
    if !Matched(w) || (!action.Recover? && !Ready(w, action, now)) then None
    else Some(Plan(action, ReportOf(w), lifetimeDays, Removals(w, action, now)))
  }

  lemma FreshId(w: World, id: KeyId)
    requires (forall k | k in w.keys :: k < id) && forall v | v in w.versions :: v.keyId < id
    ensures id !in w.keys && id !in References(w)
  {
  }

  lemma NothingYet(w: World)
    requires Managed(w) == {}
    ensures Orphans(w) == {} && |Managed(w)| < 5
  {
  }

  // Entra and the Vault as one operator at a time drives them. Any remote call may be
  // interrupted before or after it takes effect unless the connection is `reliable`.
  class Stores {
    const reliable: bool
    var keys: map<KeyId, Credential>
    var versions: seq<Version>
    var sessions: nat
    var nextId: KeyId
    ghost const start: World
    ghost var events: seq<Event>

    function Now(): World
      reads this
    {
      World(keys, versions, sessions)
    }

    ghost predicate Valid()
      reads this
    {
      && Run(start, events) && After(start, events) == Now()
      && (forall id | id in keys :: id < nextId)
      && (forall v | v in versions :: v.keyId < nextId)
    }

    constructor (keys: map<KeyId, Credential>, nextId: KeyId, reliable: bool)
      requires forall id | id in keys :: id < nextId && !keys[id].managed
      ensures Valid() && events == [] && this.keys == keys && versions == [] && sessions == 0 && this.reliable == reliable
    {
      this.reliable, this.keys, this.versions, this.sessions, this.nextId := reliable, keys, [], 0, nextId;
      this.start, this.events := World(keys, [], 0), [];
    }

    method Fault() returns (failed: bool)
      ensures reliable ==> !failed
    {
      failed := *;
      if reliable { failed := false; }
    }

    method Commit(e: Event)
      requires Valid() && Legal(Now(), e)
      requires e.AddKey? ==> e.id < nextId
      modifies this`keys, this`versions, this`sessions, this`events
      ensures Valid() && events == old(events) + [e] && Now() == Effect(old(Now()), e)
    {
      Extend(start, events, e);
      var next := Effect(Now(), e);
      keys, versions, sessions, events := next.keys, next.versions, next.sessions, events + [e];
    }

    // addPassword, then set_secret: between the two the new key is an orphan.
    method CreateCredential(end: Time) returns (ok: bool)
      requires Valid() && Orphans(Now()) == {} && |Managed(Now())| < 5
      modifies this
      ensures Valid() && old(events) <= events && sessions == old(sessions)
      ensures ok ==>
                && old(nextId) !in old(keys) && keys == old(keys)[old(nextId) := Credential(true, end)]
                && versions == old(versions) + [Version(old(nextId), end)]
      ensures ok ==> Orphans(Now()) == {} && Current(Now()).value.keyId in Managed(Now())
                     && Current(Now()).value.expires == end == keys[Current(Now()).value.keyId].end
      ensures !ok ==> old(versions) <= versions && |versions| <= |old(versions)| + 1
      ensures reliable ==> ok
    {
      hide ReferencedKeys, ManagedKeys, Run, After;
      var id := nextId;
      FreshId(Now(), id);
      nextId := nextId + 1;
      var interrupted := Fault();
      if interrupted { return false; }
      EffectSets(Now(), AddKey(id, end));
      Commit(AddKey(id, end));
      var unanswered := Fault();
      if unanswered { return false; }
      EffectSets(Now(), StoreOidc(id, end));
      Commit(StoreOidc(id, end));
      assert Orphans(Now()) == {};
      var unconfirmed := Fault();
      return !unconfirmed;
    }

    method StoreSessionKey() returns (ok: bool)
      requires Valid()
      modifies this
      ensures Valid() && old(events) <= events && keys == old(keys) && versions == old(versions)
      ensures ok ==> sessions == old(sessions) + 1
      ensures !ok ==> old(sessions) <= sessions <= old(sessions) + 1
      ensures reliable ==> ok
    {
      var interrupted := Fault();
      if interrupted { return false; }
      Commit(StoreSession);
      var unconfirmed := Fault();
      return !unconfirmed;
    }

    // Create whichever of the two secrets does not exist, and nothing else.
    method InitializeCredentials(lifetimeDays: nat, now: Time, approved: Digest<(Report, nat)>) returns (ok: bool)
      requires Valid()
      modifies this
      ensures Valid() && old(events) <= events
      ensures !Inspected(old(Now()), now) || approved != Digest((ReportOf(old(Now())), lifetimeDays)) ==>
                !ok && Now() == old(Now()) && events == old(events)
      ensures ok ==>
                && Inspected(Now(), now) && Current(Now()).Some? && sessions > 0
                && (old(versions) != [] ==> versions == old(versions) && keys == old(keys))
                && (old(sessions) > 0 ==> sessions == old(sessions))
                && (old(versions) == [] ==> |versions| == 1 && Current(Now()).value.expires == now + lifetimeDays * DAY)
      ensures reliable && Inspected(old(Now()), now) && approved == Digest((ReportOf(old(Now())), lifetimeDays)) && lifetimeDays > 7 ==> ok
    {
      hide ReferencedKeys, ManagedKeys, Legal, Effect;
      if !Inspected(Now(), now) || approved != Digest((ReportOf(Now()), lifetimeDays)) { return false; }
      if Current(Now()).None? {
        NothingYet(Now());
        var created := CreateCredential(now + lifetimeDays * DAY);
        if !created { return false; }
      }
      if sessions == 0 {
        var stored := StoreSessionKey();
        if !stored { return false; }
      }
      if !Inspected(Now(), now) { return false; }
      var unsaved := Fault();   // the receipt
      return !unsaved;
    }

    // Remove exactly the approved keys, reading the stores again before each removal.
    method RemoveKeys(action: Action, approved: set<KeyId>, now: Time) returns (ok: bool)
      requires Valid() && (action.Recover? || action.RetireExpired?)
      requires approved == Removals(Now(), action, now) && (action.RetireExpired? ==> Current(Now()).Some?)
      modifies this
      ensures Valid() && old(events) <= events && versions == old(versions) && sessions == old(sessions)
      ensures ok ==> keys == old(keys) - approved && Removals(Now(), action, now) == {}
      ensures !ok ==> exists removed | removed <= approved :: keys == old(keys) - removed
      ensures reliable ==> ok
    {
      var remaining := approved;
      ghost var removed: set<KeyId> := {};
      assert keys == old(keys) - removed;
      while remaining != {}
        invariant Valid() && old(events) <= events && versions == old(versions) && sessions == old(sessions)
        invariant remaining <= approved && removed == approved - remaining && keys == old(keys) - removed
        invariant remaining == Removals(Now(), action, now)
        decreases remaining
      {
        var id :| id in remaining;
        var failed := RemoveOne(id, action, now);
        if failed {
          assert keys == old(keys) - removed || keys == old(keys) - (removed + {id});
          return false;
        }
        remaining, removed := remaining - {id}, removed + {id};
        assert keys == old(keys) - removed;
      }
      assert removed == approved;
      return true;
    }

    method RemoveOne(id: KeyId, action: Action, now: Time) returns (failed: bool)
      requires Valid() && id in Removals(Now(), action, now) && (action.Recover? || action.RetireExpired?)
      requires action.RetireExpired? ==> Current(Now()).Some?
      modifies this
      ensures Valid() && old(events) <= events && versions == old(versions) && sessions == old(sessions)
      ensures !failed ==> keys == old(keys) - {id} && Removals(Now(), action, now) == Removals(old(Now()), action, now) - {id}
      ensures failed ==> keys in {old(keys), old(keys) - {id}}
      ensures reliable ==> !failed
    {
      var interrupted := Fault();
      if interrupted { return true; }
      EffectSets(Now(), RemoveKey(id, now));
      Commit(RemoveKey(id, now));
      failed := Fault();
    }

    // One approved lifecycle action. Recovery and retirement remove exactly the
    // planned keys and keep every version; rotations add exactly one version.
    method ManageCredentialLifecycle(action: Action, lifetimeDays: nat, now: Time, approved: Digest<Plan>) returns (ok: bool)
      requires Valid()
      modifies this
      ensures Valid() && old(events) <= events
      ensures var plan := PlanOf(old(Now()), action, lifetimeDays, now);
              plan.None? || approved != Digest(plan.value) ==> !ok && Now() == old(Now()) && events == old(events)
      ensures ok && action.Rotate? ==>
                && sessions == old(sessions) && versions == old(versions) + [Version(old(nextId), now + lifetimeDays * DAY)]
                && keys == old(keys)[old(nextId) := Credential(true, now + lifetimeDays * DAY)] && Inspected(Now(), now)
      ensures ok && action.SessionRotate? ==> sessions == old(sessions) + 1 && versions == old(versions) && keys == old(keys)
      ensures ok && (action.Recover? || action.RetireExpired?) ==>
                && keys == old(keys) - Removals(old(Now()), action, now)
                && versions == old(versions) && sessions == old(sessions) && Removals(Now(), action, now) == {}
      ensures var plan := PlanOf(old(Now()), action, lifetimeDays, now);
              reliable && plan.Some? && approved == Digest(plan.value) && (action.Rotate? ==> lifetimeDays > 7) ==> ok
    {
      hide ReferencedKeys, ManagedKeys, Run, After, Legal, Effect;
      var plan := PlanOf(Now(), action, lifetimeDays, now);
      if plan.None? || approved != Digest(plan.value) { return false; }
      match action {
        case Rotate =>
          ok := CreateCredential(now + lifetimeDays * DAY);
          if !ok || !Inspected(Now(), now) { return false; }
        case SessionRotate =>
          ok := StoreSessionKey();
          if !ok || !Inspected(Now(), now) { return false; }
        case _ =>
          ok := RemoveKeys(action, plan.value.removals, now);
          if !ok { return false; }
      }
      var unsaved := Fault();   // the receipt, or the closing read
      return !unsaved;
    }
  }

  // Recovery can be planned in every reachable state, whatever was interrupted, and
  // what it removes is all there is to remove.
  lemma RecoveryIsAlwaysPossible(w: World, events: seq<Event>, lifetimeDays: nat, now: Time)
    requires Run(w, events)
    ensures var here := After(w, events);
            && PlanOf(here, Recover, lifetimeDays, now).Some?
            && PlanOf(here, Recover, lifetimeDays, now).value.removals == Orphans(here)
            && Orphans(here.(keys := here.keys - Orphans(here))) == {}
  {
    StoresAgree(w, events);
    var here := After(w, events);
    var next := here.(keys := here.keys - Orphans(here));
    assert Managed(next) == Managed(here) - Orphans(here);
  }

  // After an initialization that stopped between the two stores, running it again is
  // refused until the orphan has been recovered.
  lemma InterruptedInitializationNeedsRecovery(w: World, events: seq<Event>, now: Time)
    requires Run(w, events) && Current(After(w, events)).None?
    ensures Inspected(After(w, events), now) <==> Orphans(After(w, events)) == {}
  {
    assert References(After(w, events)) == {};
  }
}
