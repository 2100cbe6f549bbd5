// Granting application roles and delegated consent in Entra: the intended set, the
// approved transport, bounded paging and resumable convergence.
module EntraAccess {
  import opened Common
  import opened Text

  /****** What can be granted ******/

  datatype Access =
    | Role(principalId: string, resourceId: string, appRoleId: string)
    | Grant(clientId: string, consentType: string, principalId: string, resourceId: string, scope: string)

  // Where a document is posted.
  function PostPath(access: Access): string {
    if access.Role? then "/servicePrincipals/" + access.resourceId + "/appRoleAssignedTo" else "/oauth2PermissionGrants"
  }

  // Consent for one named user and the invocation scope only.
  predicate NarrowConsent(access: Access) {
    access.Grant? ==> access.consentType == "Principal" && access.scope == "llm.invoke" && access.principalId != ""
  }

  /****** The intended set ******/

  datatype Plane = Api | Admin

  datatype SubjectType = User | ServicePrincipal

  datatype Binding = Binding(
    oid: string, disabled: bool, kind: SubjectType, plane: Plane, role: string, clientIds: Option<seq<string>>)

  datatype Subject = Subject(kind: SubjectType, id: string, appId: string, enabled: bool)

  datatype Client = Client(id: string, appId: string, enabled: bool)

  datatype AppRole = AppRole(id: string, members: set<SubjectType>)

  // The directory objects and definitions an intent is computed from.
  datatype Directory = Directory(
    resources: map<Plane, string>, subjects: map<string, Subject>, clients: map<string, Client>,
    roles: map<(Plane, string), AppRole>, apiClientIds: seq<string>)

  // Reading an identifier: its one canonical text, which is never empty, or nothing.
  type ObjectId = read: string -> Option<string> | forall text :: read(text) != Some("") witness (text: string) => None

  // Two identifiers that can be read and are the same.
  predicate Same(id: ObjectId, a: string, b: string) {
    id(a).Some? && id(a) == id(b)
  }

  predicate TwoResources(id: ObjectId, directory: Directory) {
    && Api in directory.resources && Admin in directory.resources
    && id(directory.resources[Api]).Some? && id(directory.resources[Admin]).Some?
    && !Same(id, directory.resources[Api], directory.resources[Admin])
  }

  function ResourceOf(id: ObjectId, directory: Directory, plane: Plane): string
    requires TwoResources(id, directory)
  {
    if plane.Api? then id(directory.resources[Api]).value else id(directory.resources[Admin]).value
  }

  // The subject a binding names is the one found under its canonical identifier, and
  // a calling service is also the client with its application's identifier.
  predicate UsableSubject(id: ObjectId, directory: Directory, binding: Binding) {
    && id(binding.oid).Some? && id(binding.oid).value in directory.subjects
    && var subject := directory.subjects[id(binding.oid).value];
    && subject.kind == binding.kind && Same(id, subject.id, binding.oid) && subject.enabled
    && (binding.plane.Api? && binding.kind.ServicePrincipal? ==>
          && id(subject.appId).Some? && id(subject.appId).value in directory.clients
          && Same(id, directory.clients[id(subject.appId).value].id, binding.oid))
  }

  function RoleValue(binding: Binding): string {
    if binding.plane.Admin? then binding.role
    else if binding.kind.ServicePrincipal? then "Llm.Invoke"
    else "Llm.User"
  }

  predicate UsableRole(directory: Directory, binding: Binding) {
    && (binding.plane, RoleValue(binding)) in directory.roles
    && binding.kind in directory.roles[(binding.plane, RoleValue(binding))].members
  }

  // The clients a binding delegates to: only users of the API plane do.
  function Delegates(directory: Directory, binding: Binding): seq<string> {
    if binding.plane.Admin? || binding.kind.ServicePrincipal? then []
    else if binding.clientIds.Some? then binding.clientIds.value
    else directory.apiClientIds
  }

  predicate UsableClient(id: ObjectId, directory: Directory, clientId: string) {
    && id(clientId).Some? && id(clientId).value in directory.clients
    && var client := directory.clients[id(clientId).value];
    && client.enabled && Same(id, client.appId, clientId) && id(client.id).Some?
  }

  predicate Usable(id: ObjectId, directory: Directory, binding: Binding) {
    && UsableSubject(id, directory, binding) && UsableRole(directory, binding)
    && forall c | c in Delegates(directory, binding) :: UsableClient(id, directory, c)
  }

  function RoleFor(id: ObjectId, directory: Directory, binding: Binding): Access
    requires TwoResources(id, directory) && Usable(id, directory, binding)
  {
    Role(id(binding.oid).value, ResourceOf(id, directory, binding.plane), directory.roles[(binding.plane, RoleValue(binding))].id)
  }

  function GrantFor(id: ObjectId, directory: Directory, binding: Binding, clientId: string): Access
    requires TwoResources(id, directory) && Usable(id, directory, binding) && UsableClient(id, directory, clientId)
  {
    Grant(id(directory.clients[id(clientId).value].id).value, "Principal", id(binding.oid).value,
          ResourceOf(id, directory, Api), "llm.invoke")
  }

  function GrantsFor(id: ObjectId, directory: Directory, binding: Binding, clientIds: seq<string>): seq<Access>
    requires TwoResources(id, directory) && Usable(id, directory, binding)
    requires forall c | c in clientIds :: UsableClient(id, directory, c)
  {
    seq(|clientIds|, i requires 0 <= i < |clientIds| => GrantFor(id, directory, binding, clientIds[i]))
  }

  function AccessOf(id: ObjectId, directory: Directory, binding: Binding): seq<Access>
    requires TwoResources(id, directory) && Usable(id, directory, binding)
  {
    GrantsFor(id, directory, binding, Delegates(directory, binding)) + [RoleFor(id, directory, binding)]
  }

  function IntentOf(id: ObjectId, directory: Directory, bindings: seq<Binding>): Option<seq<Access>>
    requires TwoResources(id, directory)
  {
    if bindings == [] then Some([])
    else
      var before, binding := IntentOf(id, directory, bindings[..|bindings| - 1]), bindings[|bindings| - 1];
      if before.None? || binding.disabled then before
      else if !Usable(id, directory, binding) then None
      else Some(before.value + AccessOf(id, directory, binding))
  }

  // What access_intent returns, or None where it refuses.
  function Intended(id: ObjectId, directory: Directory, bindings: seq<Binding>): Option<seq<Access>> {
    if TwoResources(id, directory) then IntentOf(id, directory, bindings) else None
  }

  // An enabled binding asks for its role, and for consent by each of its clients.
  predicate AskedBy(id: ObjectId, directory: Directory, binding: Binding, access: Access)
    requires TwoResources(id, directory)
  {
    && Usable(id, directory, binding)
    && ( || access == RoleFor(id, directory, binding)
         || exists c | c in Delegates(directory, binding) :: access == GrantFor(id, directory, binding, c))
  }

  ghost predicate Asked(id: ObjectId, directory: Directory, bindings: seq<Binding>, access: Access)
    requires TwoResources(id, directory)
  {
    exists b | b in bindings :: !b.disabled && AskedBy(id, directory, b, access)
  }

  lemma AccessOfIsAskedBy(id: ObjectId, directory: Directory, binding: Binding, access: Access)
    requires TwoResources(id, directory) && Usable(id, directory, binding)
    ensures access in AccessOf(id, directory, binding) <==> AskedBy(id, directory, binding, access)
  {
    hide UsableSubject, UsableRole, UsableClient;
    var delegates := Delegates(directory, binding);
    var grants := GrantsFor(id, directory, binding, delegates);
    if AskedBy(id, directory, binding, access) && access != RoleFor(id, directory, binding) {
      var c :| c in delegates && access == GrantFor(id, directory, binding, c);
      var i :| 0 <= i < |delegates| && delegates[i] == c;
      assert grants[i] == access;
    }
    if access in AccessOf(id, directory, binding) && access != RoleFor(id, directory, binding) {
      var i :| 0 <= i < |grants| && grants[i] == access;
      assert delegates[i] in delegates;
    }
  }

  // The intent is exactly what the enabled bindings ask for, and it exists exactly
  // when each of them is usable.
  lemma {:induction false} IntentIsAsked(id: ObjectId, directory: Directory, bindings: seq<Binding>)
    requires TwoResources(id, directory)
    ensures IntentOf(id, directory, bindings).Some? <==> forall b | b in bindings :: b.disabled || Usable(id, directory, b)
    ensures IntentOf(id, directory, bindings).Some? ==>
              forall access :: access in IntentOf(id, directory, bindings).value <==> Asked(id, directory, bindings, access)
  {
    hide AskedBy, AccessOf, Usable, TwoResources;
    if bindings != [] {
      var before, binding := bindings[..|bindings| - 1], bindings[|bindings| - 1];
      IntentIsAsked(id, directory, before);
      assert bindings == before + [binding];
      if IntentOf(id, directory, bindings).Some? {
        forall access
          ensures access in IntentOf(id, directory, bindings).value <==> Asked(id, directory, bindings, access)
        {
          assert Asked(id, directory, bindings, access) <==>
                 Asked(id, directory, before, access) || (!binding.disabled && AskedBy(id, directory, binding, access));
          if !binding.disabled { AccessOfIsAskedBy(id, directory, binding, access); }
        }
      }
    }
  }

  // Whatever the directory answers, consent is only ever intended for one named
  // user and for the invocation scope.
  lemma IntentIsNarrow(id: ObjectId, directory: Directory, bindings: seq<Binding>)
    requires Intended(id, directory, bindings).Some?
    ensures forall access | access in Intended(id, directory, bindings).value :: NarrowConsent(access)
  {
    IntentIsAsked(id, directory, bindings);
  }

  // The loop of access_intent.
  method AccessIntent(id: ObjectId, directory: Directory, bindings: seq<Binding>) returns (intent: Option<seq<Access>>)
    ensures intent == Intended(id, directory, bindings)
  {
    if !TwoResources(id, directory) { return None; }
    var granted: seq<Access> := [];
    for i := 0 to |bindings|
      invariant IntentOf(id, directory, bindings[..i]) == Some(granted)
    {
      var binding := bindings[i];
      assert bindings[..i + 1][..i] == bindings[..i];
      if !binding.disabled {
        if !Usable(id, directory, binding) {
          IntentIsAsked(id, directory, bindings);
          return None;
        }
        granted := granted + AccessOf(id, directory, binding);
      }
    }
    assert bindings[..|bindings|] == bindings;
    return Some(granted);
  }

  /****** Paging ******/

  // A page: its items, and the link to the next one if any. `inside` says that the
  // link stays with the authority and the collection.
  datatype Page<T> = Page(valid: bool, items: seq<T>, next: Option<Link>)

  datatype Link = Link(inside: bool, query: string)

  const MAX_PAGES := 100
  const MAX_ITEMS := 10000

  // What collection() returns from a page on, given the pages already read.
  function Collected<T>(pages: map<string, Page<T>>, query: string, visited: set<string>, items: seq<T>): Option<seq<T>>
    decreases pages.Keys - visited
  {
    if query in visited || |visited| >= MAX_PAGES || query !in pages || !pages[query].valid then None
    else
      var page := pages[query];
      var more := items + page.items;
      if |more| > MAX_ITEMS then None
      else if page.next.None? then Some(more)
      else if !page.next.value.inside then None
      else Collected(pages, page.next.value.query, visited + {query}, more)
  }

  // A chain of pages: each links to the next inside the collection, the last to none.
  predicate Chain<T>(pages: map<string, Page<T>>, queries: seq<string>) {
    |queries| > 0 && forall i | 0 <= i < |queries| :: Linked(pages, queries, i)
  }

  predicate Linked<T>(pages: map<string, Page<T>>, queries: seq<string>, i: nat)
    requires i < |queries|
  {
    && queries[i] in pages && pages[queries[i]].valid
    && pages[queries[i]].next == if i + 1 < |queries| then Some(Link(true, queries[i + 1])) else None
  }

  function Concatenated<T>(pages: map<string, Page<T>>, queries: seq<string>): seq<T>
    requires forall q | q in queries :: q in pages
  {
    if queries == [] then [] else pages[queries[0]].items + Concatenated(pages, queries[1..])
  }

  // A result is the items of a whole chain of at most a hundred distinct pages, in
  // order, and at most ten thousand of them.
  lemma {:induction false} CollectedIsAChain<T>(pages: map<string, Page<T>>, query: string, visited: set<string>, items: seq<T>)
    returns (queries: seq<string>)
    requires Collected(pages, query, visited, items).Some?
    ensures Chain(pages, queries) && queries[0] == query
    ensures forall q | q in queries :: q in pages && q !in visited
    ensures forall i, j | 0 <= i < j < |queries| :: queries[i] != queries[j]
    ensures |visited| + |queries| <= MAX_PAGES
    ensures Collected(pages, query, visited, items).value == items + Concatenated(pages, queries)
    ensures |Collected(pages, query, visited, items).value| <= MAX_ITEMS
    decreases pages.Keys - visited
  {
    var page := pages[query];
    if page.next.None? {
      queries := [query];
      assert queries[1..] == [];
    } else {
      var rest := CollectedIsAChain(pages, page.next.value.query, visited + {query}, items + page.items);
      queries := [query] + rest;
      assert queries[1..] == rest;
      assert Linked(pages, queries, 0);
      forall i | 0 <= i < |queries|
        ensures Linked(pages, queries, i)
      {
        if i > 0 { assert Linked(pages, rest, i - 1); }
      }
      forall i, j | 0 <= i < j < |queries|
        ensures queries[i] != queries[j]
      {
        assert rest[j - 1] in rest;
      }
    }
  }

  // The loop of GraphAccess.collection; it stops within its bound whatever the
  // server answers.
  method Collection<T>(pages: map<string, Page<T>>, start: string) returns (result: Option<seq<T>>)
    ensures result == Collected(pages, start, {}, [])
  {
    var visited: set<string> := {};
    var items: seq<T> := [];
    var query := start;
    while true
      invariant |visited| <= MAX_PAGES
      invariant Collected(pages, start, {}, []) == Collected(pages, query, visited, items)
      decreases MAX_PAGES - |visited|
    {
      if query in visited || |visited| >= MAX_PAGES { return None; }
      if query !in pages || !pages[query].valid { return None; }
      var page := pages[query];
      visited := visited + {query};
      items := items + page.items;
      if |items| > MAX_ITEMS { return None; }
      if page.next.None? { return Some(items); }
      if !page.next.value.inside { return None; }
      query := page.next.value.query;
    }
  }

  /****** What is missing ******/

  // What missing_access returns; it refuses anything that is granted twice or was
  // never asked for.
  function MissingAccess(intent: seq<Access>, before: seq<Access>): Option<set<Access>> {
    if Distinct(before) && forall a | a in before :: a in intent then
      Some((set a | a in intent) - (set a | a in before))
    else None
  }

  /****** The protocol as a relation over its remote effects ******/

  // The grants in the directory, the pairs the transport lets through, and what the
  // running operation has still to post.
  datatype World = World(
    live: seq<Access>, approved: set<(string, Digest<Access>)>, pending: set<Access>, intent: seq<Access>)

  // Approve opens the transport for what a plan found missing; Post is one write
  // that took effect; Stop ends an operation anywhere; Foreign is an edit by
  // somebody else between two operations.
  datatype Event =
    | Approve(intent: seq<Access>)
    | Post(path: string, access: Access)
    | Stop
    | Foreign(live: seq<Access>)

  function Pairs(accesses: set<Access>): set<(string, Digest<Access>)> {
    set a | a in accesses :: (PostPath(a), Digest(a))
  }

  function Effect(w: World, e: Event): World {
    match e
    case Approve(intent) =>
      var missing := MissingAccess(intent, w.live);
      if missing.None? then w else World(w.live, Pairs(missing.value), missing.value, intent)
    case Post(_, access) => w.(live := w.live + [access], pending := w.pending - {access})
    case Stop => w.(approved := {}, pending := {}, intent := [])
    case Foreign(live) => w.(live := live)
  }

  // Roles are posted before consents; a foreign edit meets no running operation.
  predicate Legal(w: World, e: Event) {
    match e
    case Approve(intent) =>
      && w.approved == {} && w.pending == {}
      && MissingAccess(intent, w.live).Some?
      && forall a | a in MissingAccess(intent, w.live).value :: NarrowConsent(a)
    case Post(path, access) =>
      && (path, Digest(access)) in w.approved && access in w.pending
      && (access.Grant? ==> forall a | a in w.pending :: a.Grant?)
    case Stop => true
    case Foreign(_) => w.approved == {} && w.pending == {}
  }

  function After(w: World, events: seq<Event>): World {
    if events == [] then w else Effect(After(w, events[..|events| - 1]), events[|events| - 1])
  }

  ghost predicate Run(w: World, events: seq<Event>) {
    if events == [] then w.approved == {} && w.pending == {}
    else Run(w, events[..|events| - 1]) && Legal(After(w, events[..|events| - 1]), events[|events| - 1])
  }

  lemma Extend(w: World, events: seq<Event>, e: Event)
    requires Run(w, events) && Legal(After(w, events), e)
    ensures Run(w, events + [e]) && After(w, events + [e]) == Effect(After(w, events), e)
  {
    assert (events + [e])[..|events|] == events;
  }

  lemma {:induction false} RunAt(w: World, events: seq<Event>, i: nat)
    requires Run(w, events) && i < |events|
    ensures Run(w, events[..i]) && Legal(After(w, events[..i]), events[i])
    ensures After(w, events[..i + 1]) == Effect(After(w, events[..i]), events[i])
  {
    var before := events[..|events| - 1];
    if i < |before| {
      RunAt(w, before, i);
      assert before[..i] == events[..i] && before[..i + 1] == events[..i + 1];
    } else {
      assert events[..i + 1] == events && events[..i] == before;
    }
  }

  /****** Safety over every run ******/

  // While an operation runs, what is granted and what is still to be granted make up
  // the intent, nothing of it twice, and only that may pass the transport.
  ghost predicate Inv(w: World) {
    && (w.approved != {} ==>
          && Distinct(w.live)
          && (forall a :: a in w.intent <==> a in w.live || a in w.pending)
          && w.pending !! (set a | a in w.live))
    && (w.approved == {} ==> w.pending == {})
    && (forall pair | pair in w.approved :: pair.0 == PostPath(pair.1.content) && NarrowConsent(pair.1.content))
    && (forall pair | pair in w.approved :: pair.1.content in w.intent)
  }

  lemma InvKept(w: World, e: Event)
    requires Inv(w) && Legal(w, e)
    ensures Inv(Effect(w, e))
  {
    if e.Approve? {
      var missing := MissingAccess(e.intent, w.live).value;
      assert missing != {} ==> exists a :: a in missing;
      if missing != {} {
        var a :| a in missing;
        assert (PostPath(a), Digest(a)) in Pairs(missing);
      }
    }
  }

  lemma {:induction false} InvHolds(w: World, events: seq<Event>)
    requires Run(w, events)
    ensures Inv(After(w, events))
  {
    if events != [] {
      InvHolds(w, events[..|events| - 1]);
      InvKept(After(w, events[..|events| - 1]), events[|events| - 1]);
    }
  }

  // In every run, whatever else has happened, a write posts a document of the
  // approved intent to its own path, grants it for one named user only, and never
  // grants what is granted already.
  lemma PostsAreApprovedAndNew(w: World, events: seq<Event>, i: nat)
    requires Run(w, events) && i < |events| && events[i].Post?
    ensures var before, access := After(w, events[..i]), events[i].access;
            && events[i].path == PostPath(access) && NarrowConsent(access)
            && access in before.intent && access !in before.live
            && Distinct(After(w, events[..i + 1]).live)
            && forall a | a in After(w, events[..i + 1]).live :: a in before.intent
  {
    RunAt(w, events, i);
    InvHolds(w, events[..i]);
    var before, access := After(w, events[..i]), events[i].access;
    assert (events[i].path, Digest(access)) in before.approved;
    assert access !in (set a | a in before.live);
  }

  // Grants are never withdrawn, so without foreign edits what was live stays live.
  lemma {:induction false} GrantsOnlyGrow(w: World, events: seq<Event>, i: nat)
    requires i <= |events| && forall e | e in events :: !e.Foreign?
    ensures After(w, events[..i]).live <= After(w, events).live
  {
    if i < |events| {
      var before := events[..|events| - 1];
      assert forall e | e in before :: e in events;
      GrantsOnlyGrow(w, before, i);
      assert before[..i] == events[..i];
      assert events[|events| - 1] in events;
    } else {
      assert events[..i] == events;
    }
  }

  // However often the operation is interrupted, replanned and repeated, no grant is
  // created twice, and none that existed at the start.
  lemma EachGrantIsCreatedOnce(w: World, events: seq<Event>, i: nat, j: nat)
    requires Run(w, events) && forall e | e in events :: !e.Foreign?
    requires i < j < |events| && events[i].Post? && events[j].Post?
    ensures events[i].access != events[j].access && events[i].access !in w.live
  {
    PostsAreApprovedAndNew(w, events, i);
    PostsAreApprovedAndNew(w, events, j);
    RunAt(w, events, i);
    assert forall e | e in events[..j] :: e in events;
    GrantsOnlyGrow(w, events[..j], i + 1);
    assert events[..j][..i + 1] == events[..i + 1];
    assert After(w, events[..i + 1]).live == After(w, events[..i]).live + [events[i].access];
    assert events[i].access == After(w, events[..i + 1]).live[|After(w, events[..i]).live|];
    assert events[i].access in After(w, events[..j]).live;
    assert forall e | e in events[..i] :: e in events;
    GrantsOnlyGrow(w, events[..i], 0);
    assert events[..i][..0] == [];
  }

  /****** The operator ******/

  datatype Plan = Plan(directory: Directory, before: seq<Access>, intent: seq<Access>, create: set<Access>)

  function PlanOf(id: ObjectId, directory: Directory, bindings: seq<Binding>, live: seq<Access>): Option<Plan> {
    var intent := Intended(id, directory, bindings);
    if intent.None? then None
    else
      var missing := MissingAccess(intent.value, live);
      if missing.None? then None else Some(Plan(directory, live, intent.value, missing.value))
  }

  // Once all that was missing has been added, the closing read finds nothing missing.
  lemma NothingIsLeft(intent: seq<Access>, before: seq<Access>, missing: set<Access>, live: seq<Access>)
    requires MissingAccess(intent, before) == Some(missing) && Distinct(live)
    requires (forall a :: a in live ==> a in before || a in missing) && (forall a | a in missing :: a in live) && before <= live
    ensures MissingAccess(intent, live) == Some({})
  {
    assert forall a | a in before :: a in live;
    assert forall a | a in live :: a in intent;
    assert (set a | a in intent) - (set a | a in live) == {};
  }

  // The directory as one operator at a time changes it. Unless the connection is
  // `reliable`, any write may be interrupted before or after it takes effect; when
  // the directory is `shared`, others edit it until the transport is opened.
  class GraphAccess {
    const objectId: ObjectId
    const reliable: bool
    const shared: bool
    var directory: Directory
    var live: seq<Access>
    var approved: set<(string, Digest<Access>)>
    ghost var pending: set<Access>
    ghost var intent: seq<Access>
    ghost const start: World
    ghost var events: seq<Event>

    ghost function Now(): World
      reads this
    {
      World(live, approved, pending, intent)
    }

    ghost predicate Valid()
      reads this
    {
      Run(start, events) && After(start, events) == Now()
    }

    // No operation is running.
    ghost predicate Idle()
      reads this
    {
      approved == {} && pending == {}
    }

    constructor (objectId: ObjectId, directory: Directory, live: seq<Access>, reliable: bool, shared: bool)
      ensures Valid() && Idle() && events == [] && this.live == live && this.directory == directory
      ensures this.objectId == objectId && this.reliable == reliable && this.shared == shared
    {
      this.directory, this.live, this.approved, this.pending, this.intent := directory, live, {}, {}, [];
      this.objectId, this.reliable, this.shared := objectId, reliable, shared;
      this.start, this.events := World(live, {}, {}, []), [];
    }

    method Fault() returns (failed: bool)
      ensures reliable ==> !failed
    {
      failed := *;
      if reliable { failed := false; }
    }

    ghost method Record(e: Event)
      requires Valid() && Legal(Now(), e)
      modifies this`events
      ensures events == old(events) + [e] && Run(start, events) && After(start, events) == Effect(Now(), e)
    {
      Extend(start, events, e);
      events := events + [e];
    }

    method Interfere()
      requires Valid() && Idle()
      modifies this`live, this`directory, this`events
      ensures Valid() && old(events) <= events
      ensures !shared ==> live == old(live) && directory == old(directory) && events == old(events)
    {
      if shared {
        var edited: seq<Access> := *;
        directory := *;
        Record(Foreign(edited));
        live := edited;
      }
    }

    // GraphAccess.request for a write: refused unless this very document was approved
    // for this very path.
    method Request(path: string, document: Access) returns (failed: bool)
      requires Valid() && document in pending && (document.Grant? ==> forall a | a in pending :: a.Grant?)
      modifies this`live, this`pending, this`events
      ensures Valid() && old(events) <= events
      ensures (path, Digest(document)) !in approved ==> failed && live == old(live) && pending == old(pending) && events == old(events)
      ensures !failed ==> live == old(live) + [document] && pending == old(pending) - {document} && Distinct(live)
      ensures failed ==> live in {old(live), old(live) + [document]}
      ensures reliable && (path, Digest(document)) in approved ==> !failed
    {
      if (path, Digest(document)) !in approved { return true; }
      InvHolds(start, events);
      assert document !in (set a | a in live);
      var interrupted := Fault();
      if interrupted { return true; }
      Record(Post(path, document));
      live, pending := live + [document], pending - {document};
      failed := Fault();
    }

    // GraphAccess.approve.
    method Approve(missing: set<Access>, ghost wanted: seq<Access>) returns (failed: bool)
      requires Valid() && Idle() && MissingAccess(wanted, live) == Some(missing)
      modifies this`approved, this`pending, this`intent, this`events
      ensures Valid() && old(events) <= events
      ensures failed <==> exists a | a in missing :: !NarrowConsent(a)
      ensures failed ==> Idle() && events == old(events)
      ensures !failed ==> approved == Pairs(missing) && pending == missing && intent == wanted
    {
      if exists a | a in missing :: !NarrowConsent(a) { return true; }
      Record(Event.Approve(wanted));
      approved, pending, intent := Pairs(missing), missing, wanted;
      return false;
    }

    // The process ends here, whether it has finished or not.
    method End()
      requires Valid()
      modifies this`approved, this`pending, this`intent, this`events
      ensures Valid() && Idle() && old(events) <= events
    {
      Record(Stop);
      approved, pending, intent := {}, {}, [];
    }

    // One write loop of grant_access over one kind of document.
    method PostAll(documents: set<Access>) returns (failed: bool)
      requires Valid() && Distinct(live) && documents <= pending && (forall a | a in pending :: (PostPath(a), Digest(a)) in approved)
      requires forall a | a in documents :: a.Grant? ==> pending == documents && forall b | b in documents :: b.Grant?
      modifies this`live, this`pending, this`events
      ensures Valid() && old(events) <= events && old(live) <= live
      ensures forall a :: a in live ==> a in old(live) || a in documents
      ensures !failed ==> pending == old(pending) - documents && Distinct(live) && forall a | a in documents :: a in live
      ensures !failed ==> |live| == |old(live)| + |documents|
      ensures reliable ==> !failed
    {
      var remaining := documents;
      while remaining != {}
        invariant Valid() && Distinct(live) && old(events) <= events && old(live) <= live
        invariant remaining <= documents && pending == old(pending) - (documents - remaining)
        invariant forall a :: a in live ==> a in old(live) || a in documents
        invariant forall a | a in documents - remaining :: a in live
        invariant |live| == |old(live)| + |documents| - |remaining|
        decreases remaining
      {
        var document :| document in remaining;
        failed := Request(PostPath(document), document);
        if failed { return; }
        remaining := remaining - {document};
      }
      return false;
    }

    // Both write loops: the roles first, then the consents.
    method PostMissing(missing: set<Access>) returns (failed: bool)
      requires Valid() && Distinct(live) && pending == missing && approved == Pairs(missing)
      modifies this`live, this`pending, this`events
      ensures Valid() && old(events) <= events && old(live) <= live
      ensures forall a :: a in live ==> a in old(live) || a in missing
      ensures !failed ==> pending == {} && Distinct(live) && |live| == |old(live)| + |missing| && forall a | a in missing :: a in live
      ensures reliable ==> !failed
    {
      var roles, grants := (set a | a in missing && a.Role?), (set a | a in missing && a.Grant?);
      assert roles !! grants && missing == roles + grants;
      failed := PostAll(roles);
      if failed { return; }
      assert pending == grants;
      failed := PostAll(grants);
    }

    // The writes of an approved plan and the closing read.
    method ExecutePlan(plan: Plan) returns (ok: bool)
      requires Valid() && Idle() && MissingAccess(plan.intent, live) == Some(plan.create)
      requires forall a | a in plan.intent :: NarrowConsent(a)
      modifies this`live, this`approved, this`pending, this`intent, this`events
      ensures Valid() && Idle() && old(events) <= events && old(live) <= live
      ensures forall a | a in live :: a in plan.intent
      ensures ok ==> MissingAccess(plan.intent, live) == Some({}) && |live| == |old(live)| + |plan.create|
      ensures reliable ==> ok
    {
      hide Run, After, Pairs, Inv, Legal, Effect, Distinct;
      ghost var before := live;
      var refused := Approve(plan.create, plan.intent);
      if refused { return false; }
      var failed := PostMissing(plan.create);
      if failed { End(); return false; }
      NothingIsLeft(plan.intent, before, plan.create, live);
      var unsaved := Fault();   // the receipt
      End();
      return !unsaved;
    }

    // One run of the operation. It creates exactly what the approved plan lists.
    method GrantAccess(bindings: seq<Binding>, execute: bool, approval: Digest<Plan>) returns (ok: bool)
      requires Valid() && Idle()
      modifies this
      ensures Valid() && Idle() && old(events) <= events
      ensures var plan := PlanOf(objectId, old(directory), bindings, old(live));
              plan.None? || !execute || approval != Digest(plan.value) ==>
                live == old(live) && directory == old(directory) && events == old(events) && (ok <==> plan.Some? && !execute)
      ensures ok && execute ==>
                && directory == old(directory) && old(live) <= live
                && PlanOf(objectId, directory, bindings, live).Some? && PlanOf(objectId, directory, bindings, live).value.create == {}
                && |live| == |old(live)| + |PlanOf(objectId, old(directory), bindings, old(live)).value.create|
      ensures !shared ==> old(live) <= live
      ensures var plan := PlanOf(objectId, old(directory), bindings, old(live));
              !shared && plan.Some? ==> forall a | a in live :: a in plan.value.intent
      ensures var plan := PlanOf(objectId, old(directory), bindings, old(live));
              reliable && !shared && plan.Some? && approval == Digest(plan.value) ==> ok
    {
      hide Run, After, Intended, Pairs, Inv, Legal, Effect, Distinct;
      var plan := PlanOf(objectId, directory, bindings, live);
      if plan.None? { return false; }
      if !execute { return true; }
      if approval != Digest(plan.value) { return false; }
      Interfere();
      if live != plan.value.before || directory != plan.value.directory { return false; }
      IntentIsNarrow(objectId, directory, bindings);
      ok := ExecutePlan(plan.value);
    }
  }
}
