// ACME issuance for the API host: write-ahead state in a versioned secret, an
// order placed at most once, and exact conditional edits of a shared TXT record
// (DNS-01, section 8.4 of RFC 8555).
module CertificateRuntime {
  import opened Common

  /****** State, orders and the shared record ******/

  // A private key is its serial number: generated keys never repeat.
  type Key = nat

  datatype Csr = Csr(key: Key, host: string)

  // An order as persisted: the CSR it names, its one authorization and its DNS-01
  // token. `trusted` says that every URL in it stays with the fixed authority.
  datatype Order = Order(csr: Csr, host: string, authorized: bool, token: string, trusted: bool)

  // The issued chain followed by the private key.
  datatype Pem = Pem(chain: string, key: Key)

  datatype Phase = Prepared | Ordering | Ordered | Issued

  datatype State = State(
    host: string, key: Key, csr: Csr, phase: Phase,
    order: Option<Order>, validation: Option<string>, pem: Option<Pem>)

  // One value of the TXT record: a validation token of this workflow, or a value
  // that belongs to somebody else.
  datatype TxtValue = Ours(token: string) | Theirs(text: string)

  datatype Record = Record(etag: nat, values: seq<TxtValue>)

  function Values(record: Option<Record>): seq<TxtValue> {
    if record.None? then [] else record.value.values
  }

  function Foreign(values: seq<TxtValue>): seq<TxtValue> {
    if values == [] then []
    else (if values[0].Theirs? then [values[0]] else []) + Foreign(values[1..])
  }

  function Own(values: seq<TxtValue>): seq<TxtValue> {
    if values == [] then []
    else (if values[0].Ours? then [values[0]] else []) + Own(values[1..])
  }

  // list.remove: drop the first occurrence.
  function Without(values: seq<TxtValue>, own: TxtValue): seq<TxtValue> {
    if values == [] then []
    else if values[0] == own then values[1..]
    else [values[0]] + Without(values[1..], own)
  }

  lemma {:induction false} AppendParts(values: seq<TxtValue>, own: TxtValue)
    requires own.Ours?
    ensures Foreign(values + [own]) == Foreign(values) && Own(values + [own]) == Own(values) + [own]
  {
    if values != [] {
      assert (values + [own])[1..] == values[1..] + [own];
      AppendParts(values[1..], own);
    }
  }

  lemma {:induction false} WithoutParts(values: seq<TxtValue>, own: TxtValue)
    requires own.Ours?
    ensures Foreign(Without(values, own)) == Foreign(values)
    ensures Own(values) == [own] ==> Own(Without(values, own)) == []
    ensures own in values <==> own in Own(values)
  {
    if values != [] {
      WithoutParts(values[1..], own);
      if values[0] != own {
        assert Without(values, own) == [values[0]] + Without(values[1..], own);
        if values[0].Ours? {
          assert Own(values)[0] == values[0];
        } else {
          assert Own(values) == Own(values[1..]);
          assert Own(Without(values, own)) == Own(Without(values[1..], own));
        }
      }
    }
  }

  /****** The protocol as a relation over its remote effects ******/

  // `states` and `published` are the versions of the two vault secrets; `orders`
  // the CSRs submitted to the authority; `armed` says that the running operation
  // itself has just saved the ordering phase.
  datatype World = World(
    states: seq<State>, published: seq<Pem>, orders: seq<Csr>, armed: bool, record: Option<Record>)

  datatype Event =
    | Start
    | Save(state: State)
    | NewOrder
    | Put(record: Record)
    | Publish
    | ForeignPut(edited: Option<Record>)

  function Current(w: World): Option<State> {
    if w.states == [] then None else Some(w.states[|w.states| - 1])
  }

  function Latest(pems: seq<Pem>): Option<Pem> {
    if pems == [] then None else Some(pems[|pems| - 1])
  }

  // The state an operation continues from: an issued certificate that is already
  // published is done with.
  function Pending(w: World): Option<State> {
    var current := Current(w);
    if current.Some? && current.value.phase == Issued && current.value.pem == Latest(w.published) then None else current
  }

  function Effect(w: World, e: Event): World {
    match e
    case Start => w.(armed := false)
    case Save(state) => w.(states := w.states + [state], armed := state.phase == Ordering)
    case NewOrder => if Current(w).None? then w else w.(orders := w.orders + [Current(w).value.csr], armed := false)
    case Put(record) => w.(record := Some(record))
    case Publish =>
      if Current(w).None? || Current(w).value.pem.None? then w
      else w.(published := w.published + [Current(w).value.pem.value])
    case ForeignPut(record) => w.(record := record)
  }

  // A new issuance starts with a key nobody has used.
  predicate Fresh(w: World, state: State) {
    && state == State(state.host, state.key, Csr(state.key, state.host), Prepared, None, None, None)
    && forall s | s in w.states :: s.key != state.key
  }

  // The only ways the persisted state moves on.
  predicate Advances(now: State, next: State) {
    || (now.phase == Prepared && next == now.(phase := Ordering))
    || (now.phase == Ordering && next.order.Some? && next == now.(phase := Ordered, order := next.order))
    || (now.phase == Ordered && now.order.Some? && next == now.(validation := Some(now.order.value.token)))
    || (now.phase == Ordered && next.pem.Some? && next.pem.value.key == now.key
        && next == now.(phase := Issued, pem := next.pem))
  }

  // Others may remove what is ours, with the record or from it, but do not forge it.
  predicate OursKept(record: Option<Record>, edited: Option<Record>) {
    Own(Values(edited)) == [] || Own(Values(edited)) == Own(Values(record))
  }

  predicate Legal(w: World, e: Event, shared: bool) {
    match e
    case Start => true
    case Save(state) =>
      || (Pending(w).None? && Fresh(w, state))
      || (Pending(w).Some? && Advances(Pending(w).value, state))
    case NewOrder => w.armed && Current(w).Some? && Current(w).value.phase == Ordering
    case Put(record) =>
      && Current(w).Some? && Current(w).value.validation.Some?
      && var own := Ours(Current(w).value.validation.value);
      if own in Values(w.record) then record.values == Without(Values(w.record), own)
      else Current(w).value.phase == Ordered && record.values == Values(w.record) + [own]
    case Publish =>
      && Current(w).Some? && Current(w).value.phase == Issued && Current(w).value.pem.Some?
      && Own(Values(w.record)) == []
    case ForeignPut(record) => shared && OursKept(w.record, record)
  }

  function After(w: World, events: seq<Event>): World {
    if events == [] then w else Effect(After(w, events[..|events| - 1]), events[|events| - 1])
  }

  // A run from an empty vault, an authority that has seen none of its CSRs and a
  // record that holds nothing of ours.
  ghost predicate Run(w: World, events: seq<Event>, shared: bool) {
    if events == [] then w.states == [] && w.published == [] && w.orders == [] && !w.armed && Own(Values(w.record)) == []
    else Run(w, events[..|events| - 1], shared) && Legal(After(w, events[..|events| - 1]), events[|events| - 1], shared)
  }

  lemma Extend(w: World, events: seq<Event>, e: Event, shared: bool)
    requires Run(w, events, shared) && Legal(After(w, events), e, shared)
    ensures Run(w, events + [e], shared) && After(w, events + [e]) == Effect(After(w, events), e)
  {
    assert (events + [e])[..|events|] == events;
  }

  /****** Safety over every run ******/

  ghost predicate Coherent(state: State) {
    && state.csr == Csr(state.key, state.host)
    && (state.phase in {Ordered, Issued} <==> state.order.Some?)
    && (state.phase == Issued <==> state.pem.Some?)
    && (state.pem.Some? ==> state.pem.value.key == state.key)
    && (state.validation.Some? ==> state.order.Some? && state.validation.value == state.order.value.token)
  }

  ghost predicate Inv(w: World) {
    && (forall s | s in w.states :: Coherent(s))
    && (forall i, j | 0 <= i < j < |w.orders| :: w.orders[i] != w.orders[j])
    && (forall c | c in w.orders :: exists s :: s in w.states && s.csr == c && s.phase == Ordering)
    && (w.armed ==> Current(w).Some? && Current(w).value.phase == Ordering)
    && (Current(w).Some? && (Current(w).value.phase == Prepared || w.armed) ==> Current(w).value.csr !in w.orders)
    && (forall p | p in w.published :: exists s :: s in w.states && s.key == p.key)
    && (Current(w).Some? && Current(w).value.phase != Issued ==> forall p | p in w.published :: p.key != Current(w).value.key)
    && OwnNamed(w)
  }

  // The record holds nothing of ours, or just the value the pending state names.
  predicate OwnNamed(w: World) {
    || Own(Values(w.record)) == []
    || (&& Pending(w).Some? && Pending(w).value.validation.Some?
        && Own(Values(w.record)) == [Ours(Pending(w).value.validation.value)])
  }

  lemma InvKeptBySave(w: World, state: State, shared: bool)
    requires Inv(w) && Legal(w, Save(state), shared)
    ensures Inv(Effect(w, Save(state)))
  {
    var next := Effect(w, Save(state));
    assert Current(next) == Some(state);
    forall s | s in next.states
      ensures Coherent(s)
    {
      if s !in w.states { assert s == state; assert Current(w).Some? ==> Current(w).value in w.states; }
    }
    forall c | c in next.orders
      ensures exists s :: s in next.states && s.csr == c && s.phase == Ordering
    {
      var s :| s in w.states && s.csr == c && s.phase == Ordering;
      assert s in next.states;
    }
    forall p | p in next.published
      ensures exists s :: s in next.states && s.key == p.key
    {
      var s :| s in w.states && s.key == p.key;
      assert s in next.states;
    }
    if Pending(w).None? {
      assert forall s | s in w.states :: Coherent(s) && s.csr != state.csr;
    } else {
      assert Current(w).value in w.states && Coherent(Current(w).value);
      assert w.published != [] ==> w.published[|w.published| - 1] in w.published;
    }
  }

  // Everything but the record is as it was.
  lemma InvKeptByRecord(w: World, record: Option<Record>)
    requires Inv(w) && OwnNamed(w.(record := record))
    ensures Inv(w.(record := record))
  {
    hide Coherent, Own;
  }

  lemma InvKeptByPut(w: World, record: Record, shared: bool)
    requires Inv(w) && Legal(w, Event.Put(record), shared)
    ensures Inv(Effect(w, Event.Put(record)))
  {
    hide Foreign, Without, Coherent;
    var own := Ours(Current(w).value.validation.value);
    AppendParts(Values(w.record), own);
    WithoutParts(Values(w.record), own);
    InvKeptByRecord(w, Some(record));
  }

  lemma InvKeptByPublish(w: World, shared: bool)
    requires Inv(w) && Legal(w, Publish, shared)
    ensures Inv(Effect(w, Publish))
  {
    hide Own, Values;
    assert Current(w).value in w.states && Coherent(Current(w).value);
  }

  lemma InvKeptByOrder(w: World, shared: bool)
    requires Inv(w) && Legal(w, NewOrder, shared)
    ensures Inv(Effect(w, NewOrder))
  {
    hide Own, Values, Coherent;
    assert Current(w).value in w.states;
  }

  lemma InvKept(w: World, e: Event, shared: bool)
    requires Inv(w) && Legal(w, e, shared)
    ensures Inv(Effect(w, e))
  {
    hide Coherent, Own, Advances;
    match e
    case Save(state) => InvKeptBySave(w, state, shared);
    case Put(record) => InvKeptByPut(w, record, shared);
    case Publish => InvKeptByPublish(w, shared);
    case NewOrder => InvKeptByOrder(w, shared);
    case ForeignPut(record) => InvKeptByRecord(w, record);
    case Start =>
  }

  lemma {:induction false} InvHolds(w: World, events: seq<Event>, shared: bool)
    requires Run(w, events, shared)
    ensures Inv(After(w, events))
  {
    if events != [] {
      InvHolds(w, events[..|events| - 1], shared);
      InvKept(After(w, events[..|events| - 1]), events[|events| - 1], shared);
    }
  }

  // Crashes, lost acknowledgements and retries included, no CSR is ever ordered twice.
  lemma OrderedAtMostOnce(w: World, events: seq<Event>, shared: bool)
    requires Run(w, events, shared)
    ensures var orders := After(w, events).orders;
            forall i, j | 0 <= i < j < |orders| :: orders[i] != orders[j]
  {
    InvHolds(w, events, shared);
  }

  // Our validation value is in the record, once, only while the current durable
  // state names it and its certificate is not published.
  lemma RecordHoldsOnlyTheNamedValue(w: World, events: seq<Event>, shared: bool, token: string)
    requires Run(w, events, shared) && Ours(token) in Values(After(w, events).record)
    ensures var now := After(w, events);
            && Pending(now).Some? && Pending(now).value.validation == Some(token)
            && Own(Values(now.record)) == [Ours(token)]
  {
    InvHolds(w, events, shared);
    WithoutParts(Values(After(w, events).record), Ours(token));
  }

  // What others left in the record: only their own writes change it.
  function ForeignAfter(start: seq<TxtValue>, events: seq<Event>): seq<TxtValue> {
    if events == [] then Foreign(start)
    else
      var last := events[|events| - 1];
      if last.ForeignPut? then Foreign(Values(last.edited)) else ForeignAfter(start, events[..|events| - 1])
  }

  lemma {:induction false} ForeignValuesAreTheirs(w: World, events: seq<Event>, shared: bool)
    requires Run(w, events, shared)
    ensures Foreign(Values(After(w, events).record)) == ForeignAfter(Values(w.record), events)
  {
    hide Foreign, Editable, Edited, Advances;
    if events != [] {
      var before := events[..|events| - 1];
      ForeignValuesAreTheirs(w, before, shared);
      var now, e := After(w, before), events[|events| - 1];
      if e.Put? { PutKeepsForeign(now, e, shared); }
    }
  }

  // Our own edit leaves the others' values as they are.
  lemma PutKeepsForeign(now: World, e: Event, shared: bool)
    requires Legal(now, e, shared) && e.Put?
    ensures Foreign(Values(Effect(now, e).record)) == Foreign(Values(now.record))
  {
    var own := Ours(Current(now).value.validation.value);
    AppendParts(Values(now.record), own);
    WithoutParts(Values(now.record), own);
  }

  function Rank(phase: Phase): nat {
    match phase case Prepared => 0 case Ordering => 1 case Ordered => 2 case Issued => 3
  }

  // `later` is the same issuance as `earlier`, further on: the same key and CSR, no
  // earlier phase, the order kept and an issued certificate final.
  ghost predicate Progress(earlier: State, later: State) {
    && earlier.csr == later.csr
    && Rank(earlier.phase) <= Rank(later.phase)
    && (earlier.order.Some? ==> later.order == earlier.order)
    && (earlier.phase == Issued ==> later == earlier)
  }

  // Two persisted versions with one key are stages of one issuance; a version with
  // another key begins a new one.
  lemma {:induction false} PersistedStatesProgress(w: World, events: seq<Event>, shared: bool, i: nat, j: nat)
    requires Run(w, events, shared)
    requires i <= j < |After(w, events).states|
    ensures var states := After(w, events).states;
            states[i].key == states[j].key ==> Progress(states[i], states[j])
    decreases |events|, j
  {
    hide Advances;
    if events != [] && i < j {
      var before, e := events[..|events| - 1], events[|events| - 1];
      var now, states := After(w, before), After(w, events).states;
      if j < |now.states| {
        PersistedStatesProgress(w, before, shared, i, j);
      } else {
        assert e.Save? && states == now.states + [e.state];
        if Pending(now).Some? {
          PersistedStatesProgress(w, before, shared, i, j - 1);
          InvHolds(w, before, shared);
          AdvancesProgress(now.states[j - 1], states[j]);
        } else {
          assert states[i] in now.states;
        }
      }
    }
  }

  lemma AdvancesProgress(now: State, next: State)
    requires Advances(now, next) && Coherent(now)
    ensures now.key == next.key && Progress(now, next) && now.phase != Issued
  {
  }

  /****** The operator ******/

  // What an operation is approved for.
  datatype Plan = Plan(host: string, currentVersion: nat, stateVersion: nat, keep: bool)

  predicate GoodOrder(order: Order, state: State) {
    order.csr == state.csr && order.host == state.host && order.trusted
  }

  // The record as change() would leave it.
  function Edited(values: seq<TxtValue>, own: TxtValue, remove: bool): seq<TxtValue> {
    if remove then Without(values, own) else values + [own]
  }

  predicate Editable(w: World, own: TxtValue, remove: bool) {
    && Current(w).Some? && Current(w).value.validation.Some? && own == Ours(Current(w).value.validation.value)
    && (!remove ==> Current(w).value.phase == Ordered)
    && (own in Values(w.record) <==> remove)
  }

  lemma OwnValueFacts(w: World, own: TxtValue)
    requires OwnNamed(w) && Current(w).Some? && Current(w).value.validation.Some?
    requires own == Ours(Current(w).value.validation.value)
    ensures if own in Values(w.record) then Own(Values(w.record)) == [own] else Own(Values(w.record)) == []
  {
    WithoutParts(Values(w.record), own);
  }

  lemma EditFacts(w: World, own: TxtValue, remove: bool)
    requires OwnNamed(w) && Editable(w, own, remove)
    ensures Own(Edited(Values(w.record), own, remove)) == if remove then [] else [own]
    ensures own in Edited(Values(w.record), own, remove) <==> !remove
    ensures forall etag, shared :: Legal(w, Put(Record(etag, Edited(Values(w.record), own, remove))), shared)
  {
    hide Pending, OwnNamed;
    OwnValueFacts(w, own);
    AppendParts(Values(w.record), own);
    WithoutParts(Values(w.record), own);
    WithoutParts(Edited(Values(w.record), own, remove), own);
  }

  lemma CurrentFacts(w: World, events: seq<Event>, shared: bool)
    requires Run(w, events, shared)
    ensures var now := After(w, events);
            Current(now).Some? ==>
              Coherent(Current(now).value) && (Current(now).value.validation.None? ==> Own(Values(now.record)) == [])
  {
    InvHolds(w, events, shared);
    var now := After(w, events);
    assert Current(now).Some? ==> Current(now).value in now.states;
  }

  // The vault, the certificate authority and the DNS zone as one operator at a time
  // drives them. `reliable` means that calls are not interrupted and the authority
  // answers well; `shared` lets others edit the TXT record at any moment.
  class Workflow {
    const host: string
    const shared: bool
    const reliable: bool
    var states: seq<State>
    var published: seq<Pem>
    ghost var orders: seq<Csr>
    ghost var armed: bool
    var record: Option<Record>
    var tags: nat
    var keys: nat
    ghost const start: World
    ghost var events: seq<Event>

    ghost function Now(): World
      reads this
    {
      World(states, published, orders, armed, record)
    }

    ghost predicate Valid()
      reads this
    {
      && Run(start, events, shared) && After(start, events) == Now()
      && (record.Some? ==> record.value.etag < tags)
      && (forall s | s in states :: s.key < keys && s.host == host)
      && (reliable ==> forall s | s in states && s.order.Some? :: GoodOrder(s.order.value, s))
    }

    // The state secret as the operation in progress knows it.
    function Here(): Option<State>
      reads this
    {
      if states == [] then None else Some(states[|states| - 1])
    }

    constructor (host: string, record: Option<Record>, tags: nat, shared: bool, reliable: bool)
      requires Own(Values(record)) == [] && (record.Some? ==> record.value.etag < tags)
      ensures Valid() && events == [] && states == [] && published == [] && orders == []
      ensures this.host == host && this.shared == shared && this.reliable == reliable && this.record == record
    {
      this.host, this.shared, this.reliable, this.record, this.tags, this.keys := host, shared, reliable, record, tags, 0;
      this.states, this.published, this.orders, this.armed := [], [], [], false;
      this.start, this.events := World([], [], [], false, record), [];
    }

    method Fault() returns (failed: bool)
      ensures reliable ==> !failed
    {
      failed := *;
      if reliable { failed := false; }
    }

    ghost method Log(e: Event)
      requires Run(start, events, shared) && After(start, events) == Now() && Legal(Now(), e, shared)
      modifies this`events, this`orders, this`armed
      ensures events == old(events) + [e] && Run(start, events, shared) && After(start, events) == Effect(old(Now()), e)
      ensures orders == Effect(old(Now()), e).orders && armed == Effect(old(Now()), e).armed
    {
      Extend(start, events, e, shared);
      var next := Effect(Now(), e);
      orders, armed, events := next.orders, next.armed, events + [e];
    }

    // Write a new version of the state secret.
    method SaveState(state: State) returns (ok: bool)
      requires Valid() && Legal(Now(), Save(state), shared)
      requires state.host == host && state.key < keys
      requires reliable && state.order.Some? ==> GoodOrder(state.order.value, state)
      modifies this
      ensures Valid() && old(events) <= events && published == old(published) && record == old(record) && orders == old(orders)
      ensures tags == old(tags) && keys == old(keys)
      ensures ok ==> states == old(states) + [state] && armed == (state.phase == Ordering)
      ensures !ok ==> states in {old(states), old(states) + [state]}
      ensures reliable ==> ok
    {
      var interrupted := Fault();
      if interrupted { return false; }
      Log(Save(state));
      states := states + [state];
      var unconfirmed := Fault();
      return !unconfirmed;
    }

    // Others may replace the record, and remove our value with it.
    method Interfere()
      requires Valid()
      modifies this`record, this`tags, this`events, this`orders, this`armed
      ensures Valid() && old(events) <= events && tags >= old(tags) && orders == old(orders) && armed == old(armed)
      ensures record == old(record) || record.None? || record.value.etag >= old(tags)
      ensures OursKept(old(record), record)
      ensures !shared ==> record == old(record) && events == old(events)
    {
      if shared {
        var edited: Option<Record> := *;
        if edited.Some? { edited := Some(edited.value.(etag := tags)); }
        if OursKept(record, edited) {
          tags := tags + 1;
          Log(ForeignPut(edited));
          record := edited;
        }
      }
    }

    // TxtChallenge.change: add or remove exactly our value, on condition that the
    // record is still the one read.
    method Change(token: string, remove: bool) returns (ok: bool)
      requires Valid() && Here().Some? && Here().value.validation == Some(token)
      requires !remove ==> Here().value.phase == Ordered
      modifies this`record, this`tags, this`events, this`orders, this`armed
      ensures Valid() && old(events) <= events && orders == old(orders) && armed == old(armed)
      ensures ok ==> (Ours(token) in Values(record) <==> !remove)
      ensures ok && remove ==> Own(Values(record)) == []
      ensures reliable && !shared ==> ok
    {
      hide Legal, Effect, Pending, OwnNamed;
      Interfere();
      var current := record;
      var own := Ours(token);
      InvHolds(start, events, shared);
      OwnValueFacts(Now(), own);
      if own in Values(current) <==> !remove { return true; }
      ok := PutRecord(current, own, remove);
    }

    // PUT the edited list with If-Match, or with If-None-Match when there was none.
    method PutRecord(current: Option<Record>, own: TxtValue, remove: bool) returns (ok: bool)
      requires Valid() && (current.Some? ==> current.value.etag < tags) && own.Ours?
      requires current.Some? && record.Some? && current.value.etag == record.value.etag ==> record == current
      requires !shared ==> record == current
      requires Editable(Now().(record := current), own, remove)
      modifies this`record, this`tags, this`events, this`orders, this`armed
      ensures Valid() && old(events) <= events && orders == old(orders) && armed == old(armed)
      ensures ok ==> (own in Values(record) <==> !remove) && (remove ==> Own(Values(record)) == [])
      ensures reliable && !shared ==> ok
    {
      hide Legal, Pending, OwnNamed;
      var edited := Edited(Values(current), own, remove);
      Interfere();
      if current.Some? && (record.None? || record.value.etag != current.value.etag) { return false; }
      if current.None? && record.Some? { return false; }
      ok := Install(edited, own, remove);
    }

    // The accepted request: it may be interrupted before or after it takes effect.
    method Install(edited: seq<TxtValue>, own: TxtValue, remove: bool) returns (ok: bool)
      requires Valid() && Editable(Now(), own, remove) && edited == Edited(Values(record), own, remove)
      modifies this`record, this`tags, this`events, this`orders, this`armed
      ensures Valid() && old(events) <= events && orders == old(orders) && armed == old(armed)
      ensures ok ==> (own in Values(record) <==> !remove) && (remove ==> Own(Values(record)) == [])
      ensures reliable ==> ok
    {
      hide Legal, Pending, OwnNamed;
      var interrupted := Fault();
      if interrupted { return false; }
      InvHolds(start, events, shared);
      EditFacts(Now(), own, remove);
      var next := Record(tags, edited);
      tags := tags + 1;
      Log(Event.Put(next));
      record := Some(next);
      var unconfirmed := Fault();
      return !unconfirmed;
    }

    // The one call that places an order; its answer may be lost.
    method NewAcmeOrder(state: State) returns (order: Option<Order>)
      requires Valid() && armed && Here() == Some(state) && state.phase == Ordering && state.host == host
      modifies this`events, this`orders, this`armed
      ensures Valid() && old(events) <= events
      ensures orders == old(orders) + [state.csr] || (order.None? && orders == old(orders))
      ensures order.Some? && reliable ==> GoodOrder(order.value, state)
      ensures reliable ==> order.Some?
    {
      hide Own, OwnNamed, Values, Latest, Advances;
      var interrupted := Fault();
      if interrupted { return None; }
      Log(NewOrder);
      var unconfirmed := Fault();
      if unconfirmed { return None; }
      var answer: Order := *;
      if reliable { answer := answer.(csr := state.csr, host := host, trusted := true); }
      return Some(answer);
    }

    // Save the ordering phase first, then place the order, then save what came back.
    method PlaceOrder() returns (ok: bool)
      requires Valid() && Here().Some? && Here().value.phase == Prepared
      modifies this
      ensures Valid() && old(events) <= events && published == old(published)
      ensures ok ==> && Here().Some? && Here().value.phase == Ordered && Here().value.key == old(Here()).value.key
                     && orders == old(orders) + [Here().value.csr]
      ensures |orders| <= |old(orders)| + 1
      ensures ok && reliable ==> Here().value.order.Some? && GoodOrder(Here().value.order.value, Here().value) && Here().value.host == host
      ensures reliable ==> ok
    {
      hide Own, OwnNamed, Values, Latest, Effect, Run, After;
      var state := Here().value;
      assert state in states;
      var saved := SaveState(state.(phase := Ordering));
      if !saved { return false; }
      var order := NewAcmeOrder(state.(phase := Ordering));
      if order.None? { return false; }
      ok := SaveState(state.(phase := Ordered, order := order));
    }

    // Prove control of the name when the authorization is not valid yet.
    method Authorize(order: Order) returns (ok: bool)
      requires Valid() && Here().Some? && Here().value.phase == Ordered && Here().value.order == Some(order)
      modifies this
      ensures Valid() && old(events) <= events && published == old(published) && orders == old(orders)
      ensures Here().Some? && Here().value == old(Here()).value.(validation := Here().value.validation)
      ensures reliable && !shared && order.host == host ==> ok
    {
      hide Own, Values, Effect, Run, After, Latest;
      if order.host != host { return false; }
      if order.authorized { return true; }
      var ambiguous := Fault();
      if ambiguous { return false; }
      var state := Here().value;
      assert state in states;
      InvHolds(start, events, shared);
      var saved := SaveState(state.(validation := Some(order.token)));
      if !saved { return false; }
      var added := Change(order.token, false);
      if !added { return false; }
      var refused := Fault();   // wait for propagation, answer the challenge
      return !refused;
    }

    // Poll, append the persisted key to the chain, check it and save it.
    method Finalize() returns (ok: bool)
      requires Valid() && Here().Some? && Here().value.phase == Ordered
      modifies this
      ensures Valid() && old(events) <= events && published == old(published) && orders == old(orders)
      ensures record == old(record)
      ensures ok ==> Here().Some? && Here().value.phase == Issued && Here().value.pem.Some?
                     && Here().value == old(Here()).value.(phase := Issued, pem := Here().value.pem)
                     && Here().value.pem.value.key == Here().value.key
      ensures !ok ==> Here().Some? && Here().value.validation == old(Here()).value.validation && Here().value.key == old(Here()).value.key
      ensures reliable ==> ok
    {
      var failed := Fault();
      if failed { return false; }
      var chain: string := *;
      var invalid := Fault();
      if invalid { return false; }
      var state := Here().value;
      assert state in states;
      ok := SaveState(state.(phase := Issued, pem := Some(Pem(chain, state.key))));
    }

    // One attempt to obtain the certificate. A PEM is returned only when its state is
    // saved, it ends in the persisted key and nothing of ours is left in the record.
    method Issue() returns (pem: Option<Pem>)
      requires Valid()
      modifies this
      ensures Valid() && old(events) <= events && published == old(published)
      ensures pem.Some? ==>
                && Here().Some? && Here().value.phase == Issued && Here().value.pem == pem
                && pem.value.key == Here().value.key && Own(Values(record)) == []
      ensures pem.Some? && old(Pending(Now())).Some? ==> pem.value.key == old(Pending(Now())).value.key
      ensures old(Pending(Now())).Some? && old(Pending(Now())).value.phase == Ordering ==>
                pem.None? && states == old(states) && orders == old(orders) && record == old(record)
      ensures old(Pending(Now())).Some? && old(Pending(Now())).value.phase != Prepared ==> orders == old(orders)
      ensures |orders| <= |old(orders)| + 1
      ensures reliable && !shared && (old(Pending(Now())).Some? ==> old(Pending(Now())).value.phase != Ordering) ==> pem.Some?
    {
      hide Run, After, Inv, Legal, Effect, OwnNamed;
      var begun := Begin();
      if !begun { return None; }
      if Here().value.phase == Ordering { return None; }
      if Here().value.phase == Prepared {
        var placed := PlaceOrder();
        if !placed { return None; }
      }
      pem := Deliver();
    }

    // From a placed order, or from a certificate issued but not yet handed out.
    method Deliver() returns (pem: Option<Pem>)
      requires Valid() && Here().Some? && Here().value.phase in {Ordered, Issued}
      requires reliable && Here().value.order.Some? ==> GoodOrder(Here().value.order.value, Here().value) && Here().value.host == host
      modifies this
      ensures Valid() && old(events) <= events && published == old(published) && orders == old(orders)
      ensures pem.Some? ==>
                && Here().Some? && Here().value.phase == Issued && Here().value.pem == pem
                && pem.value.key == Here().value.key == old(Here()).value.key && Own(Values(record)) == []
      ensures reliable && !shared ==> pem.Some?
    {
      hide Run, After, Inv, Legal, Effect, OwnNamed, Pending;
      CurrentFacts(start, events, shared);
      if Here().value.phase == Ordered {
        var state := Here().value;
        if state.order.value.csr != state.csr || !state.order.value.trusted { return None; }
        var killed := Complete(state.order.value);
        if killed || Here().value.phase != Issued { return None; }
      } else if Here().value.validation.Some? {
        var removed := Change(Here().value.validation.value, true);
        if !removed { return None; }
      }
      CurrentFacts(start, events, shared);
      return Here().value.pem;
    }

    // A new operation: continue the pending issuance, or save a new key and CSR.
    method Begin() returns (ok: bool)
      requires Valid()
      modifies this
      ensures Valid() && old(events) <= events && published == old(published) && orders == old(orders) && record == old(record)
      ensures ok ==> Here().Some? && (old(Pending(Now())).Some? ==> states == old(states))
      ensures ok && old(Pending(Now())).None? ==> Here().value.phase == Prepared
      ensures old(Pending(Now())).Some? ==> ok
      ensures ok && reliable && Here().value.order.Some? ==> GoodOrder(Here().value.order.value, Here().value) && Here().value.host == host
      ensures reliable ==> ok
    {
      hide OwnNamed, Own, Advances;
      Log(Start);
      if Here().None? || (Here().value.phase == Issued && Here().value.pem == Latest(published)) {
        ok := NewState();
      } else {
        ok := true;
        assert Here().value in states;
      }
    }

    // A key nobody has used, with its CSR.
    method NewState() returns (ok: bool)
      requires Valid() && Pending(Now()).None?
      modifies this
      ensures Valid() && old(events) <= events && published == old(published) && orders == old(orders) && record == old(record)
      ensures ok ==> Here() == Some(State(host, old(keys), Csr(old(keys), host), Prepared, None, None, None))
      ensures reliable ==> ok
    {
      hide Run, After, Effect, Own, OwnNamed, Advances;
      var key := keys;
      keys := keys + 1;
      ok := SaveState(State(host, key, Csr(key, host), Prepared, None, None, None));
    }

    // The try/finally: a failure that does not kill the process still removes our
    // value, and so does success before the certificate is handed out.
    method Complete(order: Order) returns (killed: bool)
      requires Valid() && Here().Some? && Here().value.phase == Ordered && Here().value.order == Some(order)
      modifies this
      ensures Valid() && old(events) <= events && published == old(published) && orders == old(orders)
      ensures Here().Some? && Here().value.key == old(Here()).value.key
      ensures !killed ==> Own(Values(record)) == [] && Here().value.phase == Issued
      ensures reliable && !shared && order.host == host ==> !killed
    {
      hide Run, After, Inv, Legal, Effect, OwnNamed, GoodOrder, Pending;
      var done := Authorize(order);
      if done { done := Finalize(); }
      if !done {
        var gone := Fault();
        if gone { return true; }
      }
      if Here().value.validation.Some? {
        var removed := Change(Here().value.validation.value, true);
        if !removed { return true; }
      }
      CurrentFacts(start, events, shared);
      return Here().value.phase != Issued;
    }

    // certificate_operation: issue unless the current certificate is kept, then store
    // the certificate as a new version.
    method CertificateOperation(keep: bool, approved: Digest<Plan>) returns (ok: bool)
      requires Valid()
      modifies this
      ensures Valid() && old(events) <= events
      ensures approved != Digest(Plan(host, |old(published)|, |old(states)|, keep)) || keep ==>
                Now() == old(Now()) && events == old(events)
      ensures ok && !keep ==>
                && Here().Some? && Here().value.pem.Some? && Here().value.pem.value.key == Here().value.key
                && published == old(published) + [Here().value.pem.value] && Own(Values(record)) == []
      ensures !ok ==> published == old(published) || (|published| == |old(published)| + 1 && old(published) <= published)
      ensures reliable && !shared && approved == Digest(Plan(host, |old(published)|, |old(states)|, keep))
              && (old(Pending(Now())).Some? ==> old(Pending(Now())).value.phase != Ordering) ==>
                ok
    {
      hide Run, After, Inv, Legal, Effect, OwnNamed;
      if approved != Digest(Plan(host, |published|, |states|, keep)) { return false; }
      if keep { return true; }
      var pem := Issue();
      if pem.None? { return false; }
      ok := StoreCertificate(pem.value);
    }

    // Store the issued certificate as a new version of its secret.
    method StoreCertificate(pem: Pem) returns (ok: bool)
      requires Valid() && Here().Some? && Here().value.phase == Issued && Here().value.pem == Some(pem) && Own(Values(record)) == []
      modifies this`published, this`events, this`orders, this`armed
      ensures Valid() && old(events) <= events
      ensures published == old(published) + [pem] || (!ok && published == old(published))
      ensures reliable ==> ok
    {
      hide Own, OwnNamed, Values, Latest, Advances;
      var interrupted := Fault();
      if interrupted { return false; }
      Log(Publish);
      published := published + [pem];
      var unconfirmed := Fault();
      return !unconfirmed;
    }
  }
}
