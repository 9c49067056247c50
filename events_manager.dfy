/**
 * The change detector and publication cycle of lib/manager/events_manager.js.
 *
 * The manager keeps, per agency, parallel dictionaries: a FIFO queue of
 * pending events, the previous and current snapshots of connections keyed by
 * '@id' with their id lists, and the number of events published in the last
 * cycle. `addEvent` records a connection and queues it when it is new or its
 * type or delays changed; `processEvents` swaps the snapshots, drains every
 * queue into one JSON-LD graph, writes the page when the publication rule
 * allows it, and runs the retention loop over the previous snapshot.
 *
 * The specification functions work on `Registry`, which holds the agencies in
 * creation order and, per agency, its entries of all the dictionaries as one
 * `Slot`. Class `EventsManager` holds the dictionaries as separate fields, as
 * the source does, and its methods are proved to move its state as those
 * functions say.
 */
module Manager {
  import opened Wrappers
  import opened Documents
  import opened JsArrays

  type ConnId = string

  /** An entry of a pending queue: `{id: new Date(), connection}`. */
  datatype PendingEvent = PendingEvent(id: Time, connection: Connection)

  /** An element that the retention loop expects at an array index: `{referenced, connection}`. */
  datatype Retained = Retained(referenced: int, connection: Connection)

  /** The JavaScript container behind a snapshot: `{}` has no `length`, `[]` has one. */
  datatype Container = PlainObject | JsArray

  /**
   * A snapshot container. Connections are stored under their '@id', a string
   * key (`byId`); `elems` are the array-indexed elements, which are all that an
   * array's `length` and `[e]` see. Connection ids are URIs, never array indices.
   */
  datatype Snapshot = Snapshot(kind: Container, byId: map<ConnId, Connection>, elems: seq<Retained>)

  /** `[]`, as at lines 41 and 162. */
  const EmptyArray := Snapshot(JsArray, map[], [])

  /** `{}`, as at line 44. */
  const EmptyObject := Snapshot(PlainObject, map[], [])

  /**
   * One agency's entries in the dictionaries `pendingEvents`, `previousEvents`,
   * `previousEventsIndex`, `_currentEventsIndex`, `_currentEvents` and
   * `previousPublishedEventsCounter`.
   */
  datatype Slot = Slot(pending: seq<PendingEvent>, previous: Snapshot, previousIndex: seq<ConnId>,
                       currentIndex: seq<ConnId>, current: Snapshot, published: nat)

  /** The structures of an unseen agency (lines 40-45). */
  const FreshSlot := Slot([], EmptyArray, [], [], EmptyObject, 0)

  /**
   * All the manager's dictionaries. `agencies` lists the keys of
   * `pendingEvents` in creation order, the order `Object.keys` gives them.
   */
  datatype Registry = Registry(agencies: seq<Agency>, slots: map<Agency, Slot>)

  /** The empty registry of the constructor (lines 9-14). */
  const EmptyRegistry := Registry([], map[])

  /** Each agency is listed once, and exactly the listed agencies have entries. */
  ghost predicate Keyed(r: Registry)
  {
    && (forall i, j :: 0 <= i < j < |r.agencies| ==> r.agencies[i] != r.agencies[j])
    && (forall a :: a in r.slots <==> a in r.agencies)
  }

  /** Every id of the list is a key of the snapshot, and the snapshot has no indexed elements. */
  ghost predicate Stored(index: seq<ConnId>, s: Snapshot)
  {
    s.elems == [] && forall id :: id in index ==> id in s.byId
  }

  /** Both index lists of an agency are backed by their snapshots. */
  ghost predicate SlotOk(s: Slot)
  {
    Stored(s.previousIndex, s.previous) && Stored(s.currentIndex, s.current)
  }

  /**
   * The registry invariant: an id in an index list is stored in the matching
   * snapshot (so the lookup at line 63 finds it), and no snapshot has indexed
   * elements.
   */
  ghost predicate WellFormed(r: Registry)
  {
    Keyed(r) && forall a :: a in r.slots ==> SlotOk(r.slots[a])
  }

  // ---------------------------------------------------------------------------
  // addEvent (lines 26-82)
  // ---------------------------------------------------------------------------

  /** The registry with agency `a` created, listed last, if unseen (lines 38-45). */
  function Track(r: Registry, a: Agency): Registry
  {
    if a in r.slots then r else Registry(r.agencies + [a], r.slots[a := FreshSlot])
  }

  /** Creating an agency keeps the registry invariant and the other agencies' entries. */
  lemma TrackKeepsWellFormed(r: Registry, a: Agency)
    requires WellFormed(r)
    ensures WellFormed(Track(r, a)) && a in Track(r, a).slots
    ensures a !in r.slots ==> Track(r, a).slots[a] == FreshSlot
    ensures forall b :: b in r.slots ==> b in Track(r, a).slots && Track(r, a).slots[b] == r.slots[b]
  {
    if a !in r.slots {
      assert a !in r.agencies;
    }
  }

  /** The type or one of the delays differs (lines 63-74, compared with `!==`). */
  predicate Differs(known: Connection, c: Connection)
  {
    known.departureDelay != c.departureDelay || known.arrivalDelay != c.arrivalDelay || known.kind != c.kind
  }

  /** Whether `addEvent` queues `c`: its id is not in the previous index, or it differs from the one stored there (lines 56-75). */
  predicate IsChange(index: seq<ConnId>, prev: Snapshot, c: Connection)
    requires c.id in index ==> c.id in prev.byId
  {
    c.id !in index || Differs(prev.byId[c.id], c)
  }

  /**
   * One agency's entries after `addEvent`: the id is appended to the current
   * index and the connection stored under it (lines 52-53); the event is
   * queued when it is a change (lines 78-81).
   */
  function AddToSlot(s: Slot, c: Connection, now: Time): Slot
    requires Stored(s.previousIndex, s.previous)
  {
    var recorded := s.(currentIndex := s.currentIndex + [c.id], current := s.current.(byId := s.current.byId[c.id := c]));
    if IsChange(s.previousIndex, s.previous, c) then recorded.(pending := s.pending + [PendingEvent(now, c)]) else recorded
  }

  /** The connection just added is found under its id in the current index and snapshot. */
  lemma AddToSlotStores(s: Slot, c: Connection, now: Time)
    requires Stored(s.previousIndex, s.previous)
    ensures c.id in AddToSlot(s, c, now).currentIndex && AddToSlot(s, c, now).current.byId[c.id] == c
  {
    var s' := AddToSlot(s, c, now);
    assert s'.currentIndex == s.currentIndex + [c.id];
    assert s'.currentIndex[|s.currentIndex|] == c.id;
  }

  /** The registry after `addEvent(connection, agency)` with clock reading `now`. */
  ghost function AfterAddEvent(r: Registry, connection: Option<Connection>, agency: Option<Agency>, now: Time): Registry
    requires WellFormed(r)
  {
    if connection.None? || agency.None? then r
    else
      var c, a := connection.value, agency.value;
      TrackKeepsWellFormed(r, a);
      var t := Track(r, a);
      t.(slots := t.slots[a := AddToSlot(t.slots[a], c, now)])
  }

  /** `addEvent` keeps the registry invariant. */
  lemma AddEventKeepsWellFormed(r: Registry, connection: Option<Connection>, agency: Option<Agency>, now: Time)
    requires WellFormed(r)
    ensures WellFormed(AfterAddEvent(r, connection, agency, now))
  {
    if connection.Some? && agency.Some? {
      var c, a := connection.value, agency.value;
      TrackKeepsWellFormed(r, a);
      var t := Track(r, a);
      assert SlotOk(AddToSlot(t.slots[a], c, now));
    }
  }

  /** A null or undefined connection or agency changes nothing (lines 28-35). */
  lemma AddEventRejects(r: Registry, connection: Option<Connection>, agency: Option<Agency>, now: Time)
    requires WellFormed(r)
    requires connection.None? || agency.None?
    ensures AfterAddEvent(r, connection, agency, now) == r
  {
  }

  /**
   * The first event of an unseen agency creates its structures: the agency is
   * listed last, its queue holds the event, its previous snapshot is `[]` with
   * an empty index, its counter is 0, and its current snapshot is the object
   * `{}` holding the connection (lines 38-45, 52-53, 57-59, 78-81).
   */
  lemma AddEventInitialises(r: Registry, c: Connection, a: Agency, now: Time)
    requires WellFormed(r)
    requires a !in r.slots
    ensures var r' := AfterAddEvent(r, Some(c), Some(a), now);
      && r'.agencies == r.agencies + [a]
      && r'.slots == r.slots[a := Slot([PendingEvent(now, c)], EmptyArray, [], [c.id],
                                        Snapshot(PlainObject, map[c.id := c], []), 0)]
  {
    var s := Slot([PendingEvent(now, c)], EmptyArray, [], [c.id], Snapshot(PlainObject, map[c.id := c], []), 0);
    assert AddToSlot(FreshSlot, c, now) == s;
    MapUpdateTwice(r.slots, a, FreshSlot, s);
  }

  /**
   * Every accepted call appends the id to the current index and stores the
   * connection under it, queued or not; the previous structures, the counter
   * and every other agency are untouched (lines 52-53).
   */
  lemma AddEventRecords(r: Registry, c: Connection, a: Agency, now: Time)
    requires WellFormed(r)
    requires a in r.slots
    ensures var r' := AfterAddEvent(r, Some(c), Some(a), now);
      var s, s' := r.slots[a], r'.slots[a];
      && r'.agencies == r.agencies && r'.slots.Keys == r.slots.Keys
      && s'.currentIndex == s.currentIndex + [c.id]
      && s'.current == s.current.(byId := s.current.byId[c.id := c])
      && s'.previous == s.previous && s'.previousIndex == s.previousIndex && s'.published == s.published
      && (forall b :: b in r.slots && b != a ==> r'.slots[b] == r.slots[b])
  {
  }

  /**
   * The queue decision: the agency's queue gains exactly the entry
   * `{id: now, connection}` at its end when the id is not in the previous
   * index or its type or a delay changed, and is unchanged otherwise. So a
   * call grows the queue by at most one (lines 56-82).
   */
  lemma AddEventQueues(r: Registry, c: Connection, a: Agency, now: Time)
    requires WellFormed(r)
    requires a in r.slots
    ensures var q, q' := r.slots[a].pending, AfterAddEvent(r, Some(c), Some(a), now).slots[a].pending;
      var s := r.slots[a];
      && (c.id !in s.previousIndex ==> q' == q + [PendingEvent(now, c)])
      && (c.id in s.previousIndex && Differs(s.previous.byId[c.id], c) ==> q' == q + [PendingEvent(now, c)])
      && (c.id in s.previousIndex && !Differs(s.previous.byId[c.id], c) ==> q' == q)
      && |q'| <= |q| + 1
  {
  }

  // ---------------------------------------------------------------------------
  // processEvents (lines 148-219)
  // ---------------------------------------------------------------------------

  /** `timestamp.setMilliseconds(0)` (line 152), which also changes the caller's Date. */
  function TruncateToSecond(ms: int): int
  {
    ms - ms % 1000
  }

  /** The truncated time is a whole second, at most the original and less than a second before it. */
  lemma TruncateToSecondBounds(ms: int)
    ensures var t := TruncateToSecond(ms); t % 1000 == 0 && t <= ms < t + 1000
  {
  }

  /** The graph entry built from one pending event (lines 181-190). */
  function EventOf(p: PendingEvent): Event
  {
    Event(p.connection.id + "#" + p.id.iso, "Event", "", p.id, p.connection)
  }

  /** The graph after the events of queue `q` are appended to `graph`, in queue order (lines 176-193). */
  function DrainOnto(graph: seq<Event>, q: seq<PendingEvent>): seq<Event>
  {
    if q == [] then graph else DrainOnto(graph, q[..|q| - 1]) + [EventOf(q[|q| - 1])]
  }

  /** Draining appends one entry per queued event. */
  lemma {:induction false} DrainOntoLength(graph: seq<Event>, q: seq<PendingEvent>)
    ensures |DrainOnto(graph, q)| == |graph| + |q|
  {
    if q != [] {
      DrainOntoLength(graph, q[..|q| - 1]);
    }
  }

  /**
   * Draining keeps the graph's entries and the queue's order: entry i of the
   * result is entry i of the graph, or is built from the queued event at
   * i - |graph|, with '@id' = connection id + '#' + ISO time, '@type' = 'Event',
   * an empty 'hydra:view', 'sosa:resultTime' = the queued id and the
   * connection as result.
   */
  lemma {:induction false} DrainInQueueOrder(graph: seq<Event>, q: seq<PendingEvent>, i: nat)
    requires i < |graph| + |q|
    ensures |DrainOnto(graph, q)| == |graph| + |q|
    ensures i < |graph| ==> DrainOnto(graph, q)[i] == graph[i]
    ensures |graph| <= i ==>
      var e, p := DrainOnto(graph, q)[i], q[i - |graph|];
      && e.id == p.connection.id + "#" + p.id.iso && e.kind == "Event" && e.view == ""
      && e.resultTime == p.id && e.connection == p.connection
  {
    DrainOntoLength(graph, q);
    if q != [] && i < |graph| + |q| - 1 {
      DrainInQueueOrder(graph, q[..|q| - 1], i);
    }
  }

  /** The retention loop of lines 207-217 from index `e` on, as written. */
  function SweepFrom(elems: seq<Retained>, index: seq<ConnId>, e: nat): (seq<Retained>, seq<ConnId>)
    decreases |elems| - e
  {
    if |elems| <= e then (elems, index)
    else if elems[e].referenced > 0 then
      SweepFrom(elems[e := elems[e].(referenced := elems[e].referenced - 1)], index, e + 1)
    else
      // `indexOf(e)` looks for the number e among element objects: it is -1,
      // so `splice(-1, 1)` removes the last element.
      var elems' := SpliceOne(elems, -1);
      var index' := if e < |elems'| then SpliceOne(index, IndexOf(index, elems'[e].connection.id)) else index;
      SweepFrom(elems', index', e + 1)
  }

  /** The retention loop on a container: a plain object's `length` is undefined, so the loop does not run. */
  function Retain(s: Snapshot, index: seq<ConnId>): (Snapshot, seq<ConnId>)
  {
    if s.kind == PlainObject then (s, index)
    else var (elems, index') := SweepFrom(s.elems, index, 0); (s.(elems := elems), index')
  }

  /** When every counter is positive the loop only lowers each by one and leaves the index alone (line 209). */
  lemma {:induction false} SweepDecrements(elems: seq<Retained>, index: seq<ConnId>, e: nat)
    requires e <= |elems|
    requires forall k :: e <= k < |elems| ==> elems[k].referenced > 0
    ensures var (elems', index') := SweepFrom(elems, index, e);
      && index' == index && |elems'| == |elems|
      && elems'[..e] == elems[..e]
      && forall k :: e <= k < |elems| ==> elems'[k] == elems[k].(referenced := elems[k].referenced - 1)
    decreases |elems| - e
  {
    if e < |elems| {
      var next := elems[e := elems[e].(referenced := elems[e].referenced - 1)];
      SweepDecrements(next, index, e + 1);
    }
  }

  /** A container with no indexed elements comes out of the retention loop unchanged. */
  lemma RetainWithoutElements(s: Snapshot, index: seq<ConnId>)
    requires s.elems == []
    ensures Retain(s, index) == (s, index)
  {
  }

  /** A page write: `JSON.stringify(skeleton)` to the agency's `events.jsonld` (lines 197-199). */
  datatype Write = Write(agency: Agency, content: Page)

  /** What `processEvents` leaves: the registry, the shared graph and the writes, in order. */
  datatype Flushed = Flushed(registry: Registry, graph: seq<Event>, writes: seq<Write>)

  /** The publication rule of line 196. */
  predicate ShouldPublish(previousCount: nat, drained: nat)
  {
    previousCount > 0 || drained > 0
  }

  /**
   * One agency's entries once its turn is over: the queue is drained, the
   * current index and snapshot become the previous ones and go through the
   * retention loop, the current ones are reset to `[]`, and the counter is
   * the number of events drained (lines 159-162, 176-193, 203-217).
   */
  function FlushedSlot(s: Slot): Slot
  {
    var (prev, index) := Retain(s.current, s.currentIndex);
    Slot([], prev, index, [], EmptyArray, |s.pending|)
  }

  /** The registry once the first `k` agencies have had their turn. */
  function FlushRegistry(r: Registry, k: nat): (r': Registry)
    requires Keyed(r) && k <= |r.agencies|
    ensures Keyed(r') && r'.agencies == r.agencies
    decreases k
  {
    if k == 0 then r
    else
      var r0 := FlushRegistry(r, k - 1);
      var a := r.agencies[k - 1];
      assert a in r.agencies;
      r0.(slots := r0.slots[a := FlushedSlot(r0.slots[a])])
  }

  /** The graph after the first `k` agencies' queues are drained onto `base`, in agency order. */
  function DrainedOnto(r: Registry, base: seq<Event>, k: nat): seq<Event>
    requires Keyed(r) && k <= |r.agencies|
  {
    if k == 0 then base
    else
      assert r.agencies[k - 1] in r.agencies;
      DrainOnto(DrainedOnto(r, base, k - 1), r.slots[r.agencies[k - 1]].pending)
  }

  /** Draining only appends: the starting graph stays a prefix of the result. */
  lemma {:induction false} DrainOntoKeepsGraph(graph: seq<Event>, q: seq<PendingEvent>)
    ensures |graph| <= |DrainOnto(graph, q)| && DrainOnto(graph, q)[..|graph|] == graph
  {
    if q != [] {
      DrainOntoKeepsGraph(graph, q[..|q| - 1]);
      var g := DrainOnto(graph, q[..|q| - 1]);
      assert (g + [EventOf(q[|q| - 1])])[..|graph|] == g[..|graph|];
    }
  }

  /** The shared graph keeps the skeleton's entries first, whatever the agencies drain onto it. */
  lemma {:induction false} DrainedOntoKeepsBase(r: Registry, base: seq<Event>, k: nat)
    requires Keyed(r) && k <= |r.agencies|
    ensures |base| <= |DrainedOnto(r, base, k)| && DrainedOnto(r, base, k)[..|base|] == base
  {
    if k > 0 {
      DrainedOntoKeepsBase(r, base, k - 1);
      var g := DrainedOnto(r, base, k - 1);
      assert r.agencies[k - 1] in r.agencies;
      DrainOntoKeepsGraph(g, r.slots[r.agencies[k - 1]].pending);
      assert DrainedOnto(r, base, k)[..|g|][..|base|] == DrainedOnto(r, base, k)[..|base|];
    }
  }

  /**
   * The pages written for the first `k` agencies: an agency's page is the
   * skeleton whose graph holds everything drained so far, because the skeleton
   * is parsed once per cycle and shared (lines 150-151, 191, 196-199).
   */
  function WritesUpTo(r: Registry, skeleton: Page, k: nat): seq<Write>
    requires Keyed(r) && k <= |r.agencies|
  {
    if k == 0 then [] else WritesUpTo(r, skeleton, k - 1) + TurnWrites(r, skeleton, k - 1)
  }

  /** The page written in the turn of agency number `k`, if the publication rule allows one. */
  function TurnWrites(r: Registry, skeleton: Page, k: nat): seq<Write>
    requires Keyed(r) && k < |r.agencies|
  {
    var a := r.agencies[k];
    assert a in r.agencies;
    if ShouldPublish(r.slots[a].published, |r.slots[a].pending|)
    then [Write(a, skeleton.(graph := DrainedOnto(r, skeleton.graph, k + 1)))]
    else []
  }

  /** The whole of `processEvents`. */
  function FlushAll(r: Registry, skeleton: Page): Flushed
    requires Keyed(r)
  {
    Flushed(FlushRegistry(r, |r.agencies|), DrainedOnto(r, skeleton.graph, |r.agencies|),
            WritesUpTo(r, skeleton, |r.agencies|))
  }

  /** The writes for one agency. */
  function WritesFor(ws: seq<Write>, a: Agency): seq<Write>
  {
    if ws == [] then []
    else WritesFor(ws[..|ws| - 1], a) + (if ws[|ws| - 1].agency == a then [ws[|ws| - 1]] else [])
  }

  /** The turn of agency number `m` replaces that agency's slot and nothing else. */
  lemma FlushRegistryStep(r: Registry, m: nat)
    requires Keyed(r) && m < |r.agencies|
    ensures r.agencies[m] in FlushRegistry(r, m).slots
    ensures var f, a := FlushRegistry(r, m), r.agencies[m];
      FlushRegistry(r, m + 1) == f.(slots := f.slots[a := FlushedSlot(f.slots[a])])
  {
    assert r.agencies[m] in r.agencies;
  }

  /**
   * After the first `k` agencies, agency number `j` has its entries flushed
   * when it is one of them and untouched otherwise.
   */
  lemma {:induction false} FlushRegistryAt(r: Registry, k: nat, j: nat)
    requires Keyed(r) && k <= |r.agencies| && j < |r.agencies|
    ensures r.agencies[j] in r.slots && r.agencies[j] in FlushRegistry(r, k).slots
    ensures FlushRegistry(r, k).slots[r.agencies[j]] ==
      if j < k then FlushedSlot(r.slots[r.agencies[j]]) else r.slots[r.agencies[j]]
    decreases k
  {
    assert r.agencies[j] in r.agencies;
    if k > 0 {
      var m: nat := k - 1;
      FlushRegistryAt(r, m, j);
      var f, a, b := FlushRegistry(r, m), r.agencies[m], r.agencies[j];
      FlushRegistryStep(r, m);
      if j == m {
        assert f.slots[a] == r.slots[a];
      } else {
        assert b != a;
        assert FlushRegistry(r, k).slots[b] == f.slots[b];
      }
    }
  }

  /** The turn of agency number `k`: what the loop body of `processEvents` adds to the registry, the graph and the writes. */
  lemma FlushTurn(r: Registry, skeleton: Page, k: nat)
    requires Keyed(r) && k < |r.agencies|
    ensures var f := FlushRegistry(r, k);
      var a := r.agencies[k];
      && a in f.slots && f.slots[a] == r.slots[a]
      && FlushRegistry(r, k + 1) == f.(slots := f.slots[a := FlushedSlot(f.slots[a])])
      && DrainedOnto(r, skeleton.graph, k + 1) == DrainOnto(DrainedOnto(r, skeleton.graph, k), f.slots[a].pending)
      && WritesUpTo(r, skeleton, k + 1) == WritesUpTo(r, skeleton, k) +
           if ShouldPublish(f.slots[a].published, |f.slots[a].pending|)
           then [Write(a, skeleton.(graph := DrainedOnto(r, skeleton.graph, k + 1)))] else []
  {
    FlushRegistryAt(r, k, k);
  }

  /** The writes for one agency of two lists in a row are the writes of each, in a row. */
  lemma {:induction false} WritesForAppend(ws: seq<Write>, vs: seq<Write>, a: Agency)
    ensures WritesFor(ws + vs, a) == WritesFor(ws, a) + WritesFor(vs, a)
  {
    if vs == [] {
      assert ws + vs == ws;
    } else {
      var us, init, last := ws + vs, vs[..|vs| - 1], vs[|vs| - 1];
      assert us[..|us| - 1] == ws + init && us[|us| - 1] == last;
      WritesForAppend(ws, init, a);
      var tail := if last.agency == a then [last] else [];
      assert WritesFor(us, a) == WritesFor(ws, a) + WritesFor(init, a) + tail;
    }
  }

  /** The page of a turn is written for that turn's agency only. */
  lemma WritesForTurn(r: Registry, skeleton: Page, m: nat, b: Agency)
    requires Keyed(r) && m < |r.agencies|
    ensures WritesFor(TurnWrites(r, skeleton, m), b) == if b == r.agencies[m] then TurnWrites(r, skeleton, m) else []
  {
    var t := TurnWrites(r, skeleton, m);
    if t != [] {
      assert t == [] + [t[0]];
      assert WritesFor([], b) == [];
    }
  }

  /** The pages of the first `k` agencies written for agency number `j` are those of its own turn. */
  lemma {:induction false} WritesUpToAt(r: Registry, skeleton: Page, k: nat, j: nat)
    requires Keyed(r) && k <= |r.agencies| && j < |r.agencies|
    ensures WritesFor(WritesUpTo(r, skeleton, k), r.agencies[j]) == if j < k then TurnWrites(r, skeleton, j) else []
    decreases k
  {
    if k > 0 {
      var m: nat := k - 1;
      var ws0, t, b := WritesUpTo(r, skeleton, m), TurnWrites(r, skeleton, m), r.agencies[j];
      WritesUpToAt(r, skeleton, m, j);
      assert WritesUpTo(r, skeleton, k) == ws0 + t;
      WritesForAppend(ws0, t, b);
      WritesForTurn(r, skeleton, m, b);
      if j == m {
        assert WritesFor(ws0, b) == [] && WritesFor(t, b) == t;
        assert [] + t == t;
      } else {
        assert b != r.agencies[m];
        assert WritesFor(t, b) == [];
        assert WritesFor(ws0, b) + [] == WritesFor(ws0, b);
      }
    }
  }

  /** `processEvents` for agency number `j`. */
  lemma FlushAllAt(r: Registry, skeleton: Page, j: nat)
    requires Keyed(r) && j < |r.agencies|
    ensures var f, a := FlushAll(r, skeleton), r.agencies[j];
      && a in r.slots && a in f.registry.slots && f.registry.slots[a] == FlushedSlot(r.slots[a])
      && WritesFor(f.writes, a) ==
           if ShouldPublish(r.slots[a].published, |r.slots[a].pending|)
           then [Write(a, skeleton.(graph := DrainedOnto(r, skeleton.graph, j + 1)))]
           else []
  {
    FlushRegistryAt(r, |r.agencies|, j);
    WritesUpToAt(r, skeleton, |r.agencies|, j);
  }

  /**
   * Drain and snapshot swap: afterwards every agency's queue is empty, its
   * previous index and snapshot are the current ones from before the call,
   * the current ones are reset to empty, and its counter is the number of
   * events drained (lines 159-162, 176-193, 203).
   */
  lemma ProcessEventsSwapsAndDrains(r: Registry, skeleton: Page, a: Agency)
    requires WellFormed(r)
    requires a in r.agencies
    ensures var r' := FlushAll(r, skeleton).registry;
      && r'.agencies == r.agencies && a in r'.slots
      && r'.slots[a] == Slot([], r.slots[a].current, r.slots[a].currentIndex, [], EmptyArray, |r.slots[a].pending|)
  {
    FlushAllAt(r, skeleton, IndexOf(r.agencies, a));
    RetainWithoutElements(r.slots[a].current, r.slots[a].currentIndex);
  }

  /** `processEvents` keeps the registry invariant (`FlushAll(r, skeleton).registry` is this registry). */
  lemma FlushAllKeepsWellFormed(r: Registry, skeleton: Page)
    requires WellFormed(r)
    ensures WellFormed(FlushRegistry(r, |r.agencies|))
  {
    var r' := FlushRegistry(r, |r.agencies|);
    forall a | a in r'.slots
      ensures SlotOk(r'.slots[a])
    {
      ProcessEventsSwapsAndDrains(r, skeleton, a);
      assert SlotOk(r.slots[a]);
    }
  }

  /**
   * Publication rule: the agency's page is written exactly once when its
   * previous counter is positive or its queue was not empty, and not at all
   * otherwise. The page written holds the skeleton's entries, then the events
   * drained for the agencies before it (the skeleton is shared), then this
   * agency's events in queue order (lines 150-151, 191, 196-201).
   */
  lemma ProcessEventsPublishes(r: Registry, skeleton: Page, a: Agency)
    requires WellFormed(r)
    requires a in r.agencies
    ensures var ws := WritesFor(FlushAll(r, skeleton).writes, a);
      && |ws| == (if ShouldPublish(r.slots[a].published, |r.slots[a].pending|) then 1 else 0)
      && (|ws| == 1 ==>
            var j := IndexOf(r.agencies, a);
            ws[0].content == skeleton.(graph := DrainOnto(DrainedOnto(r, skeleton.graph, j), r.slots[a].pending)))
  {
    var j := IndexOf(r.agencies, a);
    assert DrainedOnto(r, skeleton.graph, j + 1) == DrainOnto(DrainedOnto(r, skeleton.graph, j), r.slots[a].pending) by {
      assert r.agencies[j] == a;
    }
    FlushAllAt(r, skeleton, j);
  }

  /**
   * No second consecutive empty page: when an agency's queue is empty in two
   * cycles in a row, the second cycle writes nothing for it.
   */
  lemma SecondEmptyCycleIsSkipped(r: Registry, skeleton: Page, a: Agency)
    requires WellFormed(r)
    requires a in r.agencies && r.slots[a].pending == []
    ensures var r1 := FlushAll(r, skeleton).registry;
      WellFormed(r1) && WritesFor(FlushAll(r1, skeleton).writes, a) == []
  {
    ProcessEventsSwapsAndDrains(r, skeleton, a);
    FlushAllKeepsWellFormed(r, skeleton);
    var r1 := FlushAll(r, skeleton).registry;
    ProcessEventsPublishes(r1, skeleton, a);
  }

  /**
   * An idle cycle right after a cycle that published events still writes one
   * page; the counter then drops to zero.
   */
  lemma EmptyCycleAfterEventsWritesOnce(r: Registry, skeleton: Page, a: Agency)
    requires WellFormed(r)
    requires a in r.agencies && r.slots[a].pending == [] && r.slots[a].published > 0
    ensures var f := FlushAll(r, skeleton);
      |WritesFor(f.writes, a)| == 1 && a in f.registry.slots && f.registry.slots[a].published == 0
  {
    ProcessEventsSwapsAndDrains(r, skeleton, a);
    ProcessEventsPublishes(r, skeleton, a);
  }

  /**
   * A connection seen in one cycle and sent again unchanged in the next is not
   * queued again: the first call queues it, the publication cycle moves it into
   * the previous snapshot, and the repeated call leaves the queue empty.
   */
  lemma UnchangedUpdateAfterCycleIsNotQueued(r: Registry, skeleton: Page, c: Connection, a: Agency, t1: Time, t2: Time)
    requires WellFormed(r)
    ensures var r1 := AfterAddEvent(r, Some(c), Some(a), t1);
      var r2 := FlushAll(r1, skeleton).registry;
      WellFormed(r2) && a in r2.slots && AfterAddEvent(r2, Some(c), Some(a), t2).slots[a].pending == []
  {
    var r1 := AfterAddEvent(r, Some(c), Some(a), t1);
    AddEventKeepsWellFormed(r, Some(c), Some(a), t1);
    TrackKeepsWellFormed(r, a);
    ProcessEventsSwapsAndDrains(r1, skeleton, a);
    FlushAllKeepsWellFormed(r1, skeleton);
    var r2 := FlushAll(r1, skeleton).registry;
    var t := Track(r, a);
    var s1 := AddToSlot(t.slots[a], c, t1);
    assert r1.slots[a] == s1;
    AddToSlotStores(t.slots[a], c, t1);
    assert r2.slots[a].previousIndex == s1.currentIndex && r2.slots[a].previous == s1.current;
    AddEventQueues(r2, c, a, t2);
  }

  /**
   * Within one cycle the previous index is not updated, so a new connection
   * sent twice is queued twice.
   */
  lemma NewConnectionTwiceInOneCycleIsQueuedTwice(r: Registry, c: Connection, a: Agency, t1: Time, t2: Time)
    requires WellFormed(r)
    requires a in r.agencies && c.id !in r.slots[a].previousIndex
    ensures var r1 := AfterAddEvent(r, Some(c), Some(a), t1);
      WellFormed(r1) &&
      AfterAddEvent(r1, Some(c), Some(a), t2).slots[a].pending == r.slots[a].pending + [PendingEvent(t1, c), PendingEvent(t2, c)]
  {
    AddEventKeepsWellFormed(r, Some(c), Some(a), t1);
  }

  // ---------------------------------------------------------------------------
  // The manager object
  // ---------------------------------------------------------------------------

  /** The per-agency entries of the six dictionaries, for the agencies that have an entry in each. */
  ghost function Gather(pending: map<Agency, seq<PendingEvent>>, previous: map<Agency, Snapshot>,
                        previousIndex: map<Agency, seq<ConnId>>, currentIndex: map<Agency, seq<ConnId>>,
                        current: map<Agency, Snapshot>, published: map<Agency, nat>): map<Agency, Slot>
  {
    map a | a in pending && a in previous && a in previousIndex && a in currentIndex && a in current && a in published
      :: Slot(pending[a], previous[a], previousIndex[a], currentIndex[a], current[a], published[a])
  }

  /** Storing one agency's entries in all six dictionaries stores that slot. */
  lemma GatherStore(pending: map<Agency, seq<PendingEvent>>, previous: map<Agency, Snapshot>,
                    previousIndex: map<Agency, seq<ConnId>>, currentIndex: map<Agency, seq<ConnId>>,
                    current: map<Agency, Snapshot>, published: map<Agency, nat>, a: Agency, s: Slot)
    ensures Gather(pending[a := s.pending], previous[a := s.previous], previousIndex[a := s.previousIndex],
                   currentIndex[a := s.currentIndex], current[a := s.current], published[a := s.published])
            == Gather(pending, previous, previousIndex, currentIndex, current, published)[a := s]
  {
    var g := Gather(pending, previous, previousIndex, currentIndex, current, published);
    var g' := Gather(pending[a := s.pending], previous[a := s.previous], previousIndex[a := s.previousIndex],
                     currentIndex[a := s.currentIndex], current[a := s.current], published[a := s.published]);
    forall b
      ensures b in g' <==> b in g || b == a
    {
    }
    forall b | b in g'
      ensures g'[b] == if b == a then s else g[b]
    {
    }
  }

  /** Flushing one agency's entries in all six dictionaries flushes its slot. */
  lemma GatherFlush(pending: map<Agency, seq<PendingEvent>>, previous: map<Agency, Snapshot>,
                    previousIndex: map<Agency, seq<ConnId>>, currentIndex: map<Agency, seq<ConnId>>,
                    current: map<Agency, Snapshot>, published: map<Agency, nat>, a: Agency)
    requires a in pending && a in previous && a in previousIndex && a in currentIndex && a in current && a in published
    ensures var g := Gather(pending, previous, previousIndex, currentIndex, current, published);
      var retained := Retain(current[a], currentIndex[a]);
      && a in g
      && Gather(pending[a := []], previous[a := retained.0], previousIndex[a := retained.1],
                currentIndex[a := []], current[a := EmptyArray], published[a := |pending[a]|])
         == g[a := FlushedSlot(g[a])]
  {
    var g := Gather(pending, previous, previousIndex, currentIndex, current, published);
    var s := FlushedSlot(g[a]);
    GatherStore(pending, previous, previousIndex, currentIndex, current, published, a, s);
  }

  /** Storing a map's own value at a key gives the same map. */
  lemma MapUpdateSame<K, V>(m: map<K, V>, k: K)
    requires k in m
    ensures m[k := m[k]] == m
  {
  }

  /** A second store at a key overrides the first. */
  lemma MapUpdateTwice<K, V>(m: map<K, V>, k: K, v: V, w: V)
    ensures m[k := v][k := w] == m[k := w]
  {
  }

  /**
   * Class EventsManager with the dictionaries of lines 9-14 as fields, plus
   * `agencies`, the key order of `pendingEvents`.
   */
  class EventsManager {
    var agencies: seq<Agency>
    var pendingEvents: map<Agency, seq<PendingEvent>>
    var previousEvents: map<Agency, Snapshot>
    var previousEventsIndex: map<Agency, seq<ConnId>>
    var currentEventsIndex: map<Agency, seq<ConnId>>
    var currentEvents: map<Agency, Snapshot>
    var previousPublishedEventsCounter: map<Agency, nat>

    /** The fields as one registry value. */
    ghost function State(): Registry
      reads this
    {
      Registry(agencies, Gather(pendingEvents, previousEvents, previousEventsIndex, currentEventsIndex,
                                currentEvents, previousPublishedEventsCounter))
    }

    /** Every agency with a queue has an entry in each other dictionary. */
    ghost predicate FieldsKeyed()
      reads this
    {
      forall a :: a in pendingEvents ==>
        a in previousEvents && a in previousEventsIndex && a in currentEventsIndex && a in currentEvents &&
        a in previousPublishedEventsCounter
    }

    ghost predicate Valid()
      reads this
    {
      FieldsKeyed() && WellFormed(State())
    }

    constructor ()
      ensures Valid() && State() == EmptyRegistry
      ensures agencies == [] && pendingEvents == map[] && previousEvents == map[] && previousEventsIndex == map[]
      ensures currentEventsIndex == map[] && currentEvents == map[] && previousPublishedEventsCounter == map[]
    {
      agencies := [];
      pendingEvents := map[];
      previousEvents := map[];
      previousEventsIndex := map[];
      currentEventsIndex := map[];
      currentEvents := map[];
      previousPublishedEventsCounter := map[];
    }

    /** `addEvent(connection, agency)`; `now` is the `new Date()` of line 79. */
    method AddEvent(connection: Option<Connection>, agency: Option<Agency>, now: Time)
      requires Valid()
      modifies this
      ensures Valid()
      ensures State() == AfterAddEvent(old(State()), connection, agency, now)
    {
      if connection.None? {
        return;
      }
      if agency.None? {
        return;
      }
      var c, a := connection.value, agency.value;
      ghost var r0 := State();
      TrackKeepsWellFormed(r0, a);
      if a !in pendingEvents {
        GatherStore(pendingEvents, previousEvents, previousEventsIndex, currentEventsIndex, currentEvents,
                    previousPublishedEventsCounter, a, FreshSlot);
        CreateAgency(a);
      } else {
        assert a in r0.slots;
      }
      assert State() == Track(r0, a);
      ghost var t := State();
      ghost var s := t.slots[a];
      assert s == Slot(pendingEvents[a], previousEvents[a], previousEventsIndex[a], currentEventsIndex[a],
                       currentEvents[a], previousPublishedEventsCounter[a]);
      assert SlotOk(s);
      ghost var pending1, previous1, previousIndex1, currentIndex1, current1, published1 :=
        pendingEvents, previousEvents, previousEventsIndex, currentEventsIndex, currentEvents, previousPublishedEventsCounter;
      RecordEvent(c, a, now);
      ghost var s' := AddToSlot(s, c, now);
      MapUpdateSame(previous1, a);
      MapUpdateSame(previousIndex1, a);
      MapUpdateSame(published1, a);
      if !IsChange(s.previousIndex, s.previous, c) {
        MapUpdateSame(pending1, a);
      }
      GatherStore(pending1, previous1, previousIndex1, currentIndex1, current1, published1, a, s');
      assert State() == t.(slots := t.slots[a := s']);
      AddEventKeepsWellFormed(r0, connection, agency, now);
    }

    /** Lines 38-45: an unseen agency gets an empty queue, `[]` previous structures, `{}` current ones and a zero counter. */
    method CreateAgency(a: Agency)
      requires FieldsKeyed() && a !in pendingEvents
      modifies this
      ensures agencies == old(agencies) + [a] && FieldsKeyed()
      ensures pendingEvents == old(pendingEvents)[a := FreshSlot.pending]
      ensures previousEvents == old(previousEvents)[a := FreshSlot.previous]
      ensures previousEventsIndex == old(previousEventsIndex)[a := FreshSlot.previousIndex]
      ensures currentEventsIndex == old(currentEventsIndex)[a := FreshSlot.currentIndex]
      ensures currentEvents == old(currentEvents)[a := FreshSlot.current]
      ensures previousPublishedEventsCounter == old(previousPublishedEventsCounter)[a := FreshSlot.published]
    {
      agencies := agencies + [a];
      pendingEvents := pendingEvents[a := []];
      previousEvents := previousEvents[a := EmptyArray];
      previousEventsIndex := previousEventsIndex[a := []];
      currentEventsIndex := currentEventsIndex[a := []];
      currentEvents := currentEvents[a := EmptyObject];
      previousPublishedEventsCounter := previousPublishedEventsCounter[a := 0];
    }

    /** Lines 52-81 for an agency that has its structures: record the connection, and queue it when it is a change. */
    method RecordEvent(c: Connection, a: Agency, now: Time)
      requires FieldsKeyed() && a in pendingEvents
      requires Stored(previousEventsIndex[a], previousEvents[a])
      modifies this
      ensures agencies == old(agencies) && FieldsKeyed()
      ensures currentEventsIndex == old(currentEventsIndex)[a := old(currentEventsIndex[a]) + [c.id]]
      ensures currentEvents == old(currentEvents)[a := old(currentEvents[a]).(byId := old(currentEvents[a]).byId[c.id := c])]
      ensures pendingEvents == old(pendingEvents)[a :=
        if IsChange(old(previousEventsIndex[a]), old(previousEvents[a]), c)
        then old(pendingEvents[a]) + [PendingEvent(now, c)] else old(pendingEvents[a])]
      ensures previousEvents == old(previousEvents) && previousEventsIndex == old(previousEventsIndex)
      ensures previousPublishedEventsCounter == old(previousPublishedEventsCounter)
    {
      currentEventsIndex := currentEventsIndex[a := currentEventsIndex[a] + [c.id]];
      currentEvents := currentEvents[a := currentEvents[a].(byId := currentEvents[a].byId[c.id := c])];

      var isNew := false;
      if c.id !in previousEventsIndex[a] {
        isNew := true;
      } else {
        var known := previousEvents[a].byId[c.id];
        if known.departureDelay != c.departureDelay {
          isNew := true;
        }
        if known.arrivalDelay != c.arrivalDelay {
          isNew := true;
        }
        if known.kind != c.kind {
          isNew := true;
        }
      }

      if isNew {
        pendingEvents := pendingEvents[a := pendingEvents[a] + [PendingEvent(now, c)]];
      } else {
        MapUpdateSame(old(pendingEvents), a);
      }
    }

    /**
     * `processEvents(timestamp)`. The skeleton read from the template file is
     * a parameter; `truncated` is the caller's timestamp after line 152, and
     * `writes` lists the pages written, in order. The loop reads the timestamp
     * only for a log message, so it is truncated after the loop here.
     */
    method ProcessEvents(skeleton: Page, timestamp: int) returns (truncated: int, writes: seq<Write>)
      requires Valid()
      modifies this
      ensures Valid()
      ensures truncated == TruncateToSecond(timestamp)
      ensures State() == FlushAll(old(State()), skeleton).registry
      ensures writes == FlushAll(old(State()), skeleton).writes
    {
      ghost var r0 := State();
      var graph := skeleton.graph;
      writes := [];
      var pE := 0;
      while pE < |agencies|
        invariant pE <= |agencies| && agencies == r0.agencies
        invariant FieldsKeyed()
        invariant State() == FlushRegistry(r0, pE)
        invariant graph == DrainedOnto(r0, skeleton.graph, pE)
        invariant writes == WritesUpTo(r0, skeleton, pE)
      {
        graph, writes := TakeTurn(r0, skeleton, pE, graph, writes);
        pE := pE + 1;
      }
      FlushAllKeepsWellFormed(r0, skeleton);
      truncated := TruncateToSecond(timestamp);
    }

    /** One iteration of the loop of `processEvents`: agency number `k` takes its turn. */
    method TakeTurn(ghost r0: Registry, skeleton: Page, k: nat, graph0: seq<Event>, writes0: seq<Write>)
      returns (graph: seq<Event>, writes: seq<Write>)
      requires Keyed(r0) && k < |agencies| && agencies == r0.agencies && FieldsKeyed()
      requires State() == FlushRegistry(r0, k)
      requires graph0 == DrainedOnto(r0, skeleton.graph, k) && writes0 == WritesUpTo(r0, skeleton, k)
      modifies this
      ensures agencies == r0.agencies && FieldsKeyed()
      ensures State() == FlushRegistry(r0, k + 1)
      ensures graph == DrainedOnto(r0, skeleton.graph, k + 1) && writes == WritesUpTo(r0, skeleton, k + 1)
    {
      var agency := agencies[k];
      FlushTurn(r0, skeleton, k);
      ghost var pending0, previous0, previousIndex0, currentIndex0, current0, published0 :=
        pendingEvents, previousEvents, previousEventsIndex, currentEventsIndex, currentEvents, previousPublishedEventsCounter;
      ghost var s0 := State();
      assert agency in s0.slots;
      graph, writes := FlushOne(skeleton, agency, graph0, writes0);
      GatherFlush(pending0, previous0, previousIndex0, currentIndex0, current0, published0, agency);
      assert State().slots == s0.slots[agency := FlushedSlot(s0.slots[agency])];
    }

    /**
     * The body of the loop of `processEvents` for one agency (lines 157-217):
     * the snapshots move from current to previous, the queue is drained onto
     * the shared graph, the page is written when the publication rule allows,
     * the counter is updated, and the retention loop runs on the new previous
     * snapshot.
     */
    method FlushOne(skeleton: Page, agency: Agency, graph0: seq<Event>, writes0: seq<Write>)
      returns (graph: seq<Event>, writes: seq<Write>)
      requires FieldsKeyed() && agency in pendingEvents
      modifies this
      ensures FieldsKeyed() && agencies == old(agencies)
      ensures var retained := Retain(old(currentEvents[agency]), old(currentEventsIndex[agency]));
        && pendingEvents == old(pendingEvents)[agency := []]
        && previousEvents == old(previousEvents)[agency := retained.0]
        && previousEventsIndex == old(previousEventsIndex)[agency := retained.1]
        && currentEventsIndex == old(currentEventsIndex)[agency := []]
        && currentEvents == old(currentEvents)[agency := EmptyArray]
        && previousPublishedEventsCounter == old(previousPublishedEventsCounter)[agency := |old(pendingEvents[agency])|]
      ensures graph == DrainOnto(graph0, old(pendingEvents[agency]))
      ensures writes == writes0 +
        if ShouldPublish(old(previousPublishedEventsCounter[agency]), |old(pendingEvents[agency])|)
        then [Write(agency, skeleton.(graph := graph))] else []
    {
      ghost var previous0, previousIndex0 := previousEvents, previousEventsIndex;
      ghost var retained := Retain(currentEvents[agency], currentEventsIndex[agency]);
      writes := writes0;
      SwapSnapshots(agency);

      var pendingEventsForAgencyCounter;
      graph, pendingEventsForAgencyCounter := DrainPending(agency, graph0);

      if previousPublishedEventsCounter[agency] > 0 || pendingEventsForAgencyCounter > 0 {
        writes := writes + [Write(agency, skeleton.(graph := graph))];
      }
      previousPublishedEventsCounter := previousPublishedEventsCounter[agency := pendingEventsForAgencyCounter];

      RetainPrevious(agency);
      MapUpdateTwice(previous0, agency, old(currentEvents[agency]), retained.0);
      MapUpdateTwice(previousIndex0, agency, old(currentEventsIndex[agency]), retained.1);
    }

    /** Lines 159-162: the current index and snapshot become the previous ones; the current ones are reset to `[]`. */
    method SwapSnapshots(agency: Agency)
      requires FieldsKeyed() && agency in pendingEvents
      modifies this
      ensures previousEventsIndex == old(previousEventsIndex)[agency := old(currentEventsIndex[agency])]
      ensures currentEventsIndex == old(currentEventsIndex)[agency := []]
      ensures previousEvents == old(previousEvents)[agency := old(currentEvents[agency])]
      ensures currentEvents == old(currentEvents)[agency := EmptyArray]
      ensures agencies == old(agencies) && pendingEvents == old(pendingEvents)
      ensures previousPublishedEventsCounter == old(previousPublishedEventsCounter)
    {
      previousEventsIndex := previousEventsIndex[agency := currentEventsIndex[agency]];
      currentEventsIndex := currentEventsIndex[agency := []];
      previousEvents := previousEvents[agency := currentEvents[agency]];
      currentEvents := currentEvents[agency := EmptyArray];
    }

    /** The drain loop of lines 176-193: empties the agency's queue onto the graph and counts the events. */
    method DrainPending(agency: Agency, graph0: seq<Event>) returns (graph: seq<Event>, drained: nat)
      requires agency in pendingEvents
      modifies this
      ensures graph == DrainOnto(graph0, old(pendingEvents[agency])) && drained == |old(pendingEvents[agency])|
      ensures pendingEvents == old(pendingEvents)[agency := []]
      ensures agencies == old(agencies) && previousEvents == old(previousEvents)
      ensures previousEventsIndex == old(previousEventsIndex) && currentEventsIndex == old(currentEventsIndex)
      ensures currentEvents == old(currentEvents) && previousPublishedEventsCounter == old(previousPublishedEventsCounter)
    {
      graph, drained := graph0, 0;
      ghost var queue := pendingEvents[agency];
      while |pendingEvents[agency]| > 0
        invariant drained <= |queue|
        invariant pendingEvents == old(pendingEvents)[agency := queue[drained..]]
        invariant agencies == old(agencies) && previousEvents == old(previousEvents)
        invariant previousEventsIndex == old(previousEventsIndex) && currentEventsIndex == old(currentEventsIndex)
        invariant currentEvents == old(currentEvents) && previousPublishedEventsCounter == old(previousPublishedEventsCounter)
        invariant graph == DrainOnto(graph0, queue[..drained])
        decreases |pendingEvents[agency]|
      {
        var eventData := ShiftPending(agency);
        var event := Event(eventData.connection.id + "#" + eventData.id.iso, "Event", "", eventData.id, eventData.connection);
        graph := graph + [event];
        assert queue[..drained + 1][..drained] == queue[..drained];
        drained := drained + 1;
      }
      assert queue[..drained] == queue;
      assert queue[drained..] == [];
    }

    /** The retention loop over the agency's previous snapshot (lines 205-217); it runs only when that snapshot is an array. */
    method RetainPrevious(agency: Agency)
      requires agency in previousEvents && agency in previousEventsIndex
      modifies this
      ensures var retained := Retain(old(previousEvents[agency]), old(previousEventsIndex[agency]));
        previousEvents == old(previousEvents)[agency := retained.0] &&
        previousEventsIndex == old(previousEventsIndex)[agency := retained.1]
      ensures agencies == old(agencies) && pendingEvents == old(pendingEvents)
      ensures currentEventsIndex == old(currentEventsIndex) && currentEvents == old(currentEvents)
      ensures previousPublishedEventsCounter == old(previousPublishedEventsCounter)
    {
      if previousEvents[agency].kind == JsArray {
        var elems, index := Sweep(previousEvents[agency].elems, previousEventsIndex[agency]);
        previousEvents := previousEvents[agency := previousEvents[agency].(elems := elems)];
        previousEventsIndex := previousEventsIndex[agency := index];
      } else {
        MapUpdateSame(previousEvents, agency);
        MapUpdateSame(previousEventsIndex, agency);
      }
    }

    /** `pendingEventsForAgency.shift()` (line 178): removes and returns the queue's head. */
    method ShiftPending(agency: Agency) returns (head: PendingEvent)
      requires agency in pendingEvents && |pendingEvents[agency]| > 0
      modifies this
      ensures head == old(pendingEvents[agency][0])
      ensures pendingEvents == old(pendingEvents[agency := pendingEvents[agency][1..]])
      ensures agencies == old(agencies) && previousEvents == old(previousEvents)
      ensures previousEventsIndex == old(previousEventsIndex) && currentEventsIndex == old(currentEventsIndex)
      ensures currentEvents == old(currentEvents) && previousPublishedEventsCounter == old(previousPublishedEventsCounter)
    {
      head := pendingEvents[agency][0];
      pendingEvents := pendingEvents[agency := pendingEvents[agency][1..]];
    }
  }

  /** The retention loop (lines 207-217) over an array's elements and the previous index, as written. */
  method Sweep(elems0: seq<Retained>, index0: seq<ConnId>) returns (elems: seq<Retained>, index: seq<ConnId>)
    ensures (elems, index) == SweepFrom(elems0, index0, 0)
  {
    elems, index := elems0, index0;
    var e := 0;
    while e < |elems|
      invariant SweepFrom(elems, index, e) == SweepFrom(elems0, index0, 0)
      decreases |elems| - e
    {
      if elems[e].referenced > 0 {
        elems := elems[e := elems[e].(referenced := elems[e].referenced - 1)];
      } else {
        elems := SpliceOne(elems, -1);
        if e < |elems| {
          index := SpliceOne(index, IndexOf(index, elems[e].connection.id));
        }
      }
      e := e + 1;
    }
  }
}
