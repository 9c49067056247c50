# Linked Connections events: a Dafny model

This project models the live-events core of the Linked Connections server.
The server turns real-time updates of public-transport connections into
"events". It collects them per agency (transport operator), publishes them
periodically as a JSON-LD page per agency, and delivers them to clients. Push
clients use server-sent events; poll clients fetch the current page.

The model has five modules:

- `Manager` (`events_manager.dfy`) is `EventsManager` of
  `lib/manager/events_manager.js`, with its six per-agency dictionaries.
  - `addEvent` records a connection in the agency's current snapshot. It
    queues the connection as an event when the connection is new or changed
    against the previous snapshot.
  - `processEvents` visits the agencies in key order. For each agency it:
    - swaps the snapshots;
    - drains the queue onto the shared skeleton graph;
    - writes the agency's page when the publication rule allows;
    - updates the counter;
    - runs the retention loop.

  Specification functions work on one `Registry` value, which holds one
  `Slot` per agency. The class `EventsManager` keeps the source's six
  dictionaries as `map` fields. Its methods are proved to move those fields
  exactly as the specification functions move the registry. The properties
  are lemmas about those functions.
- `Routes` (`events_routes.dfy`) is the delivery side of
  `lib/routes/events.js`:
  - the listener lists of the publish/subscribe channel, and what closing a
    connection does to them;
  - the agency-cache admission check of the SSE and polling routes;
  - the page lookup of `_getEventsPageOld`;
  - the hydra metadata added to served pages;
  - the removal of navigation links from pushed pages;
  - the agency taken from the path of a changed file.
- `Documents` holds the shapes of the JSON-LD documents: the connection, the
  event and the page.
- `JsArrays` holds JavaScript's `indexOf` and `splice(start, 1)`, including
  what they do with -1.
- `Wrappers` holds `Option`.

JavaScript quirks that shape behaviour are modelled as written:

- `indexOf` returns -1 when the element is absent, and `splice(-1, 1)` then
  removes the last element.
- A plain object `{}` has no `length`.
- Assigning a string key on an array does not change its length.
- `new Date(undefined)` is an invalid date.

In four places the code does less than its own comments or structure
suggest; the model follows the code:

- **Retention.** The previous snapshot is not refreshed entry by entry. It is
  replaced wholesale by the current one. The retention loop, commented as
  cleaning up non-referenced events (lib/manager/events_manager.js:205), never
  runs on a reachable state, because the snapshots it walks have no indexed
  elements.
- **Agency cache.** An unknown agency is not reported as not found. Only an
  agency already in the cache whose directory is missing is rejected. The
  comments at lib/routes/events.js:50 and 58 describe checking an uncached
  agency before rejecting it and pushing a new agency to the cache, but the
  cache starts empty and only grows with agencies it already holds, so it
  never rejects anything.
- **Neighbours.** The previous-page neighbour is set only for indices above 1
  (lib/routes/events.js:222), while the next one is set for every index below
  the last (line 226). The call at line 234 passes both neighbours to
  `_addHydraMetaData`, but that function takes four parameters (line 263), so
  they are dropped.
- **Shared skeleton.** The skeleton page is parsed once per cycle
  (lib/manager/events_manager.js:150-151), before the loop over agencies, and
  every agency's events are pushed onto its graph (line 191). An agency's page
  (line 198) therefore also holds the events drained for the agencies before
  it.

## Model

| member | source | states |
|---|---|---|
| JsArrays.IndexOf | lib/manager/events_manager.js:57 | `indexOf`: -1 exactly when the element is absent; otherwise the first position holding it |
| Manager.TrackKeepsWellFormed | lib/manager/events_manager.js:38-45 | creating an unseen agency keeps the registry invariant and gives the agency its entries |
| Manager.AddToSlotStores | lib/manager/events_manager.js:52-53 | after a call, the connection is under its id in the current index and the current snapshot |
| Manager.AddEventKeepsWellFormed | lib/manager/events_manager.js:26-82 | `addEvent` keeps the invariant: every id in an index list is stored in its snapshot, and no snapshot has indexed elements |
| Manager.AddEventRejects | lib/manager/events_manager.js:28-35 | a null or undefined connection or agency leaves every structure unchanged |
| Manager.AddEventInitialises | lib/manager/events_manager.js:38-45 | the first event of an unseen agency lists it last and creates its structures: a queue holding the event, `[]` previous snapshot and index, a counter of 0, and a `{}` current snapshot holding the connection |
| Manager.AddEventRecords | lib/manager/events_manager.js:52-53 | every accepted call appends the id to the current index and stores the connection; the previous structures, the counter and the other agencies are untouched |
| Manager.AddEventQueues | lib/manager/events_manager.js:56-82 | the event `{id: now, connection}` is appended exactly when the id is not in the previous index or its type or a delay differs; otherwise the queue is unchanged; a call grows the queue by at most one |
| Manager.TruncateToSecondBounds | lib/manager/events_manager.js:152 | `setMilliseconds(0)` gives a whole second, at most the original and less than a second before it |
| Manager.DrainOntoLength | lib/manager/events_manager.js:176-193 | draining appends one graph entry per queued event |
| Manager.DrainInQueueOrder | lib/manager/events_manager.js:176-193 | draining keeps the existing entries, and adds entries in queue order with '@id' = connection id + '#' + ISO time, '@type' 'Event', an empty view, the queued time as result time and the connection as result |
| Manager.SweepDecrements | lib/manager/events_manager.js:207-210 | when every retention counter is positive, the loop lowers each by one and leaves the index list alone |
| Manager.RetainWithoutElements | lib/manager/events_manager.js:207-217 | a container without indexed elements comes out of the retention loop unchanged |
| Manager.FlushRegistry | lib/manager/events_manager.js:156-219 | the registry after the first k turns keeps its agencies in order and their one-to-one keying |
| Manager.DrainOntoKeepsGraph | lib/manager/events_manager.js:191 | draining only appends: the graph before the drain is a prefix of the result |
| Manager.DrainedOntoKeepsBase | lib/manager/events_manager.js:150-151 | the shared graph keeps the skeleton's own entries first, whatever the agencies drain onto it |
| Manager.FlushRegistryStep | lib/manager/events_manager.js:156-158 | the turn of agency number m replaces that agency's slot and nothing else |
| Manager.FlushRegistryAt | lib/manager/events_manager.js:156-219 | after k turns, agency number j is flushed if j < k and untouched otherwise |
| Manager.FlushTurn | lib/manager/events_manager.js:157-217 | one iteration of the loop: the agency's slot is flushed, its queue drained onto the graph so far, and its page appended when the publication rule allows |
| Manager.WritesForAppend | lib/manager/events_manager.js:196-201 | an agency's writes across two write lists are its writes in each, in order |
| Manager.WritesForTurn | lib/manager/events_manager.js:197 | a turn writes only its own agency's file |
| Manager.WritesUpToAt | lib/manager/events_manager.js:156-201 | the writes for agency number j in the first k turns are exactly those of its own turn |
| Manager.FlushAllAt | lib/manager/events_manager.js:148-220 | after `processEvents` each agency's slot is flushed, and its file is written at most once, as the publication rule says |
| Manager.ProcessEventsSwapsAndDrains | lib/manager/events_manager.js:159-162 | afterwards the queue is empty; the previous snapshot and index are the former current ones; the current index is `[]` and the current snapshot the array `[]`; the counter is the number drained (also lines 176-193 and 203) |
| Manager.FlushAllKeepsWellFormed | lib/manager/events_manager.js:148-220 | `processEvents` keeps the registry invariant |
| Manager.ProcessEventsPublishes | lib/manager/events_manager.js:196-201 | the page is written exactly once when the previous counter or the drained count is positive, and never otherwise; it holds the skeleton, then the events of the agencies before it, then the agency's own events in queue order |
| Manager.SecondEmptyCycleIsSkipped | lib/manager/events_manager.js:196-203 | an agency whose queue is empty in two cycles in a row gets no write in the second |
| Manager.EmptyCycleAfterEventsWritesOnce | lib/manager/events_manager.js:196-203 | an idle cycle after a publishing one still writes one page, and the counter drops to 0 |
| Manager.UnchangedUpdateAfterCycleIsNotQueued | lib/manager/events_manager.js:52-82 | a connection sent again unchanged after a publication cycle is not queued again (also lines 159-162) |
| Manager.NewConnectionTwiceInOneCycleIsQueuedTwice | lib/manager/events_manager.js:56-81 | within one cycle the previous index does not change, so a new connection sent twice is queued twice |
| Manager.GatherStore | lib/manager/events_manager.js:9-14 | storing one agency's entries in the six dictionaries stores that agency's slot of the registry view |
| Manager.GatherFlush | lib/manager/events_manager.js:159-162 | one turn's updates of the six dictionaries flush that agency's slot of the registry view (also lines 176-217) |
| Manager.EventsManager.constructor | lib/manager/events_manager.js:8-18 | all six dictionaries and the agency order start empty and the invariant holds |
| Manager.EventsManager.AddEvent | lib/manager/events_manager.js:26-82 | the new state is `AfterAddEvent` of the old one, and the invariant is kept |
| Manager.EventsManager.CreateAgency | lib/manager/events_manager.js:38-45 | the unseen agency gets an empty queue, `[]` previous snapshot and index, an empty current index, a `{}` current snapshot and a 0 counter; it is listed last |
| Manager.EventsManager.RecordEvent | lib/manager/events_manager.js:52-81 | the id is appended to the current index and the connection stored; the event is queued exactly when it is a change |
| Manager.EventsManager.ProcessEvents | lib/manager/events_manager.js:148-220 | the new state and the writes are those of `FlushAll` of the old state; the invariant is kept; the timestamp is truncated to the second |
| Manager.EventsManager.TakeTurn | lib/manager/events_manager.js:156-219 | one loop iteration moves the fields, the graph and the writes from the first k turns to the first k+1 |
| Manager.EventsManager.FlushOne | lib/manager/events_manager.js:157-217 | one agency's fields: swapped, drained, counter set to the drained count, retention applied; graph and writes extended as the publication rule says |
| Manager.EventsManager.SwapSnapshots | lib/manager/events_manager.js:159-162 | the current index and snapshot become the previous ones; the current ones are reset to `[]` |
| Manager.EventsManager.DrainPending | lib/manager/events_manager.js:176-193 | the queue is emptied onto the graph in queue order, and the count is its former length |
| Manager.EventsManager.RetainPrevious | lib/manager/events_manager.js:207-217 | the previous snapshot and index become those of the retention loop; a plain object is left as is |
| Manager.EventsManager.ShiftPending | lib/manager/events_manager.js:178 | `shift()` returns the head of the queue and leaves its tail |
| Manager.Sweep | lib/manager/events_manager.js:207-217 | the imperative retention loop computes the same elements and index list as its reference definition |
| Routes.Protocol | lib/routes/events.js:265-276 | the protocol is the `x-forwarded-proto` header when defined and not empty, else the configured protocol when defined and not empty, else 'http'; never empty |
| Routes.AnnotatedSetsLinks | lib/routes/events.js:278-291 | annotation sets '@id' to the events URI plus the ISO time, and the search template to the agency's events template; it gives every graph entry the view connections URI + departure time; everything else is kept |
| Routes.AnnotatedIdempotent | lib/routes/events.js:284-291 | annotating an annotated page again at the same time changes nothing |
| Routes.AddHydraMetaData | lib/routes/events.js:263-294 | the loop over the graph gives exactly the annotated page of the protocol and host chosen as above |
| Routes.StripLinks | lib/routes/events.js:307-311 | the pushed clone has no 'hydra:next' or 'hydra:previous' in '@context' or at top level; every other key and the graph are kept |
| Routes.StripLinksIdempotent | lib/routes/events.js:307-311 | stripping a stripped page changes nothing |
| Routes.LastSlash | lib/routes/events.js:148 | the position found holds '/' and no later position does; -1 when there is none |
| Routes.LastSlashOfAppend | lib/routes/events.js:148 | in `prefix/name` with no '/' in the name, the last '/' is the one before the name |
| Routes.AgencyOfWrittenPage | lib/routes/events.js:148 | the directory name of `storage/agency/file` is `agency`, when neither is empty or contains '/'; so a page written for an agency is routed to that agency's listener list |
| Routes.Attached | lib/routes/events.js:123-129 | attaching creates the agency's list if missing and appends the client; other lists are unchanged |
| Routes.DetachRemovesListener | lib/routes/events.js:130-132 | closing removes the client's first occurrence: the others keep their order, the multiset loses one copy, other lists are unchanged |
| Routes.RemovedAt | lib/routes/events.js:131 | removing position i removes one copy of its element |
| Routes.DetachAbsentRemovesLast | lib/routes/events.js:131 | closing a client that is not in the list removes the list's last client (`splice(-1, 1)`) |
| Routes.AttachThenCloseRestores | lib/routes/events.js:118-133 | attaching a new client and closing it gives back the previous list |
| Routes.Admit | lib/routes/events.js:49-62 | not found exactly when the agency is cached and its directory is missing; a cached agency with a directory is appended again; an uncached one is let through unchanged |
| Routes.ColdCacheStaysEmpty | lib/routes/events.js:19 | starting empty, the cache stays empty over any series of requests and admits every request (also lines 49-62) |
| Routes.ReplayAddsNoAgency | lib/routes/events.js:83-99 | requests never add an agency the cache did not already hold |
| Routes.SortedCons | lib/routes/events.js:197 | a head no greater than a sorted tail gives a sorted list |
| Routes.Insert | lib/routes/events.js:197 | inserting into a sorted list keeps it sorted and adds exactly that element |
| Routes.SortTimes | lib/routes/events.js:197 | the sort gives a sorted permutation of the timestamps |
| Routes.SortedLastIsMax | lib/routes/events.js:201 | the last sorted timestamp is the maximum of the entries |
| Routes.LiveEdge | lib/routes/events.js:201-212 | when every page is older than the target, a redirectable client gets Redirect(latest page); any other client gets the last index and no next page; when some page is not older, the result is NoPage exactly when the search finds nothing |
| Routes.Neighbours | lib/routes/events.js:218-228 | next is set exactly when index < length-1, to the timestamp after; previous is set exactly when index > 1, to the timestamp before |
| Routes.GetEventsPageOld | lib/routes/events.js:184-240 | the result is the lookup on the sorted entries |
| Routes.PageTimes | lib/routes/events.js:192-197 | the copying loop and the sort give the sorted timestamps |
| Routes.LookUp | lib/routes/events.js:200-239 | the branches give the live-edge, search and neighbour result of the lookup |
| Routes.Events.constructor | lib/routes/events.js:14-31 | no listener lists and an empty agency cache |
| Routes.Events.AddListenerPubSub | lib/routes/events.js:118-136 | the listener lists become `Attached` of the old ones; the cache is unchanged |
| Routes.Events.OnClose | lib/routes/events.js:130-132 | the listener lists become `Detached` of the old ones |
| Routes.Events.CheckAgency | lib/routes/events.js:49-62 | admits exactly as `Admit` says and stores its new cache; listeners unchanged (also lines 83-99) |
| Routes.Events.GetEventsSSE | lib/routes/events.js:44-69 | a rejected agency gets "Agency X not found" and nothing changes; otherwise the cache is updated and the client attached |
| Routes.Events.GetEventsPolling | lib/routes/events.js:77-106 | a rejected agency gets `{error: 404, message: "Agency X not found"}`; otherwise the conditional-GET answer or the annotated current page (also lines 160-174 and 242-248) |
| Routes.Events.HandlePubSub | lib/routes/events.js:145-150 | the changed page, without navigation links, is broadcast through the first listener of the agency named by the file's directory; there is nothing to push when that agency has no listener |

## Left out

- File and directory I/O is not modelled: `readFile`, `readDir`, `existsSync`,
  `mkdirSync` and the write streams. A directory's existence, the pages read
  and the skeleton template are parameters. Writes are returned as a list of
  (agency, page) in order.
- The clock is not modelled. `new Date()` and `toISOString()` are supplied as
  `Time` values (milliseconds and ISO text).
- Parsing page file names into dates, with their NaN cases, is not modelled.
  The entries are given as millisecond timestamps.
- Routes.SortTimes: JavaScript's default `array.sort()` compares the numbers
  as strings. The model sorts numerically. The two agree when all timestamps
  are non-negative and have the same number of digits (every date from
  2001-09-09 to 2286).
- `utils.binarySearch` and `utils.handleConditionalGET` are not part of this
  model. `binarySearch` is a function parameter with no contract, so nothing
  is proved about which entry it finds. `handleConditionalGET` is a boolean
  parameter saying whether the helper answered the request.
- The search result and the neighbours of `_getEventsPageOld` are modelled.
  The read and annotation of the found page are left out, because the page
  comes from disk.
- Object and array key quirks are not modelled:
  - names on Array.prototype ("length", "push", "map", ...) are already `in`
    the listener dictionary (lib/routes/events.js:123), and names on
    Object.prototype ("constructor", "toString", "__proto__", ...) are already
    `in` `pendingEvents` (lib/manager/events_manager.js:38). The source then
    skips creating the agency's entries and throws a TypeError at the push
    that follows (lib/routes/events.js:129, lib/manager/events_manager.js:52);
    the model treats them as fresh agencies;
  - `Object.keys` puts integer-like keys first;
  - connection ids are assumed not to be array-index strings.
- The file watcher reacts to 'change' only (lib/routes/events.js:27), so the
  first write of a page file, which fires 'add', is not pushed. Which watcher
  events occur is not modelled; `HandlePubSub` is the handler for one.
- Routes.AgencyFromPath: paths are treated as POSIX text with single
  slashes. Node's handling of trailing or doubled slashes is not modelled.
- Manager.Differs: the delays are compared as integers with a single
  "absent" value. JavaScript's `!==` also sees `NaN` as differing from
  itself, which would queue such a connection on every call, and it tells
  `null` apart from `undefined`.
- Routes.Protocol: a configured protocol of `null` is treated like an
  undefined one. So is a header value that is not a string.
- `hydra:search` and `@context` are assumed to be objects that are present,
  as the source assumes.
- Concurrency is not modelled: the interleaving of async handlers, a
  connection closing during a broadcast, and the timer that calls
  `processEvents`.
- Logging, timing measurements, `_lastPubSubTime`, the reconnection time and
  the file watcher setup are not modelled.
- The SSE library calls (`res.sse.broadcast.event`, `res.sse.event`,
  `res.sse.data`, `res.end`) are not modelled. The message that would be sent
  is returned instead.
- Manager.EventsManager.ProcessEvents: the timestamp is truncated after the
  loop, not before it. The loop reads it only for a log message.
- Manager.Sweep: the retention loop is modelled as written. No claim is made
  that it purges correctly, because it never runs on a reachable state.
- The commented-out legacy block of `addEvent` (lines 85-141) is not
  modelled; it is dead code.
- Routes.Events.HandlePubSub: when the agency has no listener, the source
  throws a TypeError. The model returns `None`.
