/**
 * The delivery side of lib/routes/events.js: the per-agency listener lists of
 * the publish/subscribe channel, the admission check against the cache of
 * known agencies, the selection of a stored events page for a requested time,
 * the hydra metadata added to served pages, the removal of navigation links
 * from pushed pages, and the agency read from the path of a changed file.
 *
 * Requests, responses, the file system and the clock are not modelled: a
 * response object is a `Listener` identity, the existence of an agency's
 * directory and the pages read from disk are parameters, and so is the result
 * of the conditional-GET helper and of the binary search, whose sources are not
 * part of this model.
 */
module Routes {
  import opened Wrappers
  import opened Documents
  import opened JsArrays

  /** A client's response object, by identity. */
  type Listener = nat

  // ---------------------------------------------------------------------------
  // _addHydraMetaData (lines 263-294)
  // ---------------------------------------------------------------------------

  /**
   * The protocol of the served URIs (lines 265-276): the `x-forwarded-proto`
   * header when it is defined and not empty, else the configured protocol
   * when it is defined and not empty, else 'http'. It is never empty.
   */
  function Protocol(forwardedProto: Option<string>, configured: Option<string>): (p: string)
    ensures p != ""
    ensures forwardedProto.Some? && forwardedProto.value != "" ==> p == forwardedProto.value
    ensures (forwardedProto.None? || forwardedProto.value == "") && configured.Some? && configured.value != "" ==>
              p == configured.value
    ensures (forwardedProto.None? || forwardedProto.value == "") && (configured.None? || configured.value == "") ==>
              p == "http"
  {
    if forwardedProto.None? || forwardedProto.value == "" then
      if configured.None? || configured.value == "" then "http" else configured.value
    else forwardedProto.value
  }

  /** `protocol + '://' + hostname + '/'` (line 278). */
  function Host(protocol: string, hostname: string): string
  {
    protocol + "://" + hostname + "/"
  }

  /** The server settings the routes read: `serverConfig.protocol` and `serverConfig.hostname`. */
  datatype ServerConfig = ServerConfig(protocol: Option<string>, hostname: string)

  /** The page and template URIs of lines 279-281, for a request's protocol header. */
  function HostFor(forwardedProto: Option<string>, config: ServerConfig): string
  {
    Host(Protocol(forwardedProto, config.protocol), config.hostname)
  }

  /**
   * The page with its metadata: '@id' is the events URI with the current time,
   * the search template is the agency's events template, and every graph entry's
   * 'hydra:view' is the connections URI of its connection's departure time.
   */
  ghost function Annotated(page: Page, host: string, agency: Agency, now: Time): Page
  {
    page.(props := page.props["@id" := JStr(host + agency + "/events?lastSyncTime=" + now.iso)],
          search := page.search["hydra:template" := JStr(host + agency + "/events{?lastSyncTime}")],
          graph := seq(|page.graph|, i requires 0 <= i < |page.graph| =>
                         page.graph[i].(view := host + agency + "/connections?departureTime=" + page.graph[i].connection.departureTime)))
  }

  /**
   * Annotation keeps the graph's length, its entries' ids, types, result times
   * and connections, and the page's context, and sets the fields it writes to
   * their URIs whatever they held before.
   */
  lemma AnnotatedSetsLinks(page: Page, host: string, agency: Agency, now: Time)
    ensures var r := Annotated(page, host, agency, now);
      && r.context == page.context
      && r.props.Keys == page.props.Keys + {"@id"} && r.search.Keys == page.search.Keys + {"hydra:template"}
      && r.props["@id"] == JStr(host + agency + "/events?lastSyncTime=" + now.iso)
      && r.search["hydra:template"] == JStr(host + agency + "/events{?lastSyncTime}")
      && (forall k :: k in page.props && k != "@id" ==> r.props[k] == page.props[k])
      && (forall k :: k in page.search && k != "hydra:template" ==> r.search[k] == page.search[k])
      && |r.graph| == |page.graph|
      && forall i :: 0 <= i < |page.graph| ==>
           var e, e' := page.graph[i], r.graph[i];
           && e'.id == e.id && e'.kind == e.kind && e'.resultTime == e.resultTime && e'.connection == e.connection
           && e'.view == host + agency + "/connections?departureTime=" + e.connection.departureTime
  {
  }

  /** Annotating an annotated page again, at the same time, changes nothing. */
  lemma AnnotatedIdempotent(page: Page, host: string, agency: Agency, now: Time)
    ensures Annotated(Annotated(page, host, agency, now), host, agency, now) == Annotated(page, host, agency, now)
  {
    var r := Annotated(page, host, agency, now);
    var r2 := Annotated(r, host, agency, now);
    assert r2.graph == r.graph;
    assert r2.props == r.props;
    assert r2.search == r.search;
  }

  /**
   * `_addHydraMetaData(req, res, page, agency)`; `forwardedProto` is the
   * request's `x-forwarded-proto` header and `now` the `new Date()` of line 284.
   * The source updates the parsed page in place; here the updated page is returned.
   */
  method AddHydraMetaData(forwardedProto: Option<string>, config: ServerConfig, page: Page, agency: Agency, now: Time)
    returns (annotated: Page)
    ensures annotated == Annotated(page, HostFor(forwardedProto, config), agency, now)
  {
    var protocol := "";
    if forwardedProto.None? || forwardedProto.value == "" {
      if config.protocol.None? || config.protocol.value == "" {
        protocol := "http";
      } else {
        protocol := config.protocol.value;
      }
    } else {
      protocol := forwardedProto.value;
    }

    var host := protocol + "://" + config.hostname + "/";
    var eventsURI := host + agency + "/events?lastSyncTime=";
    var templateURI := host + agency + "/events{?lastSyncTime}";
    var pageURI := host + agency + "/connections?departureTime=";

    annotated := page.(props := page.props["@id" := JStr(eventsURI + now.iso)],
                       search := page.search["hydra:template" := JStr(templateURI)]);

    var graph := page.graph;
    for g := 0 to |graph|
      invariant |graph| == |page.graph|
      invariant forall i :: 0 <= i < g ==> graph[i] == page.graph[i].(view := pageURI + page.graph[i].connection.departureTime)
      invariant forall i :: g <= i < |graph| ==> graph[i] == page.graph[i]
    {
      graph := graph[g := graph[g].(view := pageURI + graph[g].connection.departureTime)];
    }
    annotated := annotated.(graph := graph);
    assert host == HostFor(forwardedProto, config);
    assert graph == Annotated(page, host, agency, now).graph;
  }

  // ---------------------------------------------------------------------------
  // _pushToClients (lines 305-321)
  // ---------------------------------------------------------------------------

  /** The navigation links removed from pushed pages. */
  const NavigationKeys: set<string> := {"hydra:next", "hydra:previous"}

  /**
   * The clone of a page without its navigation links (lines 307-311):
   * 'hydra:next' and 'hydra:previous' are deleted from the '@context' object
   * and from the page itself; every other key keeps its value. The caller's
   * page is a value and so is not changed.
   */
  function StripLinks(data: Page): (r: Page)
    ensures "hydra:next" !in r.context && "hydra:previous" !in r.context
    ensures "hydra:next" !in r.props && "hydra:previous" !in r.props
    ensures r.context.Keys == data.context.Keys - NavigationKeys && r.props.Keys == data.props.Keys - NavigationKeys
    ensures forall k :: k in r.context ==> r.context[k] == data.context[k]
    ensures forall k :: k in r.props ==> r.props[k] == data.props[k]
    ensures r.search == data.search && r.graph == data.graph
  {
    var context := data.context - {"hydra:next"} - {"hydra:previous"};
    var props := data.props - {"hydra:next"} - {"hydra:previous"};
    data.(context := context, props := props)
  }

  /** Stripping a stripped page changes nothing. */
  lemma StripLinksIdempotent(data: Page)
    ensures StripLinks(StripLinks(data)) == StripLinks(data)
  {
    var r := StripLinks(data);
    assert StripLinks(r).context == r.context;
    assert StripLinks(r).props == r.props;
  }

  /** An SSE message: its event type, payload and id, and whether it is broadcast on the client's channel. */
  datatype Message = Message(client: Listener, eventType: string, data: Page, id: Time, broadcast: bool)

  /** `_pushToClients(client, id, data, broadcast)` with the default event type 'message': what is sent. */
  function PushToClients(client: Listener, id: Time, data: Page, broadcast: bool): Message
  {
    Message(client, "message", StripLinks(data), id, broadcast)
  }

  // ---------------------------------------------------------------------------
  // Agency from a file path (line 148)
  // ---------------------------------------------------------------------------

  /** The position of the last '/' in `s`, or -1. */
  function LastSlash(s: string): (i: int)
    ensures -1 <= i < |s|
    ensures 0 <= i ==> s[i] == '/'
    ensures forall k :: i < k < |s| ==> s[k] != '/'
  {
    if s == [] then -1
    else if s[|s| - 1] == '/' then |s| - 1
    else LastSlash(s[..|s| - 1])
  }

  /** `path.dirname` of a path without trailing or doubled slashes. */
  function DirName(s: string): string
  {
    var i := LastSlash(s);
    if i < 0 then "." else if i == 0 then "/" else s[..i]
  }

  /** `path.basename` of a path without trailing slashes. */
  function BaseName(s: string): string
  {
    s[LastSlash(s) + 1..]
  }

  /** `path.basename(path.dirname(file))`: the name of the file's directory. */
  function AgencyFromPath(file: string): string
  {
    BaseName(DirName(file))
  }

  /** A name without '/' is the last segment after the last '/'. */
  lemma LastSlashOfAppend(prefix: string, name: string)
    requires '/' !in name
    ensures LastSlash(prefix + "/" + name) == |prefix|
  {
    var s := prefix + "/" + name;
    var i := LastSlash(s);
    assert s[|prefix|] == '/';
  }

  /**
   * The page the manager writes for an agency, `storage/agency/name`, yields
   * that agency again when the agency and the file name are not empty and
   * contain no '/', so that the path has no doubled or trailing slash.
   */
  lemma AgencyOfWrittenPage(storage: string, agency: Agency, name: string)
    requires agency != "" && name != ""
    requires '/' !in agency && '/' !in name
    ensures AgencyFromPath(storage + "/" + agency + "/" + name) == agency
  {
    var dir := storage + "/" + agency;
    assert storage + "/" + agency + "/" + name == dir + "/" + name;
    LastSlashOfAppend(dir, name);
    assert DirName(dir + "/" + name) == dir by {
      assert (dir + "/" + name)[..|dir|] == dir;
    }
    LastSlashOfAppend(storage, agency);
    assert dir[|storage| + 1..] == agency;
  }

  // ---------------------------------------------------------------------------
  // Listener lists (lines 118-136)
  // ---------------------------------------------------------------------------

  /** An agency's listeners, `[]` when it has no list yet. */
  function ListOf(listeners: map<Agency, seq<Listener>>, agency: Agency): seq<Listener>
  {
    if agency in listeners then listeners[agency] else []
  }

  /**
   * The lists after a client attaches (lines 123-129): the agency's list is
   * created if missing and the client appended at its end; other lists are unchanged.
   */
  function Attached(listeners: map<Agency, seq<Listener>>, agency: Agency, res: Listener): (r: map<Agency, seq<Listener>>)
    ensures r.Keys == listeners.Keys + {agency}
    ensures r[agency] == ListOf(listeners, agency) + [res]
    ensures forall b :: b in listeners && b != agency ==> r[b] == listeners[b]
  {
    listeners[agency := ListOf(listeners, agency) + [res]]
  }

  /** The lists after the close callback of a client (line 131): `splice(indexOf(res), 1)` on the agency's list. */
  function Detached(listeners: map<Agency, seq<Listener>>, agency: Agency, res: Listener): map<Agency, seq<Listener>>
    requires agency in listeners
  {
    listeners[agency := SpliceOne(listeners[agency], IndexOf(listeners[agency], res))]
  }

  /**
   * Closing a listened connection removes its first occurrence from the
   * agency's list; the others keep their order, and other lists are unchanged.
   */
  lemma DetachRemovesListener(listeners: map<Agency, seq<Listener>>, agency: Agency, res: Listener)
    requires agency in listeners && res in listeners[agency]
    ensures var l, l' := listeners[agency], Detached(listeners, agency, res)[agency];
      var i := IndexOf(l, res);
      && 0 <= i && l[i] == res && res !in l[..i]
      && l' == l[..i] + l[i + 1..] && |l'| == |l| - 1
      && multiset(l') == multiset(l) - multiset{res}
    ensures Detached(listeners, agency, res).Keys == listeners.Keys
    ensures forall b :: b in listeners && b != agency ==> Detached(listeners, agency, res)[b] == listeners[b]
  {
    var l := listeners[agency];
    var i := IndexOf(l, res);
    RemovedAt(l, i);
  }

  /** Removing the element at `i` keeps the others. */
  lemma RemovedAt(l: seq<Listener>, i: nat)
    requires i < |l|
    ensures multiset(l[..i] + l[i + 1..]) == multiset(l) - multiset{l[i]}
  {
    assert l == l[..i] + ([l[i]] + l[i + 1..]);
  }

  /**
   * As written, closing a connection that is not in the agency's list removes
   * the list's last listener, since `indexOf` gives -1 and `splice(-1, 1)`
   * removes the last element.
   */
  lemma DetachAbsentRemovesLast(listeners: map<Agency, seq<Listener>>, agency: Agency, res: Listener)
    requires agency in listeners && res !in listeners[agency] && listeners[agency] != []
    ensures var l := listeners[agency];
      Detached(listeners, agency, res)[agency] == l[..|l| - 1]
  {
  }

  /** Attaching a new client and closing its connection gives back the agency's previous list. */
  lemma AttachThenCloseRestores(listeners: map<Agency, seq<Listener>>, agency: Agency, res: Listener)
    requires res !in ListOf(listeners, agency)
    ensures Detached(Attached(listeners, agency, res), agency, res)[agency] == ListOf(listeners, agency)
  {
    var l := ListOf(listeners, agency);
    var l' := l + [res];
    assert l'[|l|] == res;
    assert IndexOf(l', res) == |l|;
    assert l'[..|l|] == l;
  }

  // ---------------------------------------------------------------------------
  // Agency cache admission (lines 47-62 and 81-99)
  // ---------------------------------------------------------------------------

  /** The answer of the cache check: the new cache, or the agency reported as not found. */
  datatype Admission = Admitted(known: seq<Agency>) | NotFound

  /**
   * The cache check, as written: an agency already in `knownAgencies` whose
   * directory is missing is not found; one whose directory exists is appended
   * to the cache again; an agency not in the cache is let through unchanged.
   */
  function Admit(known: seq<Agency>, agency: Agency, dirExists: bool): (r: Admission)
    ensures r.NotFound? <==> agency in known && !dirExists
    ensures agency !in known ==> r == Admitted(known)
    ensures agency in known && dirExists ==> r == Admitted(known + [agency])
  {
    if IndexOf(known, agency) > -1 then
      if !dirExists then NotFound else Admitted(known + [agency])
    else Admitted(known)
  }

  /** The cache after a series of requests, each an agency and whether its directory exists. */
  function Replay(known: seq<Agency>, requests: seq<(Agency, bool)>): seq<Agency>
  {
    if requests == [] then known
    else
      var (agency, dirExists) := requests[|requests| - 1];
      var before := Replay(known, requests[..|requests| - 1]);
      match Admit(before, agency, dirExists)
      case Admitted(known') => known'
      case NotFound => before
  }

  /**
   * The cache only grows with agencies it already holds, so a cache that
   * starts empty stays empty and never rejects a request.
   */
  lemma {:induction false} ColdCacheStaysEmpty(requests: seq<(Agency, bool)>)
    ensures Replay([], requests) == []
    ensures forall agency, dirExists :: Admit(Replay([], requests), agency, dirExists) == Admitted([])
  {
    if requests != [] {
      ColdCacheStaysEmpty(requests[..|requests| - 1]);
    }
  }

  /** Every agency the cache holds was in it before: replaying requests adds no new agency. */
  lemma {:induction false} ReplayAddsNoAgency(known: seq<Agency>, requests: seq<(Agency, bool)>)
    ensures forall a :: a in Replay(known, requests) ==> a in known
  {
    if requests != [] {
      ReplayAddsNoAgency(known, requests[..|requests| - 1]);
    }
  }

  // ---------------------------------------------------------------------------
  // _getEventsPageOld (lines 184-240)
  // ---------------------------------------------------------------------------

  /** A JavaScript Date built from a number: `new Date(undefined)` is an invalid date. */
  datatype JsDate = Date(ms: int) | InvalidDate

  /** `new Date(times[k])`. */
  function DateAt(times: seq<int>, k: int): JsDate
  {
    if 0 <= k < |times| then Date(times[k]) else InvalidDate
  }

  /**
   * The answer of the page lookup: a redirect to the latest page, the page found
   * with its index and its neighbours' timestamps (`None` for null), or no page.
   */
  datatype PageLookup =
    | Redirect(latest: int)
    | Found(timestamp: int, index: int, previous: Option<JsDate>, next: Option<JsDate>)
    | NoPage

  ghost predicate Sorted(s: seq<int>)
  {
    forall i, j :: 0 <= i < j < |s| ==> s[i] <= s[j]
  }

  lemma SortedCons(h: int, t: seq<int>)
    requires Sorted(t) && (t == [] || h <= t[0])
    ensures Sorted([h] + t)
  {
    var r := [h] + t;
    forall i, j | 0 <= i < j < |r|
      ensures r[i] <= r[j]
    {
      if i == 0 {
        assert r[j] == t[j - 1] && t[0] <= t[j - 1];
      } else {
        assert r[i] == t[i - 1] && r[j] == t[j - 1];
      }
    }
  }

  /** `x` inserted into a sorted list. */
  function Insert(x: int, s: seq<int>): (r: seq<int>)
    requires Sorted(s)
    ensures Sorted(r) && multiset(r) == multiset(s) + multiset{x}
    ensures r[0] == x || (s != [] && r[0] == s[0])
  {
    if s == [] then [x]
    else if x <= s[0] then [x] + s
    else
      var rest := Insert(x, s[1..]);
      assert s == [s[0]] + s[1..];
      SortedCons(s[0], rest);
      [s[0]] + rest
  }

  /** `array.sort()` on page timestamps, in numeric order. */
  function SortTimes(s: seq<int>): (r: seq<int>)
    ensures Sorted(r) && multiset(r) == multiset(s)
  {
    if s == [] then []
    else
      assert s == [s[0]] + s[1..];
      Insert(s[0], SortTimes(s[1..]))
  }

  /** The last element of a sorted permutation of a non-empty list is that list's maximum. */
  lemma SortedLastIsMax(s: seq<int>)
    requires s != []
    ensures var r := SortTimes(s);
      |r| == |s| && r[|r| - 1] in s && forall x :: x in s ==> x <= r[|r| - 1]
  {
    var r := SortTimes(s);
    assert |r| == |multiset(r)| == |multiset(s)| == |s|;
    assert r[|r| - 1] in multiset(r);
    forall x | x in s
      ensures x <= r[|r| - 1]
    {
      assert x in multiset(s);
      assert x in multiset(r);
      var i :| 0 <= i < |r| && r[i] == x;
    }
  }

  /**
   * The lookup on the sorted timestamps: when the target is later than the
   * latest page, redirect when allowed or select the last index; otherwise ask
   * the binary search. For a selected index the previous timestamp is set only
   * when the index is above 1, and the next one when it is below the last index.
   */
  function SelectPage(times: seq<int>, target: int, allowRedirect: bool, binarySearch: (int, seq<int>) -> Option<(int, int)>): PageLookup
  {
    var liveEdge := |times| > 0 && times[|times| - 1] < target;
    if liveEdge && allowRedirect then Redirect(times[|times| - 1])
    else
      var result: Option<(int, int)> := if liveEdge then Some((times[|times| - 1], |times| - 1)) else binarySearch(target, times);
      if result.None? then NoPage
      else
        var (timestamp, index) := result.value;
        Found(timestamp, index,
              if index > 1 then Some(DateAt(times, index - 1)) else None,
              if index < |times| - 1 then Some(DateAt(times, index + 1)) else None)
  }

  /**
   * Live edge: when every page is older than the target, a client that may be
   * redirected is sent to the latest page, and any other is served the last
   * index; only when some page is at or after the target is the binary search asked.
   */
  lemma LiveEdge(entries: seq<int>, target: int, allowRedirect: bool, binarySearch: (int, seq<int>) -> Option<(int, int)>)
    requires entries != []
    ensures var times := SortTimes(entries);
      var r := SelectPage(times, target, allowRedirect, binarySearch);
      var latest := times[|times| - 1];
      && latest in entries && (forall x :: x in entries ==> x <= latest)
      && ((forall x :: x in entries ==> x < target) ==>
            if allowRedirect then r == Redirect(latest)
            else r.Found? && r.timestamp == latest && r.index == |entries| - 1 && r.next == None)
      && ((exists x :: x in entries && target <= x) ==>
            (binarySearch(target, times).None? <==> r == NoPage))
  {
    SortedLastIsMax(entries);
  }

  /**
   * Neighbours: for a selected index, the next timestamp is set exactly when the
   * index is below the last index, to the timestamp after it, and the previous
   * one exactly when the index is above 1, to the timestamp before it; at
   * index 1 the previous page is left null, as written.
   */
  lemma Neighbours(times: seq<int>, target: int, allowRedirect: bool, binarySearch: (int, seq<int>) -> Option<(int, int)>)
    ensures var r := SelectPage(times, target, allowRedirect, binarySearch);
      r.Found? ==>
        && (r.next.Some? <==> r.index < |times| - 1)
        && (r.next.Some? && 0 <= r.index ==> r.next == Some(Date(times[r.index + 1])))
        && (r.previous.Some? <==> r.index > 1)
        && (r.previous.Some? && r.index <= |times| ==> r.previous == Some(Date(times[r.index - 1])))
  {
  }

  /**
   * `_getEventsPageOld(req, res, when, agency, allowRedirect)` without its file
   * reads: `entries` are the page timestamps parsed from the directory's file
   * names, `target` is `when.getTime()`, and `binarySearch` is `utils.binarySearch`.
   */
  method GetEventsPageOld(entries: seq<int>, target: int, allowRedirect: bool,
                          binarySearch: (int, seq<int>) -> Option<(int, int)>) returns (r: PageLookup)
    ensures r == SelectPage(SortTimes(entries), target, allowRedirect, binarySearch)
  {
    var times := PageTimes(entries);
    r := LookUp(times, target, allowRedirect, binarySearch);
  }

  /** Lines 192-197: the timestamps collected into a new list, then sorted. */
  method PageTimes(entries: seq<int>) returns (times: seq<int>)
    ensures times == SortTimes(entries)
  {
    times := [];
    for e := 0 to |entries|
      invariant times == entries[..e]
    {
      times := times + [entries[e]];
    }
    assert times == entries;
    times := SortTimes(times);
  }

  /** Lines 200-231 on the sorted timestamps. */
  method LookUp(times: seq<int>, target: int, allowRedirect: bool,
                binarySearch: (int, seq<int>) -> Option<(int, int)>) returns (r: PageLookup)
    ensures r == SelectPage(times, target, allowRedirect, binarySearch)
  {
    var result: Option<(int, int)>;
    if |times| > 0 && times[|times| - 1] < target {
      if allowRedirect {
        return Redirect(times[|times| - 1]);
      }
      result := Some((times[|times| - 1], |times| - 1));
    } else {
      result := binarySearch(target, times);
    }

    var eventsDatePrevious: Option<JsDate> := None;
    var eventsDateNext: Option<JsDate> := None;
    if result.Some? {
      var (timestamp, index) := result.value;
      if index > 1 {
        eventsDatePrevious := Some(DateAt(times, index - 1));
      }
      if index < |times| - 1 {
        eventsDateNext := Some(DateAt(times, index + 1));
      }
      return Found(timestamp, index, eventsDatePrevious, eventsDateNext);
    }
    return NoPage;
  }

  // ---------------------------------------------------------------------------
  // The routes object
  // ---------------------------------------------------------------------------

  /** What a subscribing client receives: the not-found message (then the stream ends), or a subscription. */
  datatype SseReply = SseNotFound(message: string) | Subscribed

  /**
   * What a polling client receives: the 404 JSON error, the answer of the
   * conditional-GET helper, or the current page with its metadata.
   */
  datatype PollReply = PollNotFound(error: int, message: string) | Conditional | EventsPage(page: Page)

  /** The not-found message of lines 54 and 91. */
  function NotFoundMessage(agency: Agency): string
  {
    "Agency " + agency + " not found"
  }

  /** Class Events with the listener lists and the agency cache (lines 15 and 19). */
  class Events {
    var listeners: map<Agency, seq<Listener>>
    var knownAgencies: seq<Agency>

    constructor ()
      ensures listeners == map[] && knownAgencies == []
    {
      listeners := map[];
      knownAgencies := [];
    }

    /** `_addListenerPubSub(req, res, agency)`: attaches the client to the agency's list. */
    method AddListenerPubSub(agency: Agency, res: Listener)
      modifies this
      ensures listeners == Attached(old(listeners), agency, res) && knownAgencies == old(knownAgencies)
    {
      if agency !in listeners {
        listeners := listeners[agency := []];
      }
      listeners := listeners[agency := listeners[agency] + [res]];
    }

    /** The 'close' callback registered for a client of `agency` (lines 130-132). */
    method OnClose(agency: Agency, res: Listener)
      requires agency in listeners
      modifies this
      ensures listeners == Detached(old(listeners), agency, res) && knownAgencies == old(knownAgencies)
    {
      listeners := listeners[agency := SpliceOne(listeners[agency], IndexOf(listeners[agency], res))];
    }

    /** The cache check shared by `getEventsSSE` and `getEventsPolling`; `dirExists` is `fs.existsSync` of the agency's directory. */
    method CheckAgency(agency: Agency, dirExists: bool) returns (admitted: bool)
      modifies this
      ensures var a := Admit(old(knownAgencies), agency, dirExists);
        && admitted == a.Admitted?
        && knownAgencies == (if a.Admitted? then a.known else old(knownAgencies))
        && listeners == old(listeners)
    {
      if IndexOf(knownAgencies, agency) > -1 {
        if !dirExists {
          return false;
        } else {
          knownAgencies := knownAgencies + [agency];
        }
      }
      return true;
    }

    /** `getEventsSSE(req, res)` for a client `res` asking for `agency`. */
    method GetEventsSSE(agency: Agency, dirExists: bool, res: Listener) returns (reply: SseReply)
      modifies this
      ensures var a := Admit(old(knownAgencies), agency, dirExists);
        if a.NotFound? then
          reply == SseNotFound(NotFoundMessage(agency)) && listeners == old(listeners) && knownAgencies == old(knownAgencies)
        else
          reply == Subscribed && knownAgencies == a.known && listeners == Attached(old(listeners), agency, res)
    {
      var admitted := CheckAgency(agency, dirExists);
      if !admitted {
        return SseNotFound("Agency " + agency + " not found");
      }
      AddListenerPubSub(agency, res);
      return Subscribed;
    }

    /**
     * `getEventsPolling(req, res)` with `_handlePolling`: `current` is the
     * agency's parsed `events.jsonld`, and `answeredConditionally` is what
     * `utils.handleConditionalGET` returns.
     */
    method GetEventsPolling(agency: Agency, dirExists: bool, forwardedProto: Option<string>, config: ServerConfig,
                            current: Page, answeredConditionally: bool, now: Time) returns (reply: PollReply)
      modifies this
      ensures var a := Admit(old(knownAgencies), agency, dirExists);
        && listeners == old(listeners)
        && (a.NotFound? ==> reply == PollNotFound(404, NotFoundMessage(agency)) && knownAgencies == old(knownAgencies))
        && (a.Admitted? ==>
              && knownAgencies == a.known
              && reply == if answeredConditionally then Conditional
                          else EventsPage(Annotated(current, HostFor(forwardedProto, config), agency, now)))
    {
      var admitted := CheckAgency(agency, dirExists);
      if !admitted {
        return PollNotFound(404, "Agency " + agency + " not found");
      }
      var events := AddHydraMetaData(forwardedProto, config, current, agency, now);
      if !answeredConditionally {
        return EventsPage(events);
      }
      return Conditional;
    }

    /**
     * `_handlePubSub(file)`: the changed page, parsed as `page`, is pushed to the
     * first listener of the agency named by the file's directory. The source
     * throws when that agency has no listener; that case gives `None` here.
     */
    method HandlePubSub(file: string, page: Page, now: Time) returns (pushed: Option<Message>)
      ensures var agency := AgencyFromPath(file);
        pushed == if agency in listeners && |listeners[agency]| > 0
                  then Some(PushToClients(listeners[agency][0], now, page, true)) else None
    {
      var agency := BaseName(DirName(file));
      if agency !in listeners || |listeners[agency]| == 0 {
        return None;
      }
      return Some(PushToClients(listeners[agency][0], now, page, true));
    }
  }
}
