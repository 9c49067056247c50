/**
 * The JSON-LD documents the server produces and serves: connections, the
 * events wrapping them, and pages. Keys the core never looks at are kept as
 * opaque JSON values.
 */
module Documents {
  import opened Wrappers

  /** An agency, by the name that is its directory under the events storage. */
  type Agency = string

  /** A JSON value, for payload that is carried through unchanged. */
  datatype Json =
    | JNull
    | JBool(b: bool)
    | JNum(n: int)
    | JStr(s: string)
    | JArr(items: seq<Json>)
    | JObj(fields: map<string, Json>)

  /** A JavaScript Date: milliseconds since the epoch and its `toISOString()` text, both supplied by the clock. */
  datatype Time = Time(ms: int, iso: string)

  /**
   * A linked connection. `id` is its '@id', `kind` its '@type'; a delay is
   * `None` when the key is undefined. `payload` holds every other key.
   */
  datatype Connection = Connection(
    id: string,
    kind: string,
    departureDelay: Option<int>,
    arrivalDelay: Option<int>,
    departureTime: string,
    payload: map<string, Json>)

  /**
   * One entry of a page's '@graph': `id` is its '@id', `kind` its '@type',
   * `view` its 'hydra:view', `resultTime` its 'sosa:resultTime', and
   * `connection` the 'Connection' under its 'sosa:hasResult'.
   */
  datatype Event = Event(id: string, kind: string, view: string, resultTime: Time, connection: Connection)

  /**
   * A page: its '@context' object, its 'hydra:search' object, its '@graph'
   * list, and every other top-level key (such as '@id', 'hydra:next' and
   * 'hydra:previous') in `props`.
   */
  datatype Page = Page(context: map<string, Json>, props: map<string, Json>, search: map<string, Json>, graph: seq<Event>)
}
