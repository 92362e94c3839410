/** Shared vocabulary of the dashboard: the content a module renders, the
    events sent to a connected client, the untyped request payloads the
    client sends, and the table entry that routes a client request to its
    handler.
 */
module Octant {

  /** One byte of a serialization or of an asset's content. */
  type byte = b: int | 0 <= b < 256

  /** `component.ContentResponse`: a rendered page.  Its zero value is also
      `component.EmptyContentResponse`. */
  datatype ContentResponse = ContentResponse(title: seq<string>, components: seq<string>)

  const EmptyContentResponse := ContentResponse([], [])

  /** The event kinds this core emits; `EventTypeUnset` is the zero value of
      an `octant.Event`'s type. */
  datatype EventType = EventTypeUnset | EventTypeContent | EventTypeWebResources

  /** Payload of an event: rendered content, or the CSS and JavaScript asset
      URL lists of the web-resources event. */
  datatype EventData =
    | NoData
    | ContentData(response: ContentResponse)
    | WebResourcesData(css: seq<string>, js: seq<string>)

  /** `octant.Event`: a tagged payload sent to the client. */
  datatype Event = Event(eventType: EventType, data: EventData)

  /** A decoded JSON value as it arrives in a client request. */
  datatype Value =
    | Null
    | Bool(b: bool)
    | Number(n: int)
    | Str(s: string)
    | List(items: seq<Value>)
    | Object(fields: map<string, Value>)

  /** `action.Payload`: the untyped, string-keyed request body. */
  type Payload = map<string, Value>

  /** `octant.ClientRequestHandler`: which handler serves a request type. */
  datatype ClientRequestHandler<H> = ClientRequestHandler(requestType: string, handler: H)

}
