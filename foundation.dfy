/**
 * The Foundation values the client works with (bytes, JSON, URLs, URL requests)
 * and the Foundation calls it makes, which are not modelled: each is a field of
 * `Kit`, an opaque function supplied by the caller.
 */
module Foundation {
  import opened Wrappers

  newtype byte = b: int | 0 <= b < 256

  /** Swift's `Data`. */
  type Data = seq<byte>

  /** A value produced by `JSONSerialization.jsonObject`. */
  datatype Json =
    | JNull
    | JBool(b: bool)
    | JNumber(n: real)
    | JString(s: string)
    | JArray(items: seq<Json>)
    | JObject(fields: map<string, Json>)

  /** A value of a `[String: Any]` dictionary: either a Swift `String` or
      anything else, which is rendered through its `description`. */
  datatype AnyValue = Text(s: string) | NonText(description: string)

  /** One entry of a `[String: Any]` parameters dictionary. */
  datatype Param = Param(key: string, value: AnyValue)

  /** `URLQueryItem(name:value:)`. */
  datatype QueryItem = QueryItem(name: string, value: string)

  /** A URL parsed from `text`; a non-empty `query` replaces the query of
      `text` (as assigning `URLComponents.queryItems` does). */
  datatype Url = Url(text: string, query: seq<QueryItem>)

  /** One `addValue(_:forHTTPHeaderField:)` call. */
  datatype Header = Header(name: string, value: string)

  datatype CachePolicy = UseProtocolCachePolicy | ReloadIgnoringLocalCacheData

  /** The fields of `URLRequest` the client sets. `headerFields` lists the
      header values in the order they were added. */
  datatype UrlRequest = UrlRequest(
    url: Option<Url>,
    httpMethod: Option<string>,
    timeoutInterval: real,
    cachePolicy: CachePolicy,
    headerFields: seq<Header>,
    httpBody: Option<Data>)

  /** `URLRequest(url:)`: method GET, 60 s timeout, protocol cache policy, no
      headers and no body. */
  function PlainRequest(url: Url): (r: UrlRequest)
    ensures r.url == Some(url) && r.headerFields == [] && r.httpBody == None
  {
    UrlRequest(Some(url), Some("GET"), 60.0, UseProtocolCachePolicy, [], None)
  }

  /** What one `dataTask` hands its completion handler: the body, and the
      status code when the response is an `HTTPURLResponse`. A transport
      error is a response with neither. */
  datatype Response = Response(data: Option<Data>, httpStatus: Option<int>)

  /** The Foundation calls used by the client, left opaque. */
  datatype Kit = Kit(
    parsesAsUrl: string -> bool,                          // URL(string:) != nil
    parsesAsComponents: string -> bool,                   // URLComponents(string:) != nil
    composesUrl: (string, seq<QueryItem>) -> bool,        // components.url != nil once queryItems are set
    absoluteString: Url -> string,                        // URL.absoluteString
    jsonData: seq<Param> -> Option<Data>,                 // try? JSONSerialization.data(withJSONObject:)
    jsonObject: Data -> Option<Json>,                     // try? JSONSerialization.jsonObject(with:)
    utf8String: Data -> Option<string>,                   // String(data:encoding: .utf8)
    utf8Data: string -> Option<Data>)                     // String.data(using: .utf8)
}
