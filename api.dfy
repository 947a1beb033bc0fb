/**
 * The HTTP client: how one call of `API.request` turns its arguments into a
 * `URLRequest`, and how the instance's `retryCount` decides between issuing
 * another attempt and delivering the single final outcome.
 *
 * URLSession and the dispatch queues are not modelled: the transport is a
 * function from (attempt number, request) to the response of that attempt,
 * and the asynchronous chain of attempts becomes a loop.
 */
module HttpApi {
  import opened Wrappers
  import opened Foundation

  datatype HttpMethod = Options | Get | Head | Post | Put | Patch | Delete | Trace | Connect
  {
    /** The enum's `rawValue`. */
    function RawValue(): string {
      match this
      case Options => "OPTIONS"
      case Get => "GET"
      case Head => "HEAD"
      case Post => "POST"
      case Put => "PUT"
      case Patch => "PATCH"
      case Delete => "DELETE"
      case Trace => "TRACE"
      case Connect => "CONNECT"
    }
  }

  /** Total number of attempts allowed for one logical request. */
  const MaxRetry: nat := 3
  /** Seconds between attempts (the scheduling itself is not modelled). */
  const RetryDuration: real := 0.5
  /** Seconds every request may take. */
  const TimeoutInterval: real := 10.0
  const ContentTypeJson: Header := Header("Content-Type", "application/json")

  /** The query item of one parameter: a `String` value verbatim, any other
      value through its `description`. */
  function QueryItemFor(p: Param): QueryItem {
    match p.value
    case Text(s) => QueryItem(p.key, s)
    case NonText(d) => QueryItem(p.key, d)
  }

  function QueryItems(parameters: seq<Param>): (items: seq<QueryItem>)
    ensures |items| == |parameters|
    ensures forall i :: 0 <= i < |items| ==> items[i] == QueryItemFor(parameters[i])
  {
    seq(|parameters|, i requires 0 <= i < |parameters| => QueryItemFor(parameters[i]))
  }

  /** The URL a call requests, or None when one of the guards fails (the call
      then completes with the -1 sentinel). */
  function ResolveUrl(k: Kit, urlString: string, verb: HttpMethod, parameters: seq<Param>): (u: Option<Url>)
    ensures !k.parsesAsUrl(urlString) ==> u == None
    ensures u.Some? ==> u.value.text == urlString
    // query items only for GET with parameters, one per parameter
    ensures u.Some? && (verb != Get || parameters == []) ==> u.value.query == []
    ensures u.Some? && verb == Get && parameters != [] ==>
      |u.value.query| == |parameters| &&
      forall i :: 0 <= i < |parameters| ==>
        u.value.query[i].name == parameters[i].key &&
        u.value.query[i].value == (match parameters[i].value
                                   case Text(s) => s
                                   case NonText(d) => d)
    // only the three Foundation calls decide whether the URL is built
    ensures u.None? <==>
      !k.parsesAsUrl(urlString) ||
      (verb == Get && parameters != [] &&
       (!k.parsesAsComponents(urlString) || !k.composesUrl(urlString, QueryItems(parameters))))
  {
    if !k.parsesAsUrl(urlString) then None
    else if verb == Get && |parameters| > 0 then
      if !k.parsesAsComponents(urlString) then None
      else
        var items := QueryItems(parameters);
        if k.composesUrl(urlString, items) then Some(Url(urlString, items)) else None
    else Some(Url(urlString, []))
  }

  /** The body of the request: none for GET; otherwise the explicit body
      bytes when given, else the JSON encoding of the parameters. */
  function BodyFor(k: Kit, verb: HttpMethod, parameters: seq<Param>, bodyData: Option<Data>): Option<Data>
  {
    if verb == Get then None
    else if bodyData.Some? then bodyData
    else k.jsonData(parameters)
  }

  /** The request one call of `API.request` sends, or None when it completes
      at once with the -1 sentinel. */
  function RequestFor(k: Kit, urlString: string, verb: HttpMethod, parameters: seq<Param>,
                      bodyData: Option<Data>, headers: seq<Header>): (r: Option<UrlRequest>)
    ensures r.Some? <==> ResolveUrl(k, urlString, verb, parameters).Some?
    ensures r.Some? ==>
      var q := r.value;
      && q.url == ResolveUrl(k, urlString, verb, parameters)
      && q.httpMethod == Some(verb.RawValue())
      && q.timeoutInterval == TimeoutInterval
      && q.cachePolicy == ReloadIgnoringLocalCacheData
      // Content-Type first, then every caller header
      && |q.headerFields| == |headers| + 1
      && q.headerFields[0] == ContentTypeJson
      && (forall i :: 0 <= i < |headers| ==> q.headerFields[i + 1] == headers[i])
      // a GET never carries a body; explicit bytes win over the JSON encoding
      && (verb == Get ==> q.httpBody == None)
      && (verb != Get && bodyData.Some? ==> q.httpBody == bodyData)
      && (verb != Get && bodyData.None? ==> q.httpBody == k.jsonData(parameters))
  {
    match ResolveUrl(k, urlString, verb, parameters)
    case None => None
    case Some(u) =>
      Some(UrlRequest(Some(u), Some(verb.RawValue()), TimeoutInterval, ReloadIgnoringLocalCacheData,
                      [ContentTypeJson] + headers, BodyFor(k, verb, parameters, bodyData)))
  }

  /** Request construction as the client performs it: guards first, then the
      default `URLRequest` updated field by field and the caller's headers
      added one at a time. */
  method BuildRequest(k: Kit, urlString: string, verb: HttpMethod, parameters: seq<Param>,
                      bodyData: Option<Data>, headers: seq<Header>) returns (r: Option<UrlRequest>)
    ensures r == RequestFor(k, urlString, verb, parameters, bodyData, headers)
  {
    if !k.parsesAsUrl(urlString) {
      return None;
    }
    var url := Url(urlString, []);
    if verb == Get && |parameters| > 0 {
      if !k.parsesAsComponents(urlString) {
        return None;
      }
      var items := QueryItems(parameters);
      if !k.composesUrl(urlString, items) {
        return None;
      }
      url := Url(urlString, items);
    }

    var request := PlainRequest(url);
    request := request.(timeoutInterval := TimeoutInterval);
    request := request.(httpMethod := Some(verb.RawValue()));
    request := request.(headerFields := request.headerFields + [ContentTypeJson]);
    request := request.(cachePolicy := ReloadIgnoringLocalCacheData);

    for i := 0 to |headers|
      invariant request == UrlRequest(Some(url), Some(verb.RawValue()), TimeoutInterval,
                                      ReloadIgnoringLocalCacheData, [ContentTypeJson] + headers[..i], None)
    {
      request := request.(headerFields := request.headerFields + [headers[i]]);
    }
    assert headers[..|headers|] == headers;

    if verb != Get {
      var jsonData := if bodyData.Some? then bodyData else k.jsonData(parameters);
      request := request.(httpBody := jsonData);
    }
    return Some(request);
  }

  /** What the completion handler receives: the body, the status code and
      whether the call succeeded. */
  datatype Outcome = Outcome(data: Option<Data>, code: int, success: bool)

  /** The status code of a response: the HTTP status, or 0 when the response
      is not an HTTP response. */
  function StatusCode(response: Response): int {
    response.httpStatus.GetOr(0)
  }

  function IsSuccess(code: int): bool {
    200 <= code < 300
  }

  function OutcomeOf(response: Response): (o: Outcome)
    ensures o.data == response.data
    ensures response.httpStatus.Some? ==> o.code == response.httpStatus.value
    ensures response.httpStatus.None? ==> o.code == 0
    ensures o.success <==> 200 <= o.code < 300
  {
    var code := StatusCode(response);
    Outcome(response.data, code, IsSuccess(code))
  }

  /** What happens after an attempt completes. */
  datatype Step = Reschedule | Deliver(outcome: Outcome)

  /** The number of attempts one logical request makes when the instance's
      counter stands at `startCount` as it begins and no other request
      touches the counter meanwhile. (The counter is non-zero at the start
      only while another chain on the same instance is running, and that
      chain keeps changing it; interleaved chains are not modelled.) */
  function Attempts(retry: bool, startCount: nat): (n: nat)
    ensures 1 <= n <= MaxRetry
    ensures startCount == 0 ==> n == (if retry then MaxRetry else 1)
    ensures !retry ==> n == 1
    // a chain that no other request touches: 3, 2, 1 attempts from counts 0, 1, 2
    ensures retry && startCount < MaxRetry ==> n == MaxRetry - startCount
    ensures startCount + 1 >= MaxRetry ==> n == 1
  {
    if retry && startCount + 1 < MaxRetry then MaxRetry - startCount else 1
  }

  /** The transport: the response to the attempt with the given number. */
  type Transport = (nat, UrlRequest) -> Response

  class Api {
    const maxRetry: nat := MaxRetry
    const retryDuration: real := RetryDuration
    /** Completed attempts of the current chain, shared by every request
        made through this instance. */
    var retryCount: nat

    constructor ()
      ensures retryCount == 0
    {
      retryCount := 0;
    }

    /** One attempt has completed: count it, then either schedule another
        attempt (retry on and fewer than `maxRetry` attempts counted,
        whatever the status) or reset the counter and deliver the outcome. */
    method CompleteAttempt(retry: bool, response: Response) returns (step: Step)
      modifies this`retryCount
      ensures retry && old(retryCount) + 1 < maxRetry ==>
        step == Reschedule && retryCount == old(retryCount) + 1
      ensures !(retry && old(retryCount) + 1 < maxRetry) ==>
        step == Deliver(OutcomeOf(response)) && retryCount == 0
    {
      retryCount := retryCount + 1;
      var code := StatusCode(response);
      if retry && retryCount < maxRetry {
        step := Reschedule;
      } else {
        retryCount := 0;
        step := Deliver(Outcome(response.data, code, IsSuccess(code)));
      }
    }

    /** One logical request: `sent` lists the requests of its attempts in
        order, and `outcome` is what the completion handler receives, once. */
    method Request(k: Kit, urlString: string, verb: HttpMethod, parameters: seq<Param>,
                   bodyData: Option<Data>, headers: seq<Header>, retry: bool, transport: Transport)
      returns (sent: seq<UrlRequest>, outcome: Outcome)
      modifies this`retryCount
      ensures var first := RequestFor(k, urlString, verb, parameters, bodyData, headers);
        first.None? ==> sent == [] && outcome == Outcome(None, -1, false) && retryCount == old(retryCount)
      ensures var first := RequestFor(k, urlString, verb, parameters, bodyData, headers);
        first.Some? ==>
          && |sent| == Attempts(retry, old(retryCount))
          && sent[0] == first.value
          // a retry repeats url, method, parameters and headers, but not the body bytes
          && (forall i :: 1 <= i < |sent| ==>
                sent[i] == RequestFor(k, urlString, verb, parameters, None, headers).value)
          && outcome == OutcomeOf(transport(|sent| - 1, sent[|sent| - 1]))
          && retryCount == 0
    {
      ghost var startCount := retryCount;
      ghost var first := RequestFor(k, urlString, verb, parameters, bodyData, headers);
      ghost var later := RequestFor(k, urlString, verb, parameters, None, headers);
      sent := [];
      var body, again := bodyData, retry;
      while true
        invariant retryCount == startCount + |sent|
        invariant sent == [] ==> body == bodyData && again == retry
        invariant sent != [] ==>
          && retry && again && body == None
          && startCount + |sent| < maxRetry
          && first.Some? && later.Some?
          && sent[0] == first.value
          && forall i :: 1 <= i < |sent| ==> sent[i] == later.value
        decreases maxRetry - |sent|
      {
        var request := BuildRequest(k, urlString, verb, parameters, body, headers);
        if request.None? {
          outcome := Outcome(None, -1, false);
          return;
        }
        sent := sent + [request.value];
        var response := transport(|sent| - 1, request.value);
        var step := CompleteAttempt(again, response);
        if step.Deliver? {
          outcome := step.outcome;
          return;
        }
        body, again := None, true;
      }
    }
  }
}
