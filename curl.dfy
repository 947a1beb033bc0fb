/**
 * `URLRequest.cURL(pretty:)`: renders a request as a curl command line, with
 * short flags (`-X`, `-H`) or, when pretty, long flags (`--request`, `--url`,
 * `--header`) each followed by a backslash line break.
 */
module Curl {
  import opened Wrappers
  import opened Foundation

  /** The line break after each part: a backslash and a newline when pretty. */
  function NewLine(pretty: bool): string {
    if pretty then "\\\n" else ""
  }

  function MethodFlag(pretty: bool): string {
    if pretty then "--request " else "-X "
  }

  function UrlFlag(pretty: bool): string {
    if pretty then "--url " else ""
  }

  function HeaderFlag(pretty: bool): string {
    if pretty then "--header " else "-H "
  }

  /** The method part; a request without a method is shown as GET. */
  function MethodPart(request: UrlRequest, pretty: bool): string {
    MethodFlag(pretty) + request.httpMethod.GetOr("GET") + " " + NewLine(pretty)
  }

  /** The quoted URL; a request without a URL shows `''`. */
  function UrlPart(k: Kit, request: UrlRequest, pretty: bool): string {
    var text := match request.url case Some(u) => k.absoluteString(u) case None => "";
    UrlFlag(pretty) + "'" + text + "' " + NewLine(pretty)
  }

  function HeaderLine(h: Header, pretty: bool): string {
    HeaderFlag(pretty) + "'" + h.name + ": " + h.value + "' " + NewLine(pretty)
  }

  /** One header line per header field, in order. */
  function HeaderLines(headers: seq<Header>, pretty: bool): string {
    if headers == [] then "" else HeaderLine(headers[0], pretty) + HeaderLines(headers[1..], pretty)
  }

  /** `--data '<body>'` when the body is valid, non-empty UTF-8; else nothing. */
  function DataPart(k: Kit, request: UrlRequest): string {
    match request.httpBody
    case None => ""
    case Some(body) =>
      match k.utf8String(body)
      case None => ""
      case Some(s) => if s == "" then "" else "--data '" + s + "'"
  }

  /** The whole command line: the method, URL, header lines and data, in
      that order, after `curl `. */
  function Curl(k: Kit, request: UrlRequest, pretty: bool): (c: string)
    ensures |c| >= 5 && c[..5] == "curl "
    ensures |c| == 5 + |MethodPart(request, pretty)| + |UrlPart(k, request, pretty)|
                   + |HeaderLines(request.headerFields, pretty)| + |DataPart(k, request)|
  {
    "curl " + MethodPart(request, pretty) + UrlPart(k, request, pretty)
      + HeaderLines(request.headerFields, pretty) + DataPart(k, request)
  }

  /** The quoted URL comes right after the method part: `--url '<url>' `
      when pretty, `'<url>' ` otherwise, with the pretty line break; a
      request without a URL shows `''`. */
  lemma CurlShowsUrl(k: Kit, request: UrlRequest, pretty: bool)
    ensures var text := match request.url case Some(u) => k.absoluteString(u) case None => "";
      UrlPart(k, request, pretty) == (if pretty then "--url '" else "'") + text + "' " + NewLine(pretty)
    ensures var m := 5 + |MethodPart(request, pretty)|;
      var u := UrlPart(k, request, pretty);
      m + |u| <= |Curl(k, request, pretty)| && Curl(k, request, pretty)[m..m + |u|] == u
  {
    var text := match request.url case Some(u) => k.absoluteString(u) case None => "";
    if pretty {
      assert UrlFlag(pretty) + "'" == "--url '";
    }
    assert UrlPart(k, request, pretty) == (UrlFlag(pretty) + "'") + text + "' " + NewLine(pretty);
    var head := "curl " + MethodPart(request, pretty);
    var u := UrlPart(k, request, pretty);
    var tail := HeaderLines(request.headerFields, pretty) + DataPart(k, request);
    assert Curl(k, request, pretty) == head + u + tail;
    MiddleSlice(head, u, tail);
  }

  /** Rendering the headers of two lists one after the other is rendering the
      concatenated list. */
  lemma {:induction false} HeaderLinesAppend(a: seq<Header>, b: seq<Header>, pretty: bool)
    ensures HeaderLines(a + b, pretty) == HeaderLines(a, pretty) + HeaderLines(b, pretty)
  {
    if a == [] {
      assert a + b == b;
    } else {
      assert (a + b)[1..] == a[1..] + b;
      HeaderLinesAppend(a[1..], b, pretty);
    }
  }

  /** The rendering as the extension performs it: fixed parts first, the
      header lines accumulated in a loop, then the data part. */
  method CurlString(k: Kit, request: UrlRequest, pretty: bool) returns (cURL: string)
    ensures cURL == Curl(k, request, pretty)
  {
    var newLine := NewLine(pretty);
    var methodPart := MethodFlag(pretty) + request.httpMethod.GetOr("GET") + " " + newLine;
    var urlText := match request.url case Some(u) => k.absoluteString(u) case None => "";
    var urlPart := UrlFlag(pretty) + "'" + urlText + "' " + newLine;

    cURL := "curl ";
    var header := "";
    var data := "";

    var fields := request.headerFields;
    for i := 0 to |fields|
      invariant header == HeaderLines(fields[..i], pretty)
    {
      HeaderLinesAppend(fields[..i], [fields[i]], pretty);
      assert fields[..i + 1] == fields[..i] + [fields[i]];
      header := header + (HeaderFlag(pretty) + "'" + fields[i].name + ": " + fields[i].value + "' " + newLine);
    }
    assert fields[..|fields|] == fields;

    if request.httpBody.Some? {
      var bodyString := k.utf8String(request.httpBody.value);
      if bodyString.Some? && bodyString.value != "" {
        data := "--data '" + bodyString.value + "'";
      }
    }

    cURL := cURL + methodPart + urlPart + header + data;
  }

  /** The command starts with `curl `, then the method flag of the chosen
      style and the method, GET when the request has none. */
  lemma CurlStartsWithMethod(k: Kit, request: UrlRequest, pretty: bool)
    ensures var prefix := "curl " + (if pretty then "--request " else "-X ")
                          + request.httpMethod.GetOr("GET") + " ";
      |prefix| <= |Curl(k, request, pretty)| && Curl(k, request, pretty)[..|prefix|] == prefix
  {
    var prefix := "curl " + MethodFlag(pretty) + request.httpMethod.GetOr("GET") + " ";
    var rest := NewLine(pretty) + UrlPart(k, request, pretty)
                + HeaderLines(request.headerFields, pretty) + DataPart(k, request);
    assert Curl(k, request, pretty) == prefix + rest;
  }

  /** Every header field of the request appears as its own header line, with
      the flag of the chosen style, at the returned offset. */
  lemma {:induction false} CurlShowsEveryHeader(k: Kit, request: UrlRequest, pretty: bool, i: nat)
    returns (offset: nat)
    requires i < |request.headerFields|
    ensures var line := HeaderLine(request.headerFields[i], pretty);
      offset + |line| <= |Curl(k, request, pretty)| &&
      Curl(k, request, pretty)[offset..offset + |line|] == line
  {
    var hs := request.headerFields;
    var line := HeaderLine(hs[i], pretty);
    var head := "curl " + MethodPart(request, pretty) + UrlPart(k, request, pretty);
    var lines := HeaderLines(hs, pretty);
    assert Curl(k, request, pretty) == head + lines + DataPart(k, request);
    HeaderLinesSplit(hs, pretty, i);
    var before := HeaderLines(hs[..i], pretty);
    var after := HeaderLines(hs[i + 1..], pretty);
    assert lines == before + line + after;
    MiddleSlice(before, line, after);
    PrefixSlice(head, lines, DataPart(k, request), |before|, |before| + |line|);
    offset := |head| + |before|;
  }

  lemma PrefixSlice(a: string, b: string, c: string, i: nat, j: nat)
    requires i <= j <= |b|
    ensures (a + b + c)[|a| + i..|a| + j] == b[i..j]
  {
    assert forall n :: i <= n < j ==> (a + b + c)[|a| + n] == b[n];
  }

  lemma MiddleSlice(a: string, b: string, c: string)
    ensures (a + b + c)[|a|..|a| + |b|] == b
  {
    assert forall j :: 0 <= j < |b| ==> (a + b + c)[|a| + j] == b[j];
  }

  /** The header lines split around the line of field `i`. */
  lemma HeaderLinesSplit(hs: seq<Header>, pretty: bool, i: nat)
    requires i < |hs|
    ensures HeaderLines(hs, pretty)
            == HeaderLines(hs[..i], pretty) + HeaderLine(hs[i], pretty) + HeaderLines(hs[i + 1..], pretty)
  {
    assert hs == hs[..i] + ([hs[i]] + hs[i + 1..]);
    HeaderLinesAppend(hs[..i], [hs[i]] + hs[i + 1..], pretty);
    assert ([hs[i]] + hs[i + 1..])[1..] == hs[i + 1..];
  }

  /** The command ends with `--data '<body>'` exactly when the body decodes
      as non-empty UTF-8; otherwise it ends with the last header line (or
      the URL part when there are no headers). */
  lemma CurlDataIff(k: Kit, request: UrlRequest, pretty: bool)
    ensures var shown := request.httpBody.Some? && k.utf8String(request.httpBody.value).Some?
                         && k.utf8String(request.httpBody.value).value != "";
      && (shown ==>
            var tail := "--data '" + k.utf8String(request.httpBody.value).value + "'";
            |tail| <= |Curl(k, request, pretty)| &&
            Curl(k, request, pretty)[|Curl(k, request, pretty)| - |tail|..] == tail)
      && (!shown ==>
            Curl(k, request, pretty) == "curl " + MethodPart(request, pretty) + UrlPart(k, request, pretty)
                                        + HeaderLines(request.headerFields, pretty))
  {
    var head := "curl " + MethodPart(request, pretty) + UrlPart(k, request, pretty)
                + HeaderLines(request.headerFields, pretty);
    assert Curl(k, request, pretty) == head + DataPart(k, request);
  }
}
