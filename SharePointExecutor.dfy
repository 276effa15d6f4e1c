// The SharePoint client's web request executor over HttpClient: it shapes
// one HttpRequestMessage (method, keep-alive, headers routed to the
// message or to its content), sends it once, and exposes the response
// only after it has arrived.

module SharePointExecutor {
  import opened Common

  // ---------------------------------------------------------------------
  // The request method.

  /** HttpMethod.Get.Method, Put, Post, Delete, Head, Options, Trace. */
  const KnownHttpMethods: seq<string> := ["GET", "PUT", "POST", "DELETE", "HEAD", "OPTIONS", "TRACE"]

  /** A token character of HTTP (section 5.6.2 of RFC 9110). */
  predicate IsTokenChar(c: char)
  {
    ('a' <= c <= 'z') || ('A' <= c <= 'Z') || ('0' <= c <= '9')
    || c in "!#$%&'*+-.^_`|~"
  }

  predicate IsToken(s: string)
  {
    |s| > 0 && forall i :: 0 <= i < |s| ==> IsTokenChar(s[i])
  }

  /** The RequestMethod setter: a known name, in any case, becomes the
    * canonical method; any other name becomes new HttpMethod(value), which
    * rejects null, the empty string and non-tokens. */
  function MethodFromName(value: Option<string>): (r: Result<string>)
    ensures value.None? ==> r == Err(ArgumentNull)
    ensures value.Some? && ToUpper(value.value) in KnownHttpMethods ==> r == Ok(ToUpper(value.value))
    ensures value.Some? && ToUpper(value.value) !in KnownHttpMethods ==>
      r == if value.value == "" then Err(Argument) else if !IsToken(value.value) then Err(Format) else Ok(value.value)
  {
    if value.None? then Err(ArgumentNull)
    else if ToUpper(value.value) in KnownHttpMethods then Ok(ToUpper(value.value))
    else if value.value == "" then Err(Argument)
    else if !IsToken(value.value) then Err(Format)
    else Ok(value.value)
  }

  /** Setting the method the getter returns changes nothing, and names
    * equal ignoring case give the same known method. */
  lemma MethodFromNameIdempotent(value: string)
    ensures MethodFromName(Some(value)).Ok? ==> MethodFromName(Some(MethodFromName(Some(value)).value)) == MethodFromName(Some(value))
  {
    ToUpperIdempotent(value);
  }

  lemma KnownMethodIgnoresCase(a: string, b: string)
    requires EqualsIgnoreCase(a, b) && ToUpper(a) in KnownHttpMethods
    ensures MethodFromName(Some(a)) == MethodFromName(Some(b)) == Ok(ToUpper(a))
  {
  }

  /** Only GET and HEAD, in any case, drop the request content. */
  predicate DropsContent(requestMethod: string)
  {
    var u := ToUpper(requestMethod);
    u == "GET" || u == "HEAD"
  }

  // ---------------------------------------------------------------------
  // Keep-alive, as written and as intended.

  /** The RequestKeepAlive getter as written: true unless ConnectionClose
    * is explicitly false. */
  function KeepAliveAsWritten(connectionClose: Option<bool>): bool
  {
    !(connectionClose.Some? && connectionClose.value == false)
  }

  /** Reading back what the setter stored (ConnectionClose = !value) gives
    * the opposite value. */
  lemma KeepAliveAsWrittenInverts(value: bool)
    ensures KeepAliveAsWritten(Some(!value)) == !value
    ensures KeepAliveAsWritten(Some(!true)) == false
  {
  }

  /** The getter as intended: keep-alive unless ConnectionClose is set. */
  function KeepAlive(connectionClose: Option<bool>): (r: bool)
    ensures r <==> connectionClose != Some(true)
  {
    !(connectionClose.Some? && connectionClose.value == true)
  }

  lemma KeepAliveRoundTrip(value: bool)
    ensures KeepAlive(Some(!value)) == value
    ensures KeepAlive(None)
  {
  }

  // ---------------------------------------------------------------------
  // Header routing.

  datatype Header = Header(name: string, value: string)

  /** WellKnownContentHeaders, a set compared ignoring case, held as the
    * case-folded names: Content-Disposition, Content-Encoding,
    * Content-Language, Content-Length, Content-Location, Content-MD5,
    * Content-Range, Content-Type, Expires and Last-Modified. */
  const WellKnownContentHeaders: set<string> := {
    "CONTENT-DISPOSITION", "CONTENT-ENCODING", "CONTENT-LANGUAGE", "CONTENT-LENGTH", "CONTENT-LOCATION",
    "CONTENT-MD5", "CONTENT-RANGE", "CONTENT-TYPE", "EXPIRES", "LAST-MODIFIED"
  }

  /** Membership in the content-header set, ignoring case. */
  predicate IsContentHeader(name: string)
  {
    ToUpper(name) in WellKnownContentHeaders
  }

  /** The headers bound for the content (toContent) or for the message,
    * in their original order. */
  function Routed(headers: seq<Header>, toContent: bool): seq<Header>
    decreases |headers|
  {
    if headers == [] then []
    else
      var last := headers[|headers| - 1];
      Routed(headers[..|headers| - 1], toContent) + (if IsContentHeader(last.name) == toContent then [last] else [])
  }

  /** A header is routed to a side exactly when it is one of the headers
    * and its name belongs to that side. */
  lemma {:induction false} RoutedMembership(headers: seq<Header>, toContent: bool, h: Header)
    ensures h in Routed(headers, toContent) <==> h in headers && IsContentHeader(h.name) == toContent
    decreases |headers|
  {
    if headers != [] {
      var init := headers[..|headers| - 1];
      RoutedMembership(init, toContent, h);
      assert headers == init + [headers[|headers| - 1]];
    }
  }

  /** Routing splits the headers: every header goes to exactly one side. */
  lemma {:induction false} RoutedPartitions(headers: seq<Header>)
    ensures multiset(Routed(headers, true)) + multiset(Routed(headers, false)) == multiset(headers)
    decreases |headers|
  {
    if headers != [] {
      var init := headers[..|headers| - 1];
      RoutedPartitions(init);
      assert headers == init + [headers[|headers| - 1]];
    }
  }

  /** Routing ignores case: names equal ignoring case go to the same side. */
  lemma RoutingIgnoresCase(a: string, b: string)
    requires EqualsIgnoreCase(a, b)
    ensures IsContentHeader(a) == IsContentHeader(b)
  {
  }

  /** A response header: a name and its values. */
  datatype HeaderLines = HeaderLines(name: string, values: seq<string>)

  /** AddHeaders' result: one header per value, names in order, values in
    * order. */
  function Flatten(headers: seq<HeaderLines>): seq<Header>
    decreases |headers|
  {
    if headers == [] then []
    else Flatten(headers[..|headers| - 1]) + ValuesOf(headers[|headers| - 1])
  }

  function ValuesOf(lines: HeaderLines): (r: seq<Header>)
    ensures |r| == |lines.values|
    ensures forall j :: 0 <= j < |r| ==> r[j] == Header(lines.name, lines.values[j])
    decreases |lines.values|
  {
    if lines.values == [] then []
    else ValuesOf(HeaderLines(lines.name, lines.values[..|lines.values| - 1])) + [Header(lines.name, lines.values[|lines.values| - 1])]
  }

  /** Every value of every header appears, under its header's name, and
    * nothing else does. */
  lemma {:induction false} FlattenMembership(headers: seq<HeaderLines>, h: Header)
    ensures h in Flatten(headers) <==> exists i :: 0 <= i < |headers| && headers[i].name == h.name && h.value in headers[i].values
    decreases |headers|
  {
    if headers != [] {
      var init := headers[..|headers| - 1];
      var last := headers[|headers| - 1];
      FlattenMembership(init, h);
      var vs := ValuesOf(last);
      assert Flatten(headers) == Flatten(init) + vs;
      ValuesOfMembership(last, h);
      if h in Flatten(headers) {
        if h in Flatten(init) {
          var i :| 0 <= i < |init| && init[i].name == h.name && h.value in init[i].values;
          assert headers[i] == init[i];
        } else {
          assert headers[|headers| - 1].name == h.name && h.value in headers[|headers| - 1].values;
        }
      } else {
        forall i | 0 <= i < |headers|
          ensures !(headers[i].name == h.name && h.value in headers[i].values)
        {
          if i < |init| {
            assert headers[i] == init[i];
          }
        }
      }
    }
  }

  /** One header's values appear exactly under its name. */
  lemma ValuesOfMembership(lines: HeaderLines, h: Header)
    ensures h in ValuesOf(lines) <==> lines.name == h.name && h.value in lines.values
  {
    var vs := ValuesOf(lines);
    if h in vs {
      var j :| 0 <= j < |vs| && vs[j] == h;
    }
    if h.value in lines.values && lines.name == h.name {
      var j :| 0 <= j < |lines.values| && lines.values[j] == h.value;
      assert vs[j] == h;
    }
  }

  /** The nested loop of AddHeaders. */
  method AddHeaders(collection: seq<Header>, headers: seq<HeaderLines>) returns (r: seq<Header>)
    ensures r == collection + Flatten(headers)
  {
    r := collection;
    for i := 0 to |headers|
      invariant r == collection + Flatten(headers[..i])
    {
      assert headers[..i + 1][..i] == headers[..i];
      assert Flatten(headers[..i + 1]) == Flatten(headers[..i]) + ValuesOf(headers[i]);
      r := AddValues(r, headers[i]);
      assert r == (collection + Flatten(headers[..i])) + ValuesOf(headers[i]);
    }
    assert headers[..|headers|] == headers;
  }

  /** The inner loop of AddHeaders: one header per value of one name. */
  method AddValues(collection: seq<Header>, lines: HeaderLines) returns (r: seq<Header>)
    ensures r == collection + ValuesOf(lines)
  {
    r := collection;
    var name := lines.name;
    var values := lines.values;
    for j := 0 to |values|
      invariant r == collection + ValuesOf(HeaderLines(name, values[..j]))
    {
      assert values[..j + 1][..j] == values[..j];
      r := r + [Header(name, values[j])];
    }
    assert values[..|values|] == values;
  }

  /** The header loop of SendRequest: each header, in order, to the
    * content headers or to the message headers. */
  method RouteHeaders(headers: seq<Header>) returns (toMessage: seq<Header>, toContent: seq<Header>)
    ensures toMessage == Routed(headers, false) && toContent == Routed(headers, true)
  {
    toMessage, toContent := [], [];
    for i := 0 to |headers|
      invariant toMessage == Routed(headers[..i], false)
      invariant toContent == Routed(headers[..i], true)
    {
      assert headers[..i + 1][..i] == headers[..i];
      var header := headers[i];
      if IsContentHeader(header.name) {
        toContent := toContent + [header];
      } else {
        toMessage := toMessage + [header];
      }
    }
    assert headers[..|headers|] == headers;
  }

  // ---------------------------------------------------------------------
  // The executor.

  /** What HttpClient.SendAsync is given: the method, the URI, the message
    * headers, and the content with its headers unless it was removed. */
  datatype SentRequest = SentRequest(requestMethod: string, requestUri: string, headers: seq<Header>, content: Option<seq<Header>>)

  /** What the response task yields. */
  datatype Response = Response(statusCode: int, headers: seq<HeaderLines>, contentHeaders: seq<HeaderLines>, contentType: Option<string>, body: string)

  predicate IsSuccessStatusCode(statusCode: int) { 200 <= statusCode <= 299 }

  /** The message sent for a request in a given state: the request
    * headers routed onto the message and content headers already set, and
    * no content for a GET or HEAD. */
  function RequestFrom(requestMethod: string, requestUri: string, requestHeaders: seq<Header>,
                       messageHeaders: seq<Header>, contentHeaders: seq<Header>, hasContent: bool): SentRequest
  {
    var keepsContent := hasContent && !DropsContent(requestMethod);
    SentRequest(requestMethod, requestUri, messageHeaders + Routed(requestHeaders, false),
      if keepsContent then Some(contentHeaders + Routed(requestHeaders, true)) else None)
  }

  /** The part of SendRequest that builds the message: route the headers,
    * drop the content of a GET or HEAD. */
  method PrepareRequest(requestMethod: string, requestUri: string, requestHeaders: seq<Header>,
                        messageHeaders: seq<Header>, contentHeaders: seq<Header>, hasContent: bool)
    returns (newMessageHeaders: seq<Header>, newContentHeaders: seq<Header>, keepsContent: bool, request: SentRequest)
    ensures newMessageHeaders == messageHeaders + Routed(requestHeaders, false)
    ensures newContentHeaders == contentHeaders + Routed(requestHeaders, true)
    ensures keepsContent <==> hasContent && !DropsContent(requestMethod)
    ensures request == RequestFrom(requestMethod, requestUri, requestHeaders, messageHeaders, contentHeaders, hasContent)
  {
    var toMessage, toContent := RouteHeaders(requestHeaders);
    newMessageHeaders := messageHeaders + toMessage;
    newContentHeaders := contentHeaders + toContent;
    keepsContent := hasContent;
    var drops := DropsContent(requestMethod);
    if drops {
      keepsContent := false;
    }
    request := SentRequest(requestMethod, requestUri, newMessageHeaders, if keepsContent then Some(newContentHeaders) else None);
  }

  class HttpClientWebRequestExecutor {
    /** HttpClient.SendAsync, as the response each request receives. */
    const send: SentRequest -> Response
    const requestUri: string
    var requestMethod: string
    var connectionClose: Option<bool>
    var contentType: Option<string>
    /** RequestHeaders, which the caller fills before sending. */
    var requestHeaders: seq<Header>
    var messageHeaders: seq<Header>
    var contentHeaders: seq<Header>
    var hasContent: bool
    var streamFaulted: bool
    var sent: seq<SentRequest>
    var responseTask: Option<Response>
    var responseMessage: Option<Response>
    var responseHeaders: Option<seq<Header>>

    /** The message is sent at most once, and there is a response task
      * exactly when it has been sent. */
    ghost predicate Valid()
      reads this`sent, this`responseTask
    {
      |sent| <= 1 && (sent == [] <==> responseTask.None?)
    }

    /** The method is a name the setter accepts and stores unchanged. */
    ghost predicate MethodCanonical()
      reads this`requestMethod
    {
      MethodFromName(Some(requestMethod)) == Ok(requestMethod)
    }

    /** A POST with content attached and nothing sent yet. */
    constructor (send: SentRequest -> Response, requestUri: string)
      ensures this.send == send && this.requestUri == requestUri
      ensures requestMethod == "POST" && hasContent && !streamFaulted && connectionClose.None? && contentType.None?
      ensures requestHeaders == [] && messageHeaders == [] && contentHeaders == [] && sent == []
      ensures responseTask.None? && responseMessage.None? && responseHeaders.None?
      ensures Valid() && MethodCanonical()
    {
      this.send := send;
      this.requestUri := requestUri;
      requestMethod := "POST";
      connectionClose := None;
      contentType := None;
      requestHeaders := [];
      messageHeaders := [];
      contentHeaders := [];
      hasContent := true;
      streamFaulted := false;
      sent := [];
      responseTask := None;
      responseMessage := None;
      responseHeaders := None;
    }

    /** The method read back is one the setter would store unchanged. */
    function GetRequestMethod(): (r: string)
      reads this`requestMethod
      ensures MethodCanonical() ==> MethodFromName(Some(r)) == Ok(r)
    {
      requestMethod
    }

    method SetRequestMethod(value: Option<string>) returns (r: Outcome)
      requires MethodCanonical()
      modifies this`requestMethod
      ensures MethodCanonical()
      ensures MethodFromName(value).Ok? ==> r == Pass && requestMethod == MethodFromName(value).value
      ensures MethodFromName(value).Err? ==> r == Fail(MethodFromName(value).error) && requestMethod == old(requestMethod)
    {
      var m := MethodFromName(value);
      if m.Err? {
        return Fail(m.error);
      }
      MethodFromNameIdempotent(value.value);
      requestMethod := m.value;
      r := Pass;
    }

    /** The keep-alive getter, as intended (see KeepAliveAsWritten for the
      * getter as written). */
    function GetRequestKeepAlive(): (r: bool)
      reads this`connectionClose
      ensures r <==> connectionClose != Some(true)
    {
      KeepAlive(connectionClose)
    }

    method SetRequestKeepAlive(value: bool)
      modifies this`connectionClose
      ensures connectionClose == Some(!value) && GetRequestKeepAlive() == value
    {
      connectionClose := Some(!value);
    }

    /** RequestContentType: reading it before it was set dereferences a
      * null header value. Setting it builds a media type, which rejects
      * null and the empty string. */
    function GetRequestContentType(): (r: Result<string>)
      reads this
      ensures contentType.None? <==> r == Err(NullReference)
      ensures contentType.Some? ==> r == Ok(contentType.value)
    {
      if contentType.None? then Err(NullReference) else Ok(contentType.value)
    }

    method SetRequestContentType(value: Option<string>) returns (r: Outcome)
      modifies this`contentType
      ensures value.None? ==> r == Fail(ArgumentNull) && contentType == old(contentType)
      ensures value == Some("") ==> r == Fail(Argument) && contentType == old(contentType)
      ensures value.Some? && value.value != "" ==> r == Pass && contentType == value
    {
      if value.None? {
        return Fail(ArgumentNull);
      }
      if value.value == "" {
        return Fail(Argument);
      }
      contentType := value;
      r := Pass;
    }

    /** The message SendRequest hands to the client from the current state:
      * every request header added to the message or to the content, and
      * no content for a GET or HEAD. */
    function NextRequest(): SentRequest
      reads this
    {
      RequestFrom(requestMethod, requestUri, requestHeaders, messageHeaders, contentHeaders, hasContent)
    }

    /** SendRequest: copy every request header to the content or the
      * message, drop the content of a GET or HEAD (faulting the request
      * stream), and hand the message to the client, which refuses with
      * InvalidOperationException a message it has already sent. */
    method SendRequest() returns (r: Outcome)
      requires Valid()
      modifies this`messageHeaders, this`contentHeaders, this`hasContent, this`streamFaulted, this`sent, this`responseTask
      ensures Valid()
      ensures messageHeaders == old(messageHeaders) + Routed(requestHeaders, false)
      ensures contentHeaders == old(contentHeaders) + Routed(requestHeaders, true)
      ensures DropsContent(requestMethod) ==> !hasContent && streamFaulted
      ensures !DropsContent(requestMethod) ==> hasContent == old(hasContent) && streamFaulted == old(streamFaulted)
      ensures old(sent) == [] ==> r == Pass && sent == [old(NextRequest())] && responseTask == Some(send(old(NextRequest())))
      ensures old(sent) != [] ==> r == Fail(InvalidOperation) && sent == old(sent) && responseTask == old(responseTask)
    {
      var newMessageHeaders, newContentHeaders, keepsContent, request :=
        PrepareRequest(requestMethod, requestUri, requestHeaders, messageHeaders, contentHeaders, hasContent);
      if DropsContent(requestMethod) {
        streamFaulted := true;
      }
      messageHeaders := newMessageHeaders;
      contentHeaders := newContentHeaders;
      hasContent := keepsContent;
      if sent != [] {
        return Fail(InvalidOperation);
      }
      sent := [request];
      responseTask := Some(send(request));
      r := Pass;
    }

    /** ExecuteAsync: send unless already sent, require a success status,
      * then keep the response and its headers (message headers first,
      * then content headers). */
    method ExecuteAsync() returns (r: Outcome)
      requires Valid()
      modifies this`messageHeaders, this`contentHeaders, this`hasContent, this`streamFaulted, this`sent, this`responseTask, this`responseMessage, this`responseHeaders
      ensures Valid()
      ensures old(responseTask).Some? ==>
        && sent == old(sent) && responseTask == old(responseTask)
        && messageHeaders == old(messageHeaders) && contentHeaders == old(contentHeaders)
        && hasContent == old(hasContent) && streamFaulted == old(streamFaulted)
      ensures old(responseTask).None? ==>
        && messageHeaders == old(messageHeaders) + Routed(requestHeaders, false)
        && contentHeaders == old(contentHeaders) + Routed(requestHeaders, true)
        && (DropsContent(requestMethod) ==> !hasContent && streamFaulted)
        && (!DropsContent(requestMethod) ==> hasContent == old(hasContent) && streamFaulted == old(streamFaulted))
      ensures old(responseTask).None? ==> sent == [old(NextRequest())] && responseTask == Some(send(old(NextRequest())))
      ensures responseTask.Some?
      ensures var response := responseTask.value;
        && (IsSuccessStatusCode(response.statusCode) ==>
              r == Pass && responseMessage == Some(response)
              && responseHeaders == Some(Flatten(response.headers) + Flatten(response.contentHeaders)))
        && (!IsSuccessStatusCode(response.statusCode) ==>
              r == Fail(HttpRequestFailed) && responseMessage == old(responseMessage) && responseHeaders == old(responseHeaders))
    {
      if responseTask.None? {
        var sendOutcome := SendRequest();
        assert sendOutcome == Pass;
      }
      var response := responseTask.value;
      if !IsSuccessStatusCode(response.statusCode) {
        return Fail(HttpRequestFailed);
      }
      responseMessage := Some(response);
      var collected := AddHeaders([], response.headers);
      assert [] + Flatten(response.headers) == Flatten(response.headers);
      collected := AddHeaders(collected, response.contentHeaders);
      responseHeaders := Some(collected);
      r := Pass;
    }

    /** GetRequestStream: sends, then waits for the request stream, which
      * fails for a GET or HEAD. Sending fails when the message was already
      * sent, by an earlier GetRequestStream or ExecuteAsync. */
    method GetRequestStream() returns (r: Outcome)
      requires Valid()
      modifies this`messageHeaders, this`contentHeaders, this`hasContent, this`streamFaulted, this`sent, this`responseTask
      ensures Valid()
      ensures messageHeaders == old(messageHeaders) + Routed(requestHeaders, false)
      ensures contentHeaders == old(contentHeaders) + Routed(requestHeaders, true)
      ensures DropsContent(requestMethod) ==> !hasContent && streamFaulted
      ensures !DropsContent(requestMethod) ==> hasContent == old(hasContent) && streamFaulted == old(streamFaulted)
      ensures old(sent) != [] ==> r == Fail(InvalidOperation) && sent == old(sent) && responseTask == old(responseTask)
      ensures old(sent) == [] ==> sent == [old(NextRequest())] && responseTask == Some(send(old(NextRequest())))
      ensures old(sent) == [] ==> r == if streamFaulted then Fail(InvalidOperation) else Pass
      ensures DropsContent(requestMethod) ==> r == Fail(InvalidOperation)
    {
      r := SendRequest();
      if r.Fail? {
        return;
      }
      r := if streamFaulted then Fail(InvalidOperation) else Pass;
    }

    function StatusCode(): (r: Result<int>)
      reads this
      ensures responseMessage.None? <==> r == Err(InvalidOperation)
      ensures responseMessage.Some? ==> r == Ok(responseMessage.value.statusCode)
    {
      if responseMessage.None? then Err(InvalidOperation) else Ok(responseMessage.value.statusCode)
    }

    function GetResponseStream(): (r: Result<string>)
      reads this
      ensures responseMessage.None? <==> r == Err(InvalidOperation)
      ensures responseMessage.Some? ==> r == Ok(responseMessage.value.body)
    {
      if responseMessage.None? then Err(InvalidOperation) else Ok(responseMessage.value.body)
    }

    function ResponseContentType(): (r: Option<string>)
      reads this
      ensures responseMessage.None? ==> r.None?
      ensures responseMessage.Some? ==> r == responseMessage.value.contentType
    {
      if responseMessage.None? then None else responseMessage.value.contentType
    }
  }

  /** The constructor's argument checks: the URL first, then the client. */
  method NewExecutor(send: Option<SentRequest -> Response>, requestUrl: Option<string>) returns (r: Result<HttpClientWebRequestExecutor>)
    ensures requestUrl.None? || send.None? <==> r.Err?
    ensures r.Err? ==> r.error == ArgumentNull
    ensures r.Ok? ==> fresh(r.value) && r.value.requestUri == requestUrl.value && r.value.requestMethod == "POST" && r.value.hasContent
    ensures r.Ok? ==> r.value.sent == [] && r.value.responseMessage.None? && r.value.Valid() && r.value.MethodCanonical()
  {
    if requestUrl.None? {
      return Err(ArgumentNull);
    }
    if send.None? {
      return Err(ArgumentNull);
    }
    var executor := new HttpClientWebRequestExecutor(send.value, requestUrl.value);
    r := Ok(executor);
  }

  /** A response is visible only after a successful ExecuteAsync: a fresh
    * executor reports no status code, and after a success the status code
    * is the response's. */
  method ResponseOnlyAfterSuccess(send: SentRequest -> Response, requestUri: string) returns (before: Result<int>, after: Result<int>)
    ensures before == Err(InvalidOperation)
    ensures var response := send(SentRequest("POST", requestUri, [], Some([])));
      IsSuccessStatusCode(response.statusCode) <==> after == Ok(response.statusCode)
  {
    var executor := new HttpClientWebRequestExecutor(send, requestUri);
    assert ToUpper("POST")[0] == 'P' && !DropsContent("POST");
    assert executor.NextRequest() == SentRequest("POST", requestUri, [], Some([]));
    before := executor.StatusCode();
    var outcome := executor.ExecuteAsync();
    after := executor.StatusCode();
  }

  /** The message goes out once: asking a fresh POST executor for its
    * request stream succeeds, asking again fails with
    * InvalidOperationException, and so does asking after ExecuteAsync. */
  method StreamRequestedTwiceFails(send: SentRequest -> Response, requestUri: string)
    returns (first: Outcome, second: Outcome, afterExecute: Outcome)
    ensures first == Pass
    ensures second == Fail(InvalidOperation)
    ensures afterExecute == Fail(InvalidOperation)
  {
    var executor := new HttpClientWebRequestExecutor(send, requestUri);
    assert ToUpper("POST")[0] == 'P' && !DropsContent("POST");
    first := executor.GetRequestStream();
    second := executor.GetRequestStream();
    var other := new HttpClientWebRequestExecutor(send, requestUri);
    var executed := other.ExecuteAsync();
    afterExecute := other.GetRequestStream();
  }

  /** What the setters store reads back through the getters: a method name
    * the setter accepts reads back in its canonical spelling, a rejected
    * one leaves the default POST, and keep-alive reads back as set on a
    * fresh executor, which keeps the connection alive. */
  method RequestPropertiesReadBack(send: SentRequest -> Response, requestUri: string, name: Option<string>, keepAlive: bool)
    returns (methodRead: string, keepAliveBefore: bool, keepAliveRead: bool)
    ensures MethodFromName(name).Ok? ==> methodRead == MethodFromName(name).value
    ensures MethodFromName(name).Err? ==> methodRead == "POST"
    ensures MethodFromName(Some(methodRead)) == Ok(methodRead)
    ensures keepAliveBefore
    ensures keepAliveRead == keepAlive
  {
    var executor := new HttpClientWebRequestExecutor(send, requestUri);
    var outcome := executor.SetRequestMethod(name);
    methodRead := executor.GetRequestMethod();
    keepAliveBefore := executor.GetRequestKeepAlive();
    executor.SetRequestKeepAlive(keepAlive);
    keepAliveRead := executor.GetRequestKeepAlive();
  }
}
