/**
 * The API proxy route, `app/api/proxy/route.ts`: the request it forwards to
 * the backend and the response it returns.
 */
module ProxyRoute {
  import opened Base
  import opened JsString

  const BackendUrl: string := "http://localhost:9000/api/v1"
  const ProxyPrefix: string := "/api/proxy"

  /** `pathname.replace(/^\/api\/proxy/, '')`: the prefix is removed once, with no path-segment check. */
  function StripProxyPrefix(pathname: string): (r: string)
    ensures StartsWith(pathname, ProxyPrefix) ==> pathname == ProxyPrefix + r
    ensures !StartsWith(pathname, ProxyPrefix) ==> r == pathname
  {
    if StartsWith(pathname, ProxyPrefix) then pathname[|ProxyPrefix|..] else pathname
  }

  /** Only one prefix is stripped: `/api/proxy/api/proxy/x` keeps its second copy. */
  lemma StripsOnce(rest: string)
    ensures StripProxyPrefix(ProxyPrefix + ProxyPrefix + rest) == ProxyPrefix + rest
  {
    assert (ProxyPrefix + ProxyPrefix + rest)[..|ProxyPrefix|] == ProxyPrefix;
    assert (ProxyPrefix + ProxyPrefix + rest)[|ProxyPrefix|..] == ProxyPrefix + rest;
  }

  /** The match is on raw characters: `/api/proxyusers` becomes `users`, without a leading '/'. */
  lemma PrefixIsNotSegment()
    ensures StripProxyPrefix("/api/proxyusers") == "users"
  {
    assert "/api/proxyusers"[..|ProxyPrefix|] == ProxyPrefix;
  }

  /** `${BACKEND_URL}${path}${search}` */
  function TargetUrl(pathname: string, search: string): (r: string)
    ensures StartsWith(r, BackendUrl)
    ensures r[|BackendUrl|..] == StripProxyPrefix(pathname) + search
  {
    var r := BackendUrl + StripProxyPrefix(pathname) + search;
    assert r[..|BackendUrl|] == BackendUrl;
    r
  }

  /** A path under the proxy reaches the same path under the backend, with the query string kept verbatim. */
  lemma ProxiedPathKept(path: string, search: string)
    ensures TargetUrl(ProxyPrefix + path, search) == BackendUrl + path + search
  {
    assert (ProxyPrefix + path)[..|ProxyPrefix|] == ProxyPrefix;
    assert (ProxyPrefix + path)[|ProxyPrefix|..] == path;
  }

  /** The incoming request; `json` is what `req.json()` resolves to, or the error it throws. */
  datatype ProxyRequest<J> = ProxyRequest(verb: string, pathname: string, search: string, json: Result<J, string>)

  /** The request sent to the backend. */
  datatype Forward<J> = Forward(verb: string, url: string, data: Option<J>)

  /** A status axios resolves with: its default `validateStatus` rejects everything outside 2xx. */
  type SuccessStatus = s: int | 200 <= s < 300 witness 200

  /** The backend's answer as axios resolves it; a rejection carries the error message. */
  datatype Upstream<J> = Upstream(status: SuccessStatus, body: J)

  datatype ResponseBody<J> = Passed(data: J) | ErrorBody(error: string)
  datatype ProxyResponse<J> = ProxyResponse(body: ResponseBody<J>, status: int)

  /** The body forwarded for a request, or the error reading it threw: GET sends none, others the parsed JSON. */
  function RequestBody<J>(req: ProxyRequest<J>): (r: Result<Option<J>, string>)
    ensures req.verb == "GET" ==> r == Success(None)
    ensures req.verb != "GET" && req.json.Success? ==> r == Success(Some(req.json.value))
    ensures req.verb != "GET" && req.json.Failure? ==> r == Failure(req.json.error)
  {
    if req.verb == "GET" then Success(None)
    else match req.json
      case Success(j) => Success(Some(j))
      case Failure(e) => Failure(e)
  }

  /** A status whose response may carry no body: `NextResponse.json` throws for it, since the route always
      passes a JSON body. */
  predicate NullBodyStatus(status: int) {
    status == 204 || status == 205
  }

  /** The message of the `TypeError` the `Response` constructor throws for a body with a null-body status. */
  function NullBodyError(status: int): string {
    "Response constructor: Invalid response status code " + IntToString(status)
  }

  /** `handleProxy(req)`: the forwarded request (none when reading the body threw) and the response, given
      the backend's answer `upstream`. */
  function HandleProxy<J>(req: ProxyRequest<J>, upstream: Result<Upstream<J>, string>): (r: (Option<Forward<J>>, ProxyResponse<J>))
    ensures RequestBody(req).Failure? ==> r.0.None? && r.1 == ProxyResponse(ErrorBody(RequestBody(req).error), 500)
    ensures RequestBody(req).Success? ==> r.0 == Some(Forward(req.verb, TargetUrl(req.pathname, req.search), RequestBody(req).value))
    ensures RequestBody(req).Success? && upstream.Success? && !NullBodyStatus(upstream.value.status) ==>
      r.1 == ProxyResponse(Passed(upstream.value.body), upstream.value.status)
    ensures RequestBody(req).Success? && upstream.Success? && NullBodyStatus(upstream.value.status) ==>
      r.1 == ProxyResponse(ErrorBody(NullBodyError(upstream.value.status)), 500)
    ensures RequestBody(req).Success? && upstream.Failure? ==> r.1 == ProxyResponse(ErrorBody(upstream.error), 500)
  {
    match RequestBody(req)
    case Failure(e) => (None, ProxyResponse(ErrorBody(e), 500))
    case Success(data) =>
      var forward := Forward(req.verb, TargetUrl(req.pathname, req.search), data);
      match upstream
      case Success(u) =>
        // the backend call succeeded, but building the JSON response throws for a null-body status
        if NullBodyStatus(u.status) then (Some(forward), ProxyResponse(ErrorBody(NullBodyError(u.status)), 500))
        else (Some(forward), ProxyResponse(Passed(u.body), u.status))
      case Failure(message) => (Some(forward), ProxyResponse(ErrorBody(message), 500))
  }

  /** Every failure, of the body read, of the backend call or of building the response, answers 500 with an
      error body, and a passed-through answer is always 2xx other than 204 and 205; so the status alone tells
      the two apart. */
  lemma FailuresAre500<J>(req: ProxyRequest<J>, upstream: Result<Upstream<J>, string>)
    ensures HandleProxy(req, upstream).1.body.ErrorBody? ==> HandleProxy(req, upstream).1.status == 500
    ensures HandleProxy(req, upstream).1.body.Passed? ==>
      200 <= HandleProxy(req, upstream).1.status < 300 && !NullBodyStatus(HandleProxy(req, upstream).1.status)
    ensures HandleProxy(req, upstream).1.body.ErrorBody? <==>
      RequestBody(req).Failure? || upstream.Failure? || NullBodyStatus(upstream.value.status)
  {
  }

  /** A DELETE the backend answers with 204 No Content reaches the browser as a 500 error. */
  lemma NoContentBecomes500<J>(path: string, json: Result<J, string>, body: J)
    ensures HandleProxy(ProxyRequest("DELETE", path, "", json), Success(Upstream(204, body))).1.status == 500
    ensures json.Success? ==>
      HandleProxy(ProxyRequest("DELETE", path, "", json), Success(Upstream(204, body))).1.body == ErrorBody(NullBodyError(204))
  {
  }
}
