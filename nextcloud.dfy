/**
 * The Nextcloud OCS client (`NextcloudAPI`, src/Nextcloud.php).
 *
 * The client's three fields are set by its constructor and never changed,
 * so the client is a datatype value here. curl is replaced by a `Network`
 * function from the request `_callAPI` would configure to what curl reports
 * back, and `json_decode($body, true)` by a `Decoder` parameter.
 */
module Nextcloud {
  import opened Common
  import opened Php

  /** Every request goes to this path under the server's base URL. */
  const OcsPrefix: string := "/ocs/v1.php/cloud"
  const CapabilitiesPath: string := "/capabilities"
  const UsersPath: string := "/users"
  const FailurePrefix: string := "API call failed: "
  /** Error bodies containing this literal are stripped of tags. */
  const HtmlMarker: string := "<html>"
  /** `$response['content']['ocs']['meta']['statuscode']` */
  const StatusCodePath: seq<string> := ["ocs", "meta", "statuscode"]
  /** `$response['content']['ocs']['data']['version']['string']` */
  const VersionPath: seq<string> := ["ocs", "data", "version", "string"]
  /** The OCS status code of a successful call. */
  const OcsOk: int := 100

  datatype HttpMethod = Get | Post

  /**
   * What `_callAPI` configures on the curl handle: the method, the URL, the
   * Basic-auth `user:password` pair and, for POST only, the data it
   * JSON-encodes as the body. The three fixed JSON/OCS headers are not kept.
   */
  datatype Request = Request(verb: HttpMethod, url: string, userpwd: string, payload: Option<Value>)

  /**
   * What curl reports after `curl_exec`: whether `curl_errno` is set and
   * `curl_error`'s text, the `CURLINFO_HTTP_CODE` status, and the body.
   */
  datatype Reply = Reply(transportFailed: bool, curlError: string, status: int, body: string)

  type Network = Request -> Reply
  type Decoder = string -> Value

  /** An exception thrown by `_callAPI`: its code and message. */
  datatype ApiError = ApiError(code: int, message: string)

  /** `['status' => $status, 'content' => json_decode($response, true)]` */
  datatype ApiResult = ApiResult(status: int, content: Value)

  const Unauthorized: ApiError := ApiError(401, FailurePrefix + "Unauthorized")

  /** The message text of a generic failure: tags are stripped only from an HTML body. */
  function ErrorBody(body: string): string {
    if Contains(body, HtmlMarker) then StripTags(body) else body
  }

  /**
   * How `_callAPI` sorts curl's report into a result or an exception: a
   * transport error first, then the `switch` on the HTTP status.
   */
  function ClassifyReply(reply: Reply, decode: Decoder): (r: Result<ApiResult, ApiError>)
    // a transport error wins over any status
    ensures reply.transportFailed ==> r == Failure(ApiError(500, FailurePrefix + reply.curlError))
    // only 200 and 201 return, with the status and the decoded body
    ensures r.Success? <==> !reply.transportFailed && (reply.status == 200 || reply.status == 201)
    ensures r.Success? ==> r.value == ApiResult(reply.status, decode(reply.body))
    // 401 and 997 are always Unauthorized, whatever the body
    ensures !reply.transportFailed && (reply.status == 401 || reply.status == 997) ==> r == Failure(Unauthorized)
    // any other status is a failure whose code is that status
    ensures !reply.transportFailed && reply.status !in {200, 201, 401, 997} ==>
              r.Failure? && r.error.code == reply.status
    // ... and whose message holds the body verbatim unless it contains "<html>"
    ensures !reply.transportFailed && reply.status !in {200, 201, 401, 997} && !Contains(reply.body, HtmlMarker) ==>
              r.error.message == FailurePrefix + reply.body
    // ... in which case it holds the body with its tags stripped, and no tag is left in it
    ensures !reply.transportFailed && reply.status !in {200, 201, 401, 997} && Contains(reply.body, HtmlMarker) ==>
              r.error.message == FailurePrefix + StripTags(reply.body)
    ensures !reply.transportFailed && reply.status !in {200, 201, 401, 997} && Contains(reply.body, HtmlMarker) ==>
              |FailurePrefix| <= |r.error.message| &&
              r.error.message[..|FailurePrefix|] == FailurePrefix &&
              forall i :: |FailurePrefix| <= i < |r.error.message| ==> r.error.message[i] != '<'
  {
    if reply.transportFailed then Failure(ApiError(500, FailurePrefix + reply.curlError))
    else if reply.status == 200 || reply.status == 201 then Success(ApiResult(reply.status, decode(reply.body)))
    else if reply.status == 401 || reply.status == 997 then Failure(Unauthorized)
    else Failure(ApiError(reply.status, FailurePrefix + ErrorBody(reply.body)))
  }

  /**
   * `NextcloudAPI`: a client bound to one server's base URL and credentials.
   */
  datatype NextcloudApi = NextcloudApi(url: string, username: string, password: string) {

    /** The request `_callAPI($method, $request, $data)` sends. */
    function BuildRequest(verb: HttpMethod, request: string, data: Value): (q: Request)
      ensures |q.url| == |url| + |OcsPrefix| + |request|
      ensures q.url[..|url|] == url
      ensures q.url[|url|..|url| + |OcsPrefix|] == OcsPrefix
      ensures q.url[|url| + |OcsPrefix|..] == request
      ensures q.verb == verb
      ensures |q.userpwd| == |username| + 1 + |password|
      ensures q.userpwd[..|username|] == username && q.userpwd[|username|..] == ":" + password
      ensures q.payload.Some? <==> verb == Post
      ensures q.payload.Some? ==> q.payload.value == data
    {
      Request(verb, url + OcsPrefix + request, username + ":" + password,
              if verb == Post then Some(data) else None)
    }

    /** One `_callAPI` call over `send`. */
    function CallApi(verb: HttpMethod, request: string, data: Value, send: Network, decode: Decoder)
      : Result<ApiResult, ApiError>
    {
      ClassifyReply(send(BuildRequest(verb, request, data)), decode)
    }

    /** The GET request a probe sends; `$data` keeps its default `[]`. */
    function ProbeRequest(path: string): Request {
      BuildRequest(Get, path, VList([]))
    }

    /**
     * `testConnection`: GET /capabilities; true exactly when the OCS status
     * code is the integer 100 and the version string is non-empty for PHP.
     * An exception from the call propagates.
     */
    function TestConnection(send: Network, decode: Decoder): (r: Result<bool, ApiError>)
      ensures var reply := send(ProbeRequest(CapabilitiesPath));
              && (r.Failure? <==> reply.transportFailed || (reply.status != 200 && reply.status != 201))
              && (r.Failure? ==> r == Failure(ClassifyReply(reply, decode).error))
              && (r == Success(true) <==>
                    && !reply.transportFailed
                    && (reply.status == 200 || reply.status == 201)
                    && At(decode(reply.body), StatusCodePath) == VInt(OcsOk)
                    && !IsEmpty(At(decode(reply.body), VersionPath)))
    {
      match CallApi(Get, CapabilitiesPath, VList([]), send, decode)
      case Failure(e) => Failure(e)
      case Success(response) =>
        var status := At(response.content, StatusCodePath);
        var version := At(response.content, VersionPath);
        Success(status == VInt(OcsOk) && !IsEmpty(version))
    }

    /**
     * `testAuthentication`: GET /users; true exactly when the OCS status code
     * is the integer 100. An exception from the call propagates.
     */
    function TestAuthentication(send: Network, decode: Decoder): (r: Result<bool, ApiError>)
      ensures var reply := send(ProbeRequest(UsersPath));
              && (r.Failure? <==> reply.transportFailed || (reply.status != 200 && reply.status != 201))
              && (r.Failure? ==> r == Failure(ClassifyReply(reply, decode).error))
              && (r == Success(true) <==>
                    && !reply.transportFailed
                    && (reply.status == 200 || reply.status == 201)
                    && At(decode(reply.body), StatusCodePath) == VInt(OcsOk))
    {
      match CallApi(Get, UsersPath, VList([]), send, decode)
      case Failure(e) => Failure(e)
      case Success(response) => Success(At(response.content, StatusCodePath) == VInt(OcsOk))
    }
  }

  /**
   * `_generateServerName`: the username, a dash and `bin2hex` of four random
   * bytes; the bytes can be read back from the name.
   */
  function GenerateServerName(username: string, random: seq<Byte>): (r: string)
    requires |random| == 4
    ensures |r| == |username| + 9
    ensures r[..|username|] == username && r[|username|] == '-'
    ensures forall i :: |username| < i < |r| ==> IsLowerHex(r[i])
    ensures HexDecode(r[|username| + 1..]) == Some(random)
  {
    HexDecodeInvertsBin2Hex(random);
    var r := username + "-" + Bin2Hex(random);
    assert r[|username| + 1..] == Bin2Hex(random);
    r
  }

  /** A trailing slash on the base URL is kept, giving `//ocs` in the request URL. */
  lemma TrailingSlashKept(api: NextcloudApi, verb: HttpMethod, request: string, data: Value)
    requires api.url != [] && api.url[|api.url| - 1] == '/'
    ensures var u := api.BuildRequest(verb, request, data).url;
            u[|api.url| - 1..|api.url| + 1] == "//"
  {
    var u := api.BuildRequest(verb, request, data).url;
    assert u[|api.url|] == OcsPrefix[0];
  }

  /** Two requests with the same method and URL name the same request path. */
  lemma RequestPathDeterminedByUrl(api: NextcloudApi, m: HttpMethod, p1: string, p2: string, data: Value)
    requires api.BuildRequest(m, p1, data).url == api.BuildRequest(m, p2, data).url
    ensures p1 == p2
  {
    var u := api.BuildRequest(m, p1, data).url;
    assert p1 == u[|api.url| + |OcsPrefix|..] == p2;
  }

  /**
   * An OCS status code 997 inside a 200 body is not the Unauthorized
   * error: only the HTTP status is compared with 997.
   */
  lemma OcsUnauthorizedBodyIsNotAnError(api: NextcloudApi, send: Network, decode: Decoder)
    requires var reply := send(api.ProbeRequest(UsersPath));
             && !reply.transportFailed && reply.status == 200
             && At(decode(reply.body), StatusCodePath) == VInt(997)
    ensures api.TestAuthentication(send, decode) == Success(false)
  {
  }

  /**
   * The HTTP status of a successful reply does not matter to
   * testAuthentication: 200 and 201 with the same body give the same answer.
   */
  lemma AuthenticationIgnoresSuccessStatus(api: NextcloudApi, send1: Network, send2: Network, decode: Decoder)
    requires var a := send1(api.ProbeRequest(UsersPath));
             var b := send2(api.ProbeRequest(UsersPath));
             && !a.transportFailed && (a.status == 200 || a.status == 201)
             && !b.transportFailed && (b.status == 200 || b.status == 201)
             && a.body == b.body
    ensures api.TestAuthentication(send1, decode) == api.TestAuthentication(send2, decode)
  {
  }

  /**
   * PHP's `empty()` on the version string: "" and "0" make testConnection
   * false even when the status code is 100.
   */
  lemma ZeroVersionFailsConnection(api: NextcloudApi, send: Network, decode: Decoder)
    requires var reply := send(api.ProbeRequest(CapabilitiesPath));
             && !reply.transportFailed && reply.status == 200
             && At(decode(reply.body), StatusCodePath) == VInt(OcsOk)
             && (At(decode(reply.body), VersionPath) == VString("") || At(decode(reply.body), VersionPath) == VString("0"))
    ensures api.TestConnection(send, decode) == Success(false)
  {
  }
}
