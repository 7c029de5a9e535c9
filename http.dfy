/**
 * The agent's view of HTTP: the inbound request (what it reads from
 * `$_SERVER` and `$_POST`), the calls it makes to the remote authority and
 * the replies it gets, and what it does to the response — nothing (the host
 * application goes on), a 503 suspension page, a redirect, or the
 * reactivation success page. `header()`, `echo` and `exit` become the
 * `Outcome` value; every outcome other than `Pass` ends the request.
 */
module Http {
  import opened Options
  import Php
  import Json

  // ------------------------------------------------------------ request

  /**
   * The inbound request: `$_SERVER['REQUEST_METHOD']` (absent on the command
   * line), the `$_POST` fields, `$_SERVER['REQUEST_URI']` and
   * `$_SERVER['HTTP_HOST']`. PHP fills `$_POST` only for a POST; the type
   * does not insist on it, so lemmas about other verbs cover more than PHP
   * can produce.
   */
  datatype Request = Request(verb: Option<string>, post: map<string, string>, uri: string, host: Option<string>)

  /** `$_SERVER['HTTP_HOST'] ?? 'localhost'`; the port is never added to it. */
  function Domain(req: Request): string {
    req.host.GetOr("localhost")
  }

  predicate IsPost(req: Request) {
    req.verb == Some("POST")
  }

  /** The form field of the reactivation form. */
  const CodeField := "activation_code"

  /**
   * The activation submission TrackingService and the `handle_activation_code`
   * helper act on: a POST with an `activation_code` field that does not trim
   * to an empty code (PHP's `empty` also takes "0" for empty).
   */
  function SubmittedCode(req: Request): (r: Option<string>)
    ensures r.Some? <==> IsPost(req) && CodeField in req.post && !Php.IsEmpty(Php.Trim(req.post[CodeField]))
    ensures r.Some? ==> r.value == Php.Trim(req.post[CodeField])
  {
    if IsPost(req) && CodeField in req.post then
      var code := Php.Trim(req.post[CodeField]);
      if !Php.IsEmpty(code) then Some(code) else None
    else None
  }

  // ------------------------------------------------------ remote calls

  /** The one-shot remote operations whose only logic is the `projectId` guard. */
  datatype Op =
    | GetDatabase | GetSource | UpdateCredentials | StartProject | StopProject
    | GetProjectStatus | GetProjectInfo | DeleteProject | GetRealDatabase

  /**
   * The remote operations that take an optional project id argument
   * (`$projectId ?? $this->projectId`): `updateDatabaseFromEnv`,
   * `backupSourceCode`, `deleteDatabaseData`.
   */
  datatype TargetOp = SyncFromEnv | BackupSourceCode | DeleteDatabaseData

  /** Whether the operation answers `true`/`false` rather than the decoded body or `null`. */
  predicate AnswersBool(op: Op) {
    op.UpdateCredentials? || op.StartProject? || op.StopProject? || op.DeleteProject?
  }

  /**
   * A call to the remote authority, with the arguments that identify it; the
   * payloads (system information, database settings, `.env` contents) are
   * not recorded.
   */
  datatype Call =
    | StoreProject(uniqueId: string, domain: string)
    | InfoByDomain(domain: string)
    | Reactivate(projectId: Json.Value)
    | Heartbeat(projectId: Json.Value, activationCode: Json.Value)
    | LastSeen(projectId: Json.Value, activationCode: Json.Value)
    | Targeted(target: TargetOp, projectId: Json.Value)
    | Regenerate(projectId: Json.Value)
    | CommandStatus(projectId: Json.Value, commandId: Json.Value)
    | OneShot(op: Op, projectId: Json.Value)
    | CheckStatus(domain: string, code: string)

  /**
   * What one call gave back:
   * - `NoAnswer`: the transfer failed in a way Guzzle reports as a
   *   `RequestException` (every transfer error in Guzzle 6, those other than
   *   connection failures in Guzzle 7);
   * - `Unreachable`: the connection was refused, the host did not resolve or
   *   the call timed out, which Guzzle 7 reports as a `ConnectException`, a
   *   `TransferException` that is not a `RequestException`;
   * - `Answer`: a status with the body and its `json_decode`.
   */
  datatype Reply = NoAnswer | Unreachable | Answer(status: int, body: string, json: Json.Value)

  /** The remote authority, as it answers during one process. */
  type Remote = Call -> Reply

  /**
   * Guzzle (with its default `http_errors`) throws when no answer came or the
   * status is 4xx or 5xx; all of these but `Unreachable` are
   * `RequestException`s.
   */
  predicate Raises(r: Reply) {
    !r.Answer? || r.status >= 400
  }

  /** `curl_getinfo($ch, CURLINFO_HTTP_CODE)`: 0 when no answer came; curl never raises. */
  function CurlCode(r: Reply): (code: int)
    ensures code == 0 <==> !r.Answer? || r.status == 0
    ensures r.Answer? ==> code == r.status
  {
    if r.Answer? then r.status else 0
  }

  // ------------------------------------------------------------ outcome

  /** How the agent leaves the request. */
  datatype Outcome =
    | Pass                                                  // the host application goes on
    | Block(reason: Json.Value, projectName: Json.Value)   // 503 suspension page, then exit
    | Redirect(location: string)                           // Location header, then exit
    | RedirectNotice(uri: string, notice: Notice)          // Location: RedirectTo(uri, notice), then exit
    | SuccessPage(target: string)                          // reactivation page that returns to target, then exit
    | Crash                                                // an exception no catch clause matches ends the request

  const DefaultReason := "تم إيقاف المشروع من لوحة التحكم"
  const DefaultProjectName := "المشروع"

  /** The suspension page for the project record `data`, with the defaults for a missing reason or name. */
  function SuspensionPage(data: Json.Value): (o: Outcome)
    ensures o.Block?
  {
    Block(Json.Coalesce(data, "suspended_reason", Json.Str(DefaultReason)),
          Json.Coalesce(data, "project_name", Json.Str(DefaultProjectName)))
  }

  /** The page shows the record's own reason and name, and the defaults where they are missing or null. */
  lemma SuspensionPageFields(data: Json.Value)
    ensures Json.IsSet(data, "suspended_reason") ==> SuspensionPage(data).reason == Json.At(data, "suspended_reason")
    ensures !Json.IsSet(data, "suspended_reason") ==> SuspensionPage(data).reason == Json.Str(DefaultReason)
    ensures Json.IsSet(data, "project_name") ==> SuspensionPage(data).projectName == Json.At(data, "project_name")
    ensures !Json.IsSet(data, "project_name") ==> SuspensionPage(data).projectName == Json.Str(DefaultProjectName)
  {
  }

  datatype Response = Response(status: int, headers: seq<string>)

  const NoCacheHeaders: seq<string> := ["Cache-Control: no-cache, no-store, must-revalidate", "Pragma: no-cache", "Expires: 0"]

  /**
   * The response the agent itself sends before it exits (assuming no output
   * was sent before): none for `Pass`, a 503 that must not be cached for the
   * suspension page, a 200 that must not be cached for the success page,
   * PHP's 302 for a Location header, and PHP's bare 500 for an uncaught
   * exception.
   */
  function Respond(o: Outcome): (r: Option<Response>)
    ensures r.None? <==> o.Pass?
    ensures o.Block? ==> r.value.status == 503 && forall h | h in NoCacheHeaders :: h in r.value.headers
    ensures o.SuccessPage? ==> r.value.status == 200 && forall h | h in NoCacheHeaders :: h in r.value.headers
    ensures o.Redirect? ==> r.value.status == 302 && "Location: " + o.location in r.value.headers
    ensures o.RedirectNotice? ==> r.value.status == 302 && "Location: " + RedirectTo(o.uri, o.notice) in r.value.headers
    ensures o.Crash? ==> r.value.status == 500 && r.value.headers == []
  {
    match o
    case Pass => None
    case Block(_, _) =>
      Some(Response(503, ["HTTP/1.1 503 Service Temporarily Unavailable", "Content-Type: text/html; charset=utf-8"] + NoCacheHeaders))
    case Redirect(url) => Some(Response(302, ["Location: " + url]))
    case RedirectNotice(uri, n) => Some(Response(302, ["Location: " + RedirectTo(uri, n)]))
    case SuccessPage(_) =>
      Some(Response(200, ["HTTP/1.1 200 OK", "Content-Type: text/html; charset=utf-8"] + NoCacheHeaders))
    case Crash => Some(Response(500, []))
  }

  // ----------------------------------------------------------- redirects

  /** `strtok($_SERVER['REQUEST_URI'], '?')` as it is concatenated: PHP's `false` turns into "". */
  function RedirectBase(uri: string): (b: string)
    ensures '?' !in b
    ensures uri != [] && uri[0] != '?' ==>
              |b| <= |uri| && b == uri[..|b|] && (|b| == |uri| || uri[|b|] == '?')
    ensures b == [] <==> forall i | 0 <= i < |uri| :: uri[i] == '?'
    ensures b != [] ==> exists k :: Php.FirstTokenAt(uri, '?', k, b)
  {
    Php.StrTok(uri, '?').GetOr("")
  }

  /** The one message a redirect carries. */
  datatype Notice = Error(message: string) | Success(message: string)

  function ParamName(n: Notice): string {
    if n.Error? then "error" else "success"
  }

  /** The single query parameter of a redirect: `error=<urlencoded message>` or `success=…`. */
  function NoticeQuery(n: Notice): string {
    ParamName(n) + "=" + Php.UrlEncode(n.message)
  }

  /** `strtok($uri, '?') . '?error=' . urlencode($message)`, or `?success=`. */
  function RedirectTo(uri: string, n: Notice): string {
    RedirectBase(uri) + "?" + NoticeQuery(n)
  }

  /** The path of a URL: what comes before its first '?'. */
  function PathOf(url: string): string {
    Php.UpToDelimiter(url, '?')
  }

  /** The query string of a URL: what comes after its first '?', or "" without one. */
  function QueryOf(url: string): string {
    var p := PathOf(url);
    if |p| < |url| then url[|p| + 1..] else ""
  }

  /**
   * Every redirect keeps the request's path, drops its whole query string
   * (earlier parameters and the submitted code with it) and carries exactly
   * one parameter, `error` or `success`, whose value `$_GET` decodes back
   * to the message.
   */
  lemma RedirectHygiene(uri: string, n: Notice)
    ensures PathOf(RedirectTo(uri, n)) == RedirectBase(uri)
    ensures QueryOf(RedirectTo(uri, n)) == NoticeQuery(n)
    ensures NoticeQuery(n) == ParamName(n) + "=" + Php.UrlEncode(n.message)
    ensures '&' !in NoticeQuery(n) && '?' !in NoticeQuery(n)
    ensures forall i | 0 <= i < |Php.UrlEncode(n.message)| :: Php.UrlEncode(n.message)[i] as int < 256
    ensures Php.UrlDecode(Php.UrlEncode(n.message)) == Php.Utf8Bytes(n.message)
  {
    NoSeparators(n);
    SplitAtQuery(RedirectBase(uri), NoticeQuery(n));
    Php.UrlEncodeRoundTrip(n.message);
  }

  /** The query of a redirect holds no separator that would start a second parameter. */
  lemma NoSeparators(n: Notice)
    ensures '&' !in NoticeQuery(n) && '?' !in NoticeQuery(n)
  {
    var p := ParamName(n) + "=";
    var e := Php.UrlEncode(n.message);
    assert '&' !in p && '?' !in p;
    assert forall c | c in p + e :: c in p || c in e;
  }

  /** A URL built as path, '?', query splits back into that path and that query. */
  lemma {:induction false} SplitAtQuery(b: string, q: string)
    requires '?' !in b
    ensures PathOf(b + "?" + q) == b
    ensures QueryOf(b + "?" + q) == q
  {
    if b != [] {
      assert (b + "?" + q)[1..] == b[1..] + "?" + q;
      SplitAtQuery(b[1..], q);
    } else {
      assert b + "?" + q == "?" + q;
    }
    assert (b + "?" + q)[|b| + 1..] == q;
  }

  /** A request URI made of a path and a query redirects back to that path. */
  lemma BaseOfPathAndQuery(p: string, q: string)
    requires p != [] && p[0] != '?' && '?' !in p
    ensures RedirectBase(p + "?" + q) == p
  {
    var url := p + "?" + q;
    var b := RedirectBase(url);
    assert url[0] == p[0];
    assert forall j | 0 <= j < |p| :: url[j] == p[j];
    assert url[|p|] == '?';
    assert |b| == |p|;
    assert b == url[..|p|] == p;
  }

  /** The example of a request carrying other parameters and the code itself. */
  lemma RedirectDropsQuery(n: Notice)
    ensures PathOf(RedirectTo("/admin?foo=bar&activation_code=XYZ", n)) == "/admin"
  {
    assert "/admin?foo=bar&activation_code=XYZ" == "/admin" + "?" + "foo=bar&activation_code=XYZ";
    BaseOfPathAndQuery("/admin", "foo=bar&activation_code=XYZ");
    RedirectHygiene("/admin?foo=bar&activation_code=XYZ", n);
  }
}
