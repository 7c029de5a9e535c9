/**
 * What `TrackingService` does, one private or public method at a time, as
 * functions from the service's state to its new state (and to how the
 * request is left, or to what the method returns). The state is the two
 * fields the service assigns, the files under the project root, and the log
 * of calls made to the remote authority; the remote authority's answers are
 * an input. `Tracking` carries out the same steps imperatively and is proved
 * to follow these functions.
 */
module TrackingSpec {
  import opened Options
  import Php
  import Json
  import opened Http
  import opened Identity

  /** What one request gives the service: its surroundings, the request, and the remote authority. */
  datatype Context = Context(env: Env, req: Request, remote: Remote)

  /** `$this->projectId`, `$this->activationCode`, the files, and the calls made so far. */
  datatype State = State(projectId: Json.Value, activationCode: Json.Value, fs: Files, calls: seq<Call>)

  /** A fresh service: both fields unset. */
  function Fresh(fs: Files, calls: seq<Call>): (s: State)
    ensures !Json.Truthy(s.projectId) && !Json.Truthy(s.activationCode)
  {
    State(Json.Null, Json.Null, fs, calls)
  }

  /** A step of the request's handling: the new state and how the request is left so far. */
  datatype Step = Step(state: State, outcome: Outcome)

  /**
   * A public method's new state and its return value, or the state it left
   * when an exception escaped it.
   */
  datatype Answered = Answered(state: State, result: Json.Value) | Threw(state: State)

  /** A call whose return value is dropped: only an escaping exception still matters. */
  function Discard(a: Answered): (st: Step)
    ensures st.state == a.state
    ensures st.outcome == (if a.Threw? then Crash else Pass)
  {
    if a.Threw? then Step(a.state, Crash) else Step(a.state, Pass)
  }

  /** Record that `c` was sent. */
  function Issue(s: State, c: Call): (t: State)
    ensures t.calls == s.calls + [c]
    ensures t.projectId == s.projectId && t.activationCode == s.activationCode && t.fs == s.fs
  {
    s.(calls := s.calls + [c])
  }

  /**
   * Which program: the source as written, or with its two defects
   * corrected — the status gate stands aside only for a submitted code, and
   * the `catch` clauses catch every transfer exception.
   */
  datatype Build = AsWritten | Corrected

  /**
   * The exception a reply raises passes every `catch (RequestException $e)`:
   * as written, a `ConnectException` does.
   */
  predicate Escapes(b: Build, r: Reply) {
    b == AsWritten && r.Unreachable?
  }

  // ------------------------------------------------------ registration

  /** The per-host flag file: the root, `.project_registered_` and the md5 of the host. */
  function FlagFile(ctx: Context): string {
    ctx.env.root + "/.project_registered_" + ctx.env.md5(Domain(ctx.req))
  }

  /**
   * `updateDatabaseFromEnv`, `backupSourceCode` and `deleteDatabaseData`
   * (`$projectId = null`): nothing without a target project, the argument
   * or else `projectId`; otherwise one call, answering its decoded body, or
   * null when it raised a caught exception.
   */
  function InvokeTargeted(ctx: Context, s: State, b: Build, op: TargetOp, arg: Json.Value): Answered {
    var target := if arg != Json.Null then arg else s.projectId;
    if !Json.Truthy(target) then Answered(s, Json.Null)
    else
      var c := Targeted(op, target);
      var r := ctx.remote(c);
      if Escapes(b, r) then Threw(Issue(s, c))
      else Answered(Issue(s, c), if Raises(r) then Json.Null else r.json)
  }

  /** `if ($this->projectId && $this->activationCode) $this->updateDatabaseFromEnv($this->projectId)`. */
  function SyncIfRegistered(ctx: Context, s: State, b: Build): Step {
    if Json.Truthy(s.projectId) && Json.Truthy(s.activationCode) then
      Discard(InvokeTargeted(ctx, s, b, SyncFromEnv, s.projectId))
    else Step(s, Pass)
  }

  /** `startHeartbeat`: one heartbeat when the project is known; its caught failures are ignored. */
  function StartHeartbeat(ctx: Context, s: State, b: Build): Step {
    if !Json.Truthy(s.projectId) then Step(s, Pass)
    else
      var c := Heartbeat(s.projectId, s.activationCode);
      Step(Issue(s, c), if Escapes(b, ctx.remote(c)) then Crash else Pass)
  }

  /** The registration failure that means "this project is already registered". */
  predicate IsDuplicateConflict(r: Reply) {
    r.Answer? && r.status == 500 && Php.Contains(r.body, "Duplicate entry")
  }

  /**
   * `handleExistingProject`: look the project up by domain and take its id
   * and code from the record, then sync as after a registration.
   */
  function HandleExistingProject(ctx: Context, s: State, b: Build): Step {
    var c := InfoByDomain(Domain(ctx.req));
    var r := ctx.remote(c);
    var s1 := Issue(s, c);
    if Escapes(b, r) then Step(s1, Crash)
    else if Raises(r) then Step(s1, Pass)
    else if Json.Truthy(r.json) && Json.IsSet(r.json, "data") then
      var record := Json.At(r.json, "data");
      SyncIfRegistered(ctx, s1.(projectId := Json.At(record, "id"),
                                activationCode := Json.At(record, "activation_code")), b)
    else Step(s1, Pass)
  }

  /**
   * The `try` block of `initializeTracking`: resolve the identifier,
   * register, take the id and code from the answer, sync and send a
   * heartbeat; on a caught failure fall back to the lookup only for a
   * duplicate conflict.
   */
  function Register(ctx: Context, s: State, b: Build): Step {
    var resolved := GetOrCreateUniqueProjectId(ctx.env, s.fs);
    var c := StoreProject(resolved.id, Domain(ctx.req));
    var r := ctx.remote(c);
    var s1 := Issue(s.(fs := resolved.fs), c);
    if Escapes(b, r) then Step(s1, Crash)
    else if Raises(r) then
      if IsDuplicateConflict(r) then HandleExistingProject(ctx, s1, b) else Step(s1, Pass)
    else
      var s2 := s1.(projectId := Json.At(r.json, "project_id"),
                    activationCode := Json.At(r.json, "activation_code"));
      var a := SyncIfRegistered(ctx, s2, b);
      if !a.outcome.Pass? then a else StartHeartbeat(ctx, a.state, b)
  }

  // ----------------------------------------------------------- the gate

  /**
   * When the gate stands aside for an activation request. As written
   * (`!isset($_POST['activation_code'])`) any `activation_code` field makes
   * it stand aside; corrected, only a submission the activation handler
   * will act on does.
   */
  predicate GateSkips(b: Build, req: Request) {
    match b
    case AsWritten => CodeField in req.post
    case Corrected => SubmittedCode(req).Some?
  }

  /** The project record says the project is suspended: data is present and `is_active` is falsy or missing. */
  predicate Suspended(r: Reply) {
    !Raises(r) && Json.Truthy(r.json) && Json.IsSet(r.json, "data")
    && !Json.Truthy(Json.At(Json.At(r.json, "data"), "is_active"))
  }

  /** The reply to the lookup of the project by domain. */
  function StatusReply(ctx: Context): Reply {
    ctx.remote(InfoByDomain(Domain(ctx.req)))
  }

  /** `validateProjectStatus`: look the project up and show the suspension page when it is suspended. */
  function ValidateProjectStatus(ctx: Context, s: State, b: Build): Step {
    var c := InfoByDomain(Domain(ctx.req));
    var r := ctx.remote(c);
    if Escapes(b, r) then Step(Issue(s, c), Crash)
    else if Suspended(r) && !GateSkips(b, ctx.req) then Step(Issue(s, c), SuspensionPage(Json.At(r.json, "data")))
    else Step(Issue(s, c), Pass)
  }

  /**
   * `initializeTracking`: with the flag file present, only the gate runs;
   * otherwise the flag is written first and the registration attempted.
   */
  function InitializeTracking(ctx: Context, s: State, b: Build): Step {
    var flag := FlagFile(ctx);
    if flag in s.fs then ValidateProjectStatus(ctx, s, b)
    else Register(ctx, s.(fs := s.fs[flag := ctx.env.now]), b)
  }

  // ---------------------------------------------------------- activation

  const ConnectionFailed := "فشل في الاتصال بالخادم المركزي"
  const ProjectNotFound := "لم يتم العثور على المشروع"
  const InvalidCode := "كود التفعيل غير صحيح"
  const ReactivationFailed := "فشل في إعادة تفعيل المشروع"

  /** The redirect back to the request's path with one error message. */
  function Fail(ctx: Context, message: string): Outcome {
    RedirectNotice(ctx.req.uri, Error(message))
  }

  /**
   * `processActivationCode`: fetch the project record; when its code is
   * strictly equal to the submitted one, ask for reactivation and show the
   * success page on a 200; every other path redirects with an error.
   */
  function ProcessActivationCode(ctx: Context, s: State, b: Build, code: string): Step {
    var c := InfoByDomain(Domain(ctx.req));
    var r := ctx.remote(c);
    var s1 := Issue(s, c);
    if Escapes(b, r) then Step(s1, Crash)
    else if Raises(r) then Step(s1, Fail(ctx, ConnectionFailed))
    else if !(Json.Truthy(r.json) && Json.IsSet(r.json, "data")) then Step(s1, Fail(ctx, ProjectNotFound))
    else
      var project := Json.At(r.json, "data");
      if Json.At(project, "activation_code") != Json.Str(code) then Step(s1, Fail(ctx, InvalidCode))
      else
        var c2 := Reactivate(Json.At(project, "id"));
        var r2 := ctx.remote(c2);
        var s2 := Issue(s1, c2);
        if Escapes(b, r2) then Step(s2, Crash)
        else if Raises(r2) then Step(s2, Fail(ctx, ConnectionFailed))
        else if r2.status == 200 then Step(s2, SuccessPage(RedirectBase(ctx.req.uri)))
        else Step(s2, Fail(ctx, ReactivationFailed))
  }

  /** `handleActivationCode`: act only on a submitted code. */
  function HandleActivationCode(ctx: Context, s: State, b: Build): Step {
    match SubmittedCode(ctx.req)
    case None => Step(s, Pass)
    case Some(code) => ProcessActivationCode(ctx, s, b, code)
  }

  /**
   * The constructor: initialise, handle an activation code, then run the
   * gate; the first step that does not let the request through ends it.
   */
  function Construct(ctx: Context, s: State, b: Build): Step {
    var a := InitializeTracking(ctx, s, b);
    if !a.outcome.Pass? then a
    else
      var h := HandleActivationCode(ctx, a.state, b);
      if !h.outcome.Pass? then h
      else ValidateProjectStatus(ctx, h.state, b)
  }

  // ------------------------------------------------------ public methods

  /** `updateLastSeen`: one call when the project is known, none otherwise; it returns nothing (null). */
  function UpdateLastSeen(ctx: Context, s: State, b: Build): Answered {
    if !Json.Truthy(s.projectId) then Answered(s, Json.Null)
    else
      var c := LastSeen(s.projectId, s.activationCode);
      if Escapes(b, ctx.remote(c)) then Threw(Issue(s, c)) else Answered(Issue(s, c), Json.Null)
  }

  /**
   * `regenerateActivationCode`: on an answer, the code becomes the answer's
   * `activation_code` (or null) and is returned; a caught failure returns
   * null and keeps the old code.
   */
  function RegenerateActivationCode(ctx: Context, s: State, b: Build): Answered {
    if !Json.Truthy(s.projectId) then Answered(s, Json.Null)
    else
      var c := Regenerate(s.projectId);
      var r := ctx.remote(c);
      var s1 := Issue(s, c);
      if Escapes(b, r) then Threw(s1)
      else if Raises(r) then Answered(s1, Json.Null)
      else
        var code := Json.At(r.json, "activation_code");
        Answered(s1.(activationCode := code), code)
  }

  /** `getCommandStatus($commandId, $projectId = null)`: nothing without a target project and a command. */
  function GetCommandStatus(ctx: Context, s: State, b: Build, commandId: Json.Value, arg: Json.Value): Answered {
    var target := if arg != Json.Null then arg else s.projectId;
    if !Json.Truthy(target) || !Json.Truthy(commandId) then Answered(s, Json.Null)
    else
      var c := CommandStatus(target, commandId);
      var r := ctx.remote(c);
      if Escapes(b, r) then Threw(Issue(s, c))
      else Answered(Issue(s, c), if Raises(r) then Json.Null else r.json)
  }

  /** What a one-shot operation returns when it does nothing or its call raised a caught exception. */
  function Failure(op: Op): Json.Value {
    if AnswersBool(op) then Json.Bool(false) else Json.Null
  }

  /**
   * The one-shot public operations (`getDatabase`, `startProject`,
   * `deleteProject`, …): guarded by `projectId`, one call, `true` or the
   * decoded body on an answer, the failure value on a caught failure.
   */
  function Invoke(ctx: Context, s: State, b: Build, op: Op): Answered {
    if !Json.Truthy(s.projectId) then Answered(s, Failure(op))
    else
      var c := OneShot(op, s.projectId);
      var r := ctx.remote(c);
      if Escapes(b, r) then Threw(Issue(s, c))
      else Answered(Issue(s, c), if Raises(r) then Failure(op) else if AnswersBool(op) then Json.Bool(true) else r.json)
  }

  /**
   * `validateActivationCode($inputCode)`: with a known project, ask the
   * authority about the code, and redirect to the full request URI when it
   * answers `status` "success" with active data; every other path returns
   * `false`, which is `Pass` here, unless an exception escapes.
   */
  function ValidateActivationCode(ctx: Context, s: State, b: Build, code: string): Step {
    if !Json.Truthy(s.projectId) then Step(s, Pass)
    else
      var c := CheckStatus(Domain(ctx.req), code);
      var r := ctx.remote(c);
      if Escapes(b, r) then Step(Issue(s, c), Crash)
      else if !Raises(r) && Json.At(r.json, "status") == Json.Str("success")
              && Json.Truthy(Json.At(Json.At(r.json, "data"), "is_active"))
      then Step(Issue(s, c), Redirect(ctx.req.uri))
      else Step(Issue(s, c), Pass)
  }
}
