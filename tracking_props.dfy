/**
 * What `TrackingService` promises, proved about the step functions of
 * `TrackingSpec`: the flag file short-circuits registration, a failed
 * registration is never retried and falls back to the lookup only for a
 * duplicate conflict, every remote operation is guarded by `projectId`, the
 * gate and the activation handler decide as stated, and — for the gate as
 * written — a blank activation code walks past a suspended project.
 */
module TrackingProps {
  import opened Options
  import Php
  import Json
  import opened Http
  import opened Identity
  import opened TrackingSpec

  /** `t` is `s` with calls appended. */
  predicate Extends(t: seq<Call>, s: seq<Call>) {
    |s| <= |t| && t[..|s|] == s
  }

  /** No reply of the authority raises an exception that escapes the build's `catch` clauses. */
  ghost predicate Reliable(ctx: Context, b: Build) {
    forall c :: !Escapes(b, ctx.remote(c))
  }

  // ------------------------------------------------------ the follow-ups

  /**
   * The sync call goes out exactly when both fields are truthy; nothing else
   * changes, and only an escaping exception from it ends the request.
   */
  lemma SyncOnlyWhenRegistered(ctx: Context, s: State, b: Build)
    ensures var t := SyncIfRegistered(ctx, s, b);
      var sync := Json.Truthy(s.projectId) && Json.Truthy(s.activationCode);
      t.state.projectId == s.projectId && t.state.activationCode == s.activationCode && t.state.fs == s.fs
      && t.state.calls == s.calls + (if sync then [Targeted(SyncFromEnv, s.projectId)] else [])
      && t.outcome == (if sync && Escapes(b, ctx.remote(Targeted(SyncFromEnv, s.projectId))) then Crash else Pass)
  {
  }

  /**
   * The heartbeat goes out exactly when `projectId` is truthy, carrying both
   * fields; only an escaping exception from it ends the request.
   */
  lemma HeartbeatOnlyWithProject(ctx: Context, s: State, b: Build)
    ensures var t := StartHeartbeat(ctx, s, b);
      var c := Heartbeat(s.projectId, s.activationCode);
      t.state.projectId == s.projectId && t.state.activationCode == s.activationCode && t.state.fs == s.fs
      && t.state.calls == s.calls + (if Json.Truthy(s.projectId) then [c] else [])
      && t.outcome == (if Json.Truthy(s.projectId) && Escapes(b, ctx.remote(c)) then Crash else Pass)
  {
  }

  /**
   * The lookup of an existing project: exactly one lookup call, then — when
   * the answer holds a record — the fields from the record and the sync
   * exactly when both are truthy; otherwise nothing more. The files are
   * untouched.
   */
  lemma ExistingProjectLookup(ctx: Context, s: State, b: Build)
    ensures var t := HandleExistingProject(ctx, s, b);
      var lookup := InfoByDomain(Domain(ctx.req));
      var r := StatusReply(ctx);
      t.state.fs == s.fs && Extends(t.state.calls, s.calls + [lookup])
      && if Escapes(b, r) then t == Step(Issue(s, lookup), Crash)
         else if !Raises(r) && Json.Truthy(r.json) && Json.IsSet(r.json, "data") then
           var pid := Json.At(Json.At(r.json, "data"), "id");
           var code := Json.At(Json.At(r.json, "data"), "activation_code");
           var sync := Json.Truthy(pid) && Json.Truthy(code);
           t.state.projectId == pid && t.state.activationCode == code
           && t.state.calls == s.calls + [lookup] + (if sync then [Targeted(SyncFromEnv, pid)] else [])
           && t.outcome == (if sync && Escapes(b, ctx.remote(Targeted(SyncFromEnv, pid))) then Crash else Pass)
         else t == Step(Issue(s, lookup), Pass)
  {
    var c := InfoByDomain(Domain(ctx.req));
    var r := ctx.remote(c);
    var s1 := Issue(s, c);
    if !Escapes(b, r) && !Raises(r) && Json.Truthy(r.json) && Json.IsSet(r.json, "data") {
      var record := Json.At(r.json, "data");
      SyncOnlyWhenRegistered(ctx, s1.(projectId := Json.At(record, "id"),
                                      activationCode := Json.At(record, "activation_code")), b);
    }
  }

  // -------------------------------------------------------- registration

  /** The registration request of a state: the resolved identifier and the domain. */
  function StoreCall(ctx: Context, s: State): Call {
    StoreProject(GetOrCreateUniqueProjectId(ctx.env, s.fs).id, Domain(ctx.req))
  }

  /**
   * Registration changes the files only by resolving the identifier, and
   * its first call is the registration request.
   */
  lemma RegisterFrame(ctx: Context, s: State, b: Build)
    ensures Register(ctx, s, b).state.fs == GetOrCreateUniqueProjectId(ctx.env, s.fs).fs
    ensures Extends(Register(ctx, s, b).state.calls, s.calls + [StoreCall(ctx, s)])
  {
    var resolved := GetOrCreateUniqueProjectId(ctx.env, s.fs);
    var c := StoreCall(ctx, s);
    var r := ctx.remote(c);
    var s1 := Issue(s.(fs := resolved.fs), c);
    if Raises(r) {
      RegisterFails(ctx, s, b);
      if !Escapes(b, r) && IsDuplicateConflict(r) {
        ExistingProjectLookup(ctx, s1, b);
      }
    } else {
      var s2 := s1.(projectId := Json.At(r.json, "project_id"),
                    activationCode := Json.At(r.json, "activation_code"));
      SyncOnlyWhenRegistered(ctx, s2, b);
      var a := SyncIfRegistered(ctx, s2, b);
      if a.outcome.Pass? {
        HeartbeatOnlyWithProject(ctx, a.state, b);
      }
    }
  }

  /**
   * A successful registration takes the answer's `project_id` and
   * `activation_code`, then syncs when both are truthy and sends a
   * heartbeat when the id is (unless the sync's exception escaped): exactly
   * these calls, in this order; the request ends only if one of them
   * escaped.
   */
  lemma RegisterSucceeds(ctx: Context, s: State, b: Build)
    requires !Raises(ctx.remote(StoreCall(ctx, s)))
    ensures var data := ctx.remote(StoreCall(ctx, s)).json;
      var pid := Json.At(data, "project_id");
      var code := Json.At(data, "activation_code");
      var sync := Json.Truthy(pid) && Json.Truthy(code);
      var syncEscapes := sync && Escapes(b, ctx.remote(Targeted(SyncFromEnv, pid)));
      var beat := Json.Truthy(pid) && !syncEscapes;
      var beatEscapes := beat && Escapes(b, ctx.remote(Heartbeat(pid, code)));
      var t := Register(ctx, s, b);
      t.state.projectId == pid && t.state.activationCode == code
      && t.state.calls == s.calls + [StoreCall(ctx, s)]
                        + (if sync then [Targeted(SyncFromEnv, pid)] else [])
                        + (if beat then [Heartbeat(pid, code)] else [])
      && t.outcome == (if syncEscapes || beatEscapes then Crash else Pass)
  {
    var resolved := GetOrCreateUniqueProjectId(ctx.env, s.fs);
    var c := StoreCall(ctx, s);
    var r := ctx.remote(c);
    var s1 := Issue(s.(fs := resolved.fs), c);
    var s2 := s1.(projectId := Json.At(r.json, "project_id"),
                  activationCode := Json.At(r.json, "activation_code"));
    SyncOnlyWhenRegistered(ctx, s2, b);
    var a := SyncIfRegistered(ctx, s2, b);
    if a.outcome.Pass? {
      HeartbeatOnlyWithProject(ctx, a.state, b);
    }
  }

  /**
   * A failed registration ends the request when its exception escapes;
   * otherwise it falls back to the lookup by domain exactly when the answer
   * is a 500 whose body mentions "Duplicate entry", and any other failure
   * leaves the fields as they were and makes no further call.
   */
  lemma RegisterFails(ctx: Context, s: State, b: Build)
    requires Raises(ctx.remote(StoreCall(ctx, s)))
    ensures var t := Register(ctx, s, b);
      var r := ctx.remote(StoreCall(ctx, s));
      var s1 := s.(fs := GetOrCreateUniqueProjectId(ctx.env, s.fs).fs, calls := s.calls + [StoreCall(ctx, s)]);
      if Escapes(b, r) then t == Step(s1, Crash)
      else if IsDuplicateConflict(r) then t == HandleExistingProject(ctx, s1, b)
      else t == Step(s1, Pass)
  {
  }

  /**
   * The call after the registration request is the lookup by domain if and
   * only if the registration met a duplicate conflict.
   */
  lemma LookupOnlyOnDuplicate(ctx: Context, s: State, b: Build)
    ensures var t := Register(ctx, s, b).state;
      |t.calls| > |s.calls| + 1 && t.calls[|s.calls| + 1].InfoByDomain?
      <==> IsDuplicateConflict(ctx.remote(StoreCall(ctx, s)))
  {
    var r := ctx.remote(StoreCall(ctx, s));
    var t := Register(ctx, s, b).state;
    RegisterFrame(ctx, s, b);
    if Raises(r) {
      RegisterFails(ctx, s, b);
      if IsDuplicateConflict(r) {
        var s1 := s.(fs := t.fs, calls := s.calls + [StoreCall(ctx, s)]);
        ExistingProjectLookup(ctx, s1, b);
        assert t.calls[..|s1.calls| + 1] == s1.calls + [InfoByDomain(Domain(ctx.req))];
        assert t.calls[|s.calls| + 1] == t.calls[..|s1.calls| + 1][|s.calls| + 1];
      }
    } else {
      RegisterSucceeds(ctx, s, b);
    }
  }

  /** A fresh service whose registration failed other than by a duplicate conflict keeps both fields unset. */
  lemma FailedRegistrationLeavesUnset(ctx: Context, fs: Files, calls: seq<Call>, b: Build)
    requires Raises(ctx.remote(StoreCall(ctx, Fresh(fs, calls))))
    requires !IsDuplicateConflict(ctx.remote(StoreCall(ctx, Fresh(fs, calls))))
    ensures Register(ctx, Fresh(fs, calls), b).state.projectId == Json.Null
    ensures Register(ctx, Fresh(fs, calls), b).state.activationCode == Json.Null
  {
    RegisterFails(ctx, Fresh(fs, calls), b);
  }

  /**
   * Registration lets the request through unless an exception escaped one
   * of its calls, which as written a `ConnectException` does.
   */
  lemma RegisterOutcome(ctx: Context, s: State, b: Build)
    ensures Register(ctx, s, b).outcome == Pass || Register(ctx, s, b).outcome == Crash
    ensures Reliable(ctx, b) ==> Register(ctx, s, b).outcome == Pass
  {
    var r := ctx.remote(StoreCall(ctx, s));
    if Raises(r) {
      RegisterFails(ctx, s, b);
      if !Escapes(b, r) && IsDuplicateConflict(r) {
        var s1 := s.(fs := GetOrCreateUniqueProjectId(ctx.env, s.fs).fs, calls := s.calls + [StoreCall(ctx, s)]);
        ExistingProjectLookup(ctx, s1, b);
      }
    } else {
      RegisterSucceeds(ctx, s, b);
    }
  }

  /** The identifier file and the flag file are different files. */
  lemma IdFileIsNotFlag(ctx: Context)
    ensures IdFile(ctx.env) != FlagFile(ctx)
  {
    var k := |ctx.env.root| + 10;
    assert IdFile(ctx.env)[k] == 'u';
    assert FlagFile(ctx)[k] == 'r';
  }

  /**
   * With the flag file present, initialisation only runs the gate: no
   * registration request, no file written, both fields as they were.
   */
  lemma RegisteredSkipsRegistration(ctx: Context, s: State, b: Build)
    requires FlagFile(ctx) in s.fs
    ensures var t := InitializeTracking(ctx, s, b).state;
      t.fs == s.fs && t.projectId == s.projectId && t.activationCode == s.activationCode
      && t.calls == s.calls + [InfoByDomain(Domain(ctx.req))]
  {
  }

  /**
   * Without the flag file, initialisation writes it (with the current date)
   * before the registration request, whatever the authority answers, sends
   * the registration request first, and lets the request through unless an
   * exception escaped (which the corrected build never lets happen).
   */
  lemma FirstRequestWritesFlag(ctx: Context, s: State, b: Build)
    requires FlagFile(ctx) !in s.fs
    ensures var s0 := s.(fs := s.fs[FlagFile(ctx) := ctx.env.now]);
      var a := InitializeTracking(ctx, s, b);
      (a.outcome == Pass || a.outcome == Crash)
      && (b == Corrected ==> a.outcome == Pass)
      && FlagFile(ctx) in a.state.fs && a.state.fs[FlagFile(ctx)] == ctx.env.now
      && Extends(a.state.calls, s.calls + [StoreCall(ctx, s0)])
  {
    var s0 := s.(fs := s.fs[FlagFile(ctx) := ctx.env.now]);
    RegisterFrame(ctx, s0, b);
    RegisterOutcome(ctx, s0, b);
    IdFileIsNotFlag(ctx);
  }

  /** A second request after the first one finds the flag file and does not register again. */
  lemma RegistrationNeverRetried(ctx: Context, s: State, b: Build, later: Context, t: State)
    requires FlagFile(ctx) !in s.fs
    requires FlagFile(later) == FlagFile(ctx)
    requires t.fs == InitializeTracking(ctx, s, b).state.fs
    ensures InitializeTracking(later, t, b).state.calls == t.calls + [InfoByDomain(Domain(later.req))]
  {
    FirstRequestWritesFlag(ctx, s, b);
  }

  // ------------------------------------------------------------- the gate

  /**
   * The gate makes one lookup and changes nothing else; it shows the
   * suspension page for the project record exactly when the record says
   * suspended and the gate does not stand aside, ends the request when the
   * lookup's exception escapes, and lets the request through otherwise
   * (including when the lookup raised a caught exception).
   */
  lemma GateDecision(ctx: Context, s: State, b: Build)
    ensures var step := ValidateProjectStatus(ctx, s, b);
      var r := StatusReply(ctx);
      step.state == Issue(s, InfoByDomain(Domain(ctx.req)))
      && (step.outcome.Block? <==> Suspended(r) && !GateSkips(b, ctx.req))
      && (step.outcome.Block? ==> step.outcome == SuspensionPage(Json.At(r.json, "data")))
      && (!step.outcome.Block? ==> step.outcome == (if Escapes(b, r) then Crash else Pass))
      && (Raises(r) ==> step.outcome == (if Escapes(b, r) then Crash else Pass))
  {
  }

  // ----------------------------------------------------------- activation

  /** The activation handler changes the state only by its calls, and makes the lookup first. */
  lemma ActivationFrame(ctx: Context, s: State, b: Build, code: string)
    ensures var t := ProcessActivationCode(ctx, s, b, code).state;
      t.projectId == s.projectId && t.activationCode == s.activationCode && t.fs == s.fs
      && Extends(t.calls, s.calls + [InfoByDomain(Domain(ctx.req))])
  {
  }

  /** A raised lookup redirects with "connection failed", unless its exception escapes. */
  lemma ActivationLookupRaised(ctx: Context, s: State, b: Build, code: string)
    requires Raises(StatusReply(ctx))
    ensures ProcessActivationCode(ctx, s, b, code) ==
              Step(Issue(s, InfoByDomain(Domain(ctx.req))),
                   if Escapes(b, StatusReply(ctx)) then Crash else Fail(ctx, ConnectionFailed))
  {
  }

  /** An answer without a project record redirects with "project not found". */
  lemma ActivationNotFound(ctx: Context, s: State, b: Build, code: string)
    requires !Raises(StatusReply(ctx)) && !Json.IsSet(StatusReply(ctx).json, "data")
    ensures ProcessActivationCode(ctx, s, b, code) ==
              Step(Issue(s, InfoByDomain(Domain(ctx.req))), Fail(ctx, ProjectNotFound))
  {
  }

  /** The record's code, as the handler compares it. */
  function StoredCode(r: Reply): Json.Value
    requires r.Answer?
  {
    Json.At(Json.At(r.json, "data"), "activation_code")
  }

  /**
   * A code that is not strictly equal to the record's (a number, null, or
   * another string) redirects with "invalid code" and asks for no
   * reactivation.
   */
  lemma ActivationInvalidCode(ctx: Context, s: State, b: Build, code: string)
    requires !Raises(StatusReply(ctx)) && Json.IsSet(StatusReply(ctx).json, "data")
    requires StoredCode(StatusReply(ctx)) != Json.Str(code)
    ensures ProcessActivationCode(ctx, s, b, code) ==
              Step(Issue(s, InfoByDomain(Domain(ctx.req))), Fail(ctx, InvalidCode))
  {
    assert Json.Truthy(StatusReply(ctx).json);
  }

  /**
   * A matching code asks for reactivation of the record's id, and shows the
   * success page on a 200, "connection failed" when the call raised a
   * caught exception (no answer, or a 4xx or 5xx), "reactivation failed"
   * otherwise, and ends the request when the exception escapes.
   */
  lemma ActivationMatch(ctx: Context, s: State, b: Build, code: string)
    requires !Raises(StatusReply(ctx)) && Json.IsSet(StatusReply(ctx).json, "data")
    requires StoredCode(StatusReply(ctx)) == Json.Str(code)
    ensures var c2 := Reactivate(Json.At(Json.At(StatusReply(ctx).json, "data"), "id"));
      var r2 := ctx.remote(c2);
      var step := ProcessActivationCode(ctx, s, b, code);
      step.state.calls == s.calls + [InfoByDomain(Domain(ctx.req)), c2]
      && step.outcome == (if Escapes(b, r2) then Crash
                          else if Raises(r2) then Fail(ctx, ConnectionFailed)
                          else if r2.status == 200 then SuccessPage(RedirectBase(ctx.req.uri))
                          else Fail(ctx, ReactivationFailed))
  {
    var r := StatusReply(ctx);
    assert Json.Truthy(r.json);
    var c2 := Reactivate(Json.At(Json.At(r.json, "data"), "id"));
    var s2 := Issue(Issue(s, InfoByDomain(Domain(ctx.req))), c2);
    var r2 := ctx.remote(c2);
    assert ProcessActivationCode(ctx, s, b, code) ==
      if Escapes(b, r2) then Step(s2, Crash)
      else if Raises(r2) then Step(s2, Fail(ctx, ConnectionFailed))
      else if r2.status == 200 then Step(s2, SuccessPage(RedirectBase(ctx.req.uri)))
      else Step(s2, Fail(ctx, ReactivationFailed));
  }

  /**
   * A reactivation request is made only for a record whose code is
   * strictly equal to the submitted one.
   */
  lemma ReactivateOnlyOnMatch(ctx: Context, s: State, b: Build, code: string)
    ensures var t := ProcessActivationCode(ctx, s, b, code).state;
      var r := StatusReply(ctx);
      |t.calls| == |s.calls| + 2
      <==> !Raises(r) && Json.IsSet(r.json, "data") && StoredCode(r) == Json.Str(code)
  {
    var r := StatusReply(ctx);
    if Raises(r) {
      ActivationLookupRaised(ctx, s, b, code);
    } else if !Json.IsSet(r.json, "data") {
      ActivationNotFound(ctx, s, b, code);
    } else if StoredCode(r) != Json.Str(code) {
      ActivationInvalidCode(ctx, s, b, code);
    } else {
      ActivationMatch(ctx, s, b, code);
    }
  }

  /**
   * Every way through the activation handler ends the request; it crashes
   * only when one of its calls' exceptions escapes.
   */
  lemma ActivationNeverPasses(ctx: Context, s: State, b: Build, code: string)
    ensures !ProcessActivationCode(ctx, s, b, code).outcome.Pass?
    ensures Reliable(ctx, b) ==> !ProcessActivationCode(ctx, s, b, code).outcome.Crash?
  {
    var r := StatusReply(ctx);
    if Raises(r) {
      ActivationLookupRaised(ctx, s, b, code);
    } else if !Json.IsSet(r.json, "data") {
      ActivationNotFound(ctx, s, b, code);
    } else if StoredCode(r) != Json.Str(code) {
      ActivationInvalidCode(ctx, s, b, code);
    } else {
      ActivationMatch(ctx, s, b, code);
    }
  }

  /**
   * The handler acts on a submitted code only: without one nothing happens,
   * with one the request always ends in a redirect or the success page.
   */
  lemma HandlerRunsOnlyOnSubmission(ctx: Context, s: State, b: Build)
    ensures SubmittedCode(ctx.req).None? ==> HandleActivationCode(ctx, s, b) == Step(s, Pass)
    ensures SubmittedCode(ctx.req).Some? ==> !HandleActivationCode(ctx, s, b).outcome.Pass?
    ensures Reliable(ctx, b) ==> !HandleActivationCode(ctx, s, b).outcome.Crash?
  {
    match SubmittedCode(ctx.req)
    case None =>
    case Some(code) =>
      ActivationNeverPasses(ctx, s, b, code);
  }

  // ---------------------------------------------------------- the guards

  /**
   * While `projectId` is unset every public remote operation returns its
   * failure value (`null` or `false`) and makes no call; so does
   * `getCommandStatus` without a command.
   */
  lemma GuardsWithoutProject(ctx: Context, s: State, b: Build, op: Op, target: TargetOp, commandId: Json.Value, code: string)
    requires !Json.Truthy(s.projectId)
    ensures UpdateLastSeen(ctx, s, b) == Answered(s, Json.Null)
    ensures Invoke(ctx, s, b, op) == Answered(s, Failure(op))
    ensures RegenerateActivationCode(ctx, s, b) == Answered(s, Json.Null)
    ensures GetCommandStatus(ctx, s, b, commandId, Json.Null) == Answered(s, Json.Null)
    ensures InvokeTargeted(ctx, s, b, target, Json.Null) == Answered(s, Json.Null)
    ensures ValidateActivationCode(ctx, s, b, code) == Step(s, Pass)
  {
  }

  /** `getCommandStatus` makes no call for a falsy command id, whatever the project. */
  lemma CommandStatusNeedsCommand(ctx: Context, s: State, b: Build, commandId: Json.Value, arg: Json.Value)
    requires !Json.Truthy(commandId)
    ensures GetCommandStatus(ctx, s, b, commandId, arg) == Answered(s, Json.Null)
  {
  }

  /**
   * With `projectId` set, each guarded operation makes exactly its one call
   * with the current fields, changes nothing else, and throws exactly when
   * that call's exception escapes.
   */
  lemma GuardedOperationsCall(ctx: Context, s: State, b: Build, op: Op)
    requires Json.Truthy(s.projectId)
    ensures var c := LastSeen(s.projectId, s.activationCode);
      UpdateLastSeen(ctx, s, b).state == Issue(s, c)
      && (UpdateLastSeen(ctx, s, b).Threw? <==> Escapes(b, ctx.remote(c)))
    ensures var c := OneShot(op, s.projectId);
      var r := ctx.remote(c);
      Invoke(ctx, s, b, op).state == Issue(s, c)
      && (Invoke(ctx, s, b, op).Threw? <==> Escapes(b, r))
      && (!Escapes(b, r) ==>
            Invoke(ctx, s, b, op).result ==
              if Raises(r) then Failure(op) else if AnswersBool(op) then Json.Bool(true) else r.json)
  {
  }

  /**
   * `regenerateActivationCode` replaces only the activation code: on an
   * answer by the answer's `activation_code` (null when missing), which it
   * returns; a raised call keeps the old code, and returns null unless its
   * exception escapes.
   */
  lemma RegenerateReplacesOnlyCode(ctx: Context, s: State, b: Build)
    requires Json.Truthy(s.projectId)
    ensures var a := RegenerateActivationCode(ctx, s, b);
      var r := ctx.remote(Regenerate(s.projectId));
      a.state.projectId == s.projectId && a.state.fs == s.fs
      && a.state.calls == s.calls + [Regenerate(s.projectId)]
      && (a.Threw? <==> Escapes(b, r))
      && (Raises(r) ==> a.state.activationCode == s.activationCode)
      && (Raises(r) && !Escapes(b, r) ==> a.result == Json.Null)
      && (!Raises(r) ==> a.Answered? && a.state.activationCode == Json.At(r.json, "activation_code") == a.result)
  {
  }

  /**
   * `validateActivationCode` never returns anything but `false` (`Pass`)
   * or a redirect to the full request URI, and redirects only when the
   * authority answers `status` "success" with active data; it ends the
   * request only when its call's exception escapes.
   */
  lemma ValidationOutcome(ctx: Context, s: State, b: Build, code: string)
    ensures var step := ValidateActivationCode(ctx, s, b, code);
      var r := ctx.remote(CheckStatus(Domain(ctx.req), code));
      step.state.projectId == s.projectId && step.state.activationCode == s.activationCode
      && (step.outcome == Pass || step.outcome == Redirect(ctx.req.uri) || step.outcome == Crash)
      && (step.outcome.Redirect? <==>
            Json.Truthy(s.projectId) && !Raises(r) && Json.At(r.json, "status") == Json.Str("success")
            && Json.Truthy(Json.At(Json.At(r.json, "data"), "is_active")))
      && (step.outcome.Crash? <==> Json.Truthy(s.projectId) && Escapes(b, r))
  {
  }

  // ------------------------------------------------- a registered install

  /**
   * On an install whose flag file exists, the constructor never sets
   * `projectId` or `activationCode` and writes no file; so every guarded
   * operation afterwards does nothing — `updateLastSeen` makes no call and
   * the one-shot operations return their failure values.
   */
  lemma RegisteredInstallStaysUnset(ctx: Context, fs: Files, calls: seq<Call>, b: Build, op: Op)
    requires FlagFile(ctx) in fs
    ensures var t := Construct(ctx, Fresh(fs, calls), b).state;
      t.projectId == Json.Null && t.activationCode == Json.Null && t.fs == fs
      && UpdateLastSeen(ctx, t, b) == Answered(t, Json.Null)
      && Invoke(ctx, t, b, op) == Answered(t, Failure(op))
  {
    var s := Fresh(fs, calls);
    var a := InitializeTracking(ctx, s, b);
    RegisteredSkipsRegistration(ctx, s, b);
    if a.outcome.Pass? {
      var h := HandleActivationCode(ctx, a.state, b);
      if SubmittedCode(ctx.req).Some? {
        ActivationFrame(ctx, a.state, b, SubmittedCode(ctx.req).value);
      }
      if h.outcome.Pass? {
        GateDecision(ctx, h.state, b);
      }
    }
    var t := Construct(ctx, s, b).state;
    GuardsWithoutProject(ctx, t, b, op, SyncFromEnv, Json.Null, "");
  }

  // ---------------------------------------------- the uncaught exception

  /**
   * Whatever the request, the constructor ends it by an uncaught exception
   * only when some reply's exception escapes the build's `catch` clauses;
   * so the corrected build never crashes.
   */
  lemma NoEscapeNoCrash(ctx: Context, s: State, b: Build)
    requires Reliable(ctx, b)
    ensures !Construct(ctx, s, b).outcome.Crash?
  {
    var a := InitializeTracking(ctx, s, b);
    if FlagFile(ctx) in s.fs {
      GateDecision(ctx, s, b);
    } else {
      RegisterOutcome(ctx, s.(fs := s.fs[FlagFile(ctx) := ctx.env.now]), b);
    }
    if a.outcome.Pass? {
      var h := HandleActivationCode(ctx, a.state, b);
      HandlerRunsOnlyOnSubmission(ctx, a.state, b);
      if h.outcome.Pass? {
        GateDecision(ctx, h.state, b);
      }
    }
  }

  /**
   * As written, an authority that cannot be reached (refused connection,
   * failed name lookup, timeout) ends every request with an uncaught
   * exception: the first call the constructor makes throws a
   * `ConnectException`, which no `catch` clause matches.
   */
  lemma UnreachableAuthorityCrashes(ctx: Context, s: State)
    requires forall c :: ctx.remote(c).Unreachable?
    ensures Construct(ctx, s, AsWritten).outcome == Crash
  {
    if FlagFile(ctx) in s.fs {
      GateDecision(ctx, s, AsWritten);
    } else {
      var s0 := s.(fs := s.fs[FlagFile(ctx) := ctx.env.now]);
      RegisterFails(ctx, s0, AsWritten);
    }
  }

  /**
   * Corrected, the same authority leaves the site up: the request is
   * served, or — when it submits an activation code — redirected with
   * "connection failed".
   */
  lemma UnreachableFailsOpen(ctx: Context, s: State)
    requires forall c :: ctx.remote(c).Unreachable?
    ensures Construct(ctx, s, Corrected).outcome ==
              if SubmittedCode(ctx.req).None? then Pass else Fail(ctx, ConnectionFailed)
  {
    var a := InitializeTracking(ctx, s, Corrected);
    if FlagFile(ctx) in s.fs {
      GateDecision(ctx, s, Corrected);
    } else {
      var s0 := s.(fs := s.fs[FlagFile(ctx) := ctx.env.now]);
      RegisterFails(ctx, s0, Corrected);
    }
    match SubmittedCode(ctx.req)
    case None =>
      GateDecision(ctx, a.state, Corrected);
    case Some(code) =>
      ActivationLookupRaised(ctx, a.state, Corrected, code);
  }

  // ---------------------------------------------- the blank-code bypass

  /**
   * As written, a POST whose `activation_code` trims to "" or "0" lets the
   * request through whatever the authority says about the project: the
   * gate stands aside for the field and the handler ignores the code. Only
   * an uncaught exception can end it instead.
   */
  lemma BlankCodeBypass(ctx: Context, s: State)
    requires IsPost(ctx.req) && CodeField in ctx.req.post && SubmittedCode(ctx.req).None?
    ensures var o := Construct(ctx, s, AsWritten).outcome;
      (o == Pass || o == Crash) && (Reliable(ctx, AsWritten) ==> o == Pass)
  {
    var a := InitializeTracking(ctx, s, AsWritten);
    if FlagFile(ctx) in s.fs {
      GateDecision(ctx, s, AsWritten);
    } else {
      RegisterOutcome(ctx, s.(fs := s.fs[FlagFile(ctx) := ctx.env.now]), AsWritten);
    }
    GateDecision(ctx, a.state, AsWritten);
  }

  /** The request that shows it: a blank code posted to a suspended project. */
  function BlankPost(): Request {
    Request(Some("POST"), map[CodeField := " "], "/", None)
  }

  /** An authority that answers every call with a suspended project record. */
  function SuspendingAuthority(): Remote {
    (c: Call) => Answer(200, "", Json.Object(map["data" := Json.Object(map["is_active" := Json.Bool(false)])]))
  }

  /** The blank post carries the field but submits no code. */
  lemma BlankPostSubmitsNothing()
    ensures IsPost(BlankPost()) && CodeField in BlankPost().post
    ensures SubmittedCode(BlankPost()).None?
  {
    assert Php.Trim(" ") == "" by {
      assert Php.IsBlank(" "[0]);
    }
  }

  /** The suspending authority says the project is suspended, and always answers. */
  lemma AuthoritySuspends(ctx: Context)
    requires ctx.remote == SuspendingAuthority()
    ensures Suspended(StatusReply(ctx))
    ensures Reliable(ctx, AsWritten)
  {
    var record := Json.Object(map["is_active" := Json.Bool(false)]);
    var body := Json.Object(map["data" := record]);
    assert StatusReply(ctx) == Answer(200, "", body);
    assert Json.At(body, "data") == record;
    assert Json.At(record, "is_active") == Json.Null || Json.At(record, "is_active") == Json.Bool(false);
    forall c ensures !Escapes(AsWritten, ctx.remote(c)) {
      assert ctx.remote(c).Answer?;
    }
  }

  /** On that request, as written, the suspended project is served; corrected, it is not. */
  lemma BlankCodeExample(env: Env, fs: Files)
    ensures var ctx := Context(env, BlankPost(), SuspendingAuthority());
      Suspended(StatusReply(ctx))
      && Construct(ctx, Fresh(fs, []), AsWritten).outcome == Pass
      && Construct(ctx, Fresh(fs, []), Corrected).outcome.Block?
  {
    var ctx := Context(env, BlankPost(), SuspendingAuthority());
    BlankPostSubmitsNothing();
    AuthoritySuspends(ctx);
    BlankCodeBypass(ctx, Fresh(fs, []));
    SuspendedWithoutCodeBlocks(ctx, fs, [], Corrected);
  }

  /**
   * A suspended project, with no submitted code and a gate that does not
   * stand aside, gets the suspension page for its record — unless, as
   * written, an exception escaped the registration first.
   */
  lemma SuspendedWithoutCodeBlocks(ctx: Context, fs: Files, calls: seq<Call>, b: Build)
    requires Suspended(StatusReply(ctx))
    requires SubmittedCode(ctx.req).None? && !GateSkips(b, ctx.req)
    ensures var o := Construct(ctx, Fresh(fs, calls), b).outcome;
      o == SuspensionPage(Json.At(StatusReply(ctx).json, "data")) || (b == AsWritten && o == Crash)
  {
    var s := Fresh(fs, calls);
    var a := InitializeTracking(ctx, s, b);
    if FlagFile(ctx) in fs {
      GateDecision(ctx, s, b);
    } else {
      RegisterOutcome(ctx, s.(fs := s.fs[FlagFile(ctx) := ctx.env.now]), b);
      HandlerRunsOnlyOnSubmission(ctx, a.state, b);
      GateDecision(ctx, a.state, b);
    }
  }

  /**
   * Corrected, a suspended project is never served: without a submitted
   * code the gate shows the suspension page, and with one the activation
   * handler ends the request.
   */
  lemma SuspendedNeverPasses(ctx: Context, fs: Files, calls: seq<Call>)
    requires Suspended(StatusReply(ctx))
    ensures !Construct(ctx, Fresh(fs, calls), Corrected).outcome.Pass?
  {
    var s := Fresh(fs, calls);
    var a := InitializeTracking(ctx, s, Corrected);
    if a.outcome.Pass? {
      var h := HandleActivationCode(ctx, a.state, Corrected);
      HandlerRunsOnlyOnSubmission(ctx, a.state, Corrected);
      if h.outcome.Pass? {
        GateDecision(ctx, h.state, Corrected);
      }
    }
  }

  /** Where no exception escapes, the two builds' follow-up calls agree. */
  lemma SameFollowUps(ctx: Context, s: State)
    requires Reliable(ctx, AsWritten)
    ensures SyncIfRegistered(ctx, s, AsWritten) == SyncIfRegistered(ctx, s, Corrected)
    ensures StartHeartbeat(ctx, s, AsWritten) == StartHeartbeat(ctx, s, Corrected)
    ensures HandleExistingProject(ctx, s, AsWritten) == HandleExistingProject(ctx, s, Corrected)
  {
    var c := InfoByDomain(Domain(ctx.req));
    var r := ctx.remote(c);
    assert !Escapes(AsWritten, r);
    assert !Escapes(AsWritten, ctx.remote(Targeted(SyncFromEnv, s.projectId)));
    assert !Escapes(AsWritten, ctx.remote(Heartbeat(s.projectId, s.activationCode)));
    if !Raises(r) && Json.Truthy(r.json) && Json.IsSet(r.json, "data") {
      var record := Json.At(r.json, "data");
      var s2 := Issue(s, c).(projectId := Json.At(record, "id"), activationCode := Json.At(record, "activation_code"));
      assert !Escapes(AsWritten, ctx.remote(Targeted(SyncFromEnv, s2.projectId)));
    }
  }

  /** Where no exception escapes, the two builds register alike. */
  lemma SameRegistration(ctx: Context, s: State)
    requires Reliable(ctx, AsWritten)
    ensures Register(ctx, s, AsWritten) == Register(ctx, s, Corrected)
  {
    var resolved := GetOrCreateUniqueProjectId(ctx.env, s.fs);
    var c := StoreCall(ctx, s);
    var r := ctx.remote(c);
    var s1 := Issue(s.(fs := resolved.fs), c);
    assert !Escapes(AsWritten, r);
    if Raises(r) {
      SameFollowUps(ctx, s1);
    } else {
      var s2 := s1.(projectId := Json.At(r.json, "project_id"),
                    activationCode := Json.At(r.json, "activation_code"));
      SameFollowUps(ctx, s2);
      SameFollowUps(ctx, SyncIfRegistered(ctx, s2, AsWritten).state);
    }
  }

  /** Where no exception escapes, the two builds handle an activation code alike. */
  lemma SameActivation(ctx: Context, s: State, code: string)
    requires Reliable(ctx, AsWritten)
    ensures ProcessActivationCode(ctx, s, AsWritten, code) == ProcessActivationCode(ctx, s, Corrected, code)
  {
    var r := StatusReply(ctx);
    assert !Escapes(AsWritten, r);
    if !Raises(r) && Json.Truthy(r.json) && Json.IsSet(r.json, "data") {
      assert !Escapes(AsWritten, ctx.remote(Reactivate(Json.At(Json.At(r.json, "data"), "id"))));
    }
  }

  /**
   * The corrections change nothing but the two defects: a request that is
   * not a blank-code post, to an authority that always answers, is handled
   * the same by both builds.
   */
  lemma CorrectionOnlyAffectsDefects(ctx: Context, s: State)
    requires !(CodeField in ctx.req.post && SubmittedCode(ctx.req).None?)
    requires forall c :: !ctx.remote(c).Unreachable?
    ensures Construct(ctx, s, AsWritten) == Construct(ctx, s, Corrected)
  {
    assert Reliable(ctx, AsWritten);
    assert GateSkips(AsWritten, ctx.req) == GateSkips(Corrected, ctx.req);
    assert !Escapes(AsWritten, StatusReply(ctx));
    SameRegistration(ctx, s.(fs := s.fs[FlagFile(ctx) := ctx.env.now]));
    var a := InitializeTracking(ctx, s, AsWritten);
    assert a == InitializeTracking(ctx, s, Corrected);
    if SubmittedCode(ctx.req).Some? {
      SameActivation(ctx, a.state, SubmittedCode(ctx.req).value);
    }
  }
}
