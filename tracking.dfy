/**
 * `TrackingService` as the object it is: two fields that its private steps
 * assign, the files it writes under the project root, the remote calls it
 * sends, and the process-wide `autoStart` guard. Each method carries out
 * the source's statements in order and is proved to follow the step
 * function of `TrackingSpec` of the same name; the properties are proved
 * about those functions in `TrackingProps`.
 */
module Tracking {
  import opened Options
  import Php
  import Json
  import opened Http
  import opened Identity
  import Spec = TrackingSpec

  /** What the service acts on outside itself: the files, and the remote authority with the calls sent to it. */
  class World {
    var fs: Files
    var calls: seq<Call>
    const remote: Remote

    constructor(fs: Files, remote: Remote)
      ensures this.fs == fs && calls == [] && this.remote == remote
    {
      this.fs := fs;
      calls := [];
      this.remote := remote;
    }

    /** Send one call and get the authority's reply. */
    method Send(c: Call) returns (r: Reply)
      modifies this
      ensures calls == old(calls) + [c] && fs == old(fs)
      ensures r == remote(c)
    {
      calls := calls + [c];
      r := remote(c);
    }

    /** `file_put_contents($path, $contents)`. */
    method Write(path: string, contents: string)
      modifies this
      ensures fs == old(fs)[path := contents] && calls == old(calls)
    {
      fs := fs[path := contents];
    }
  }

  /** A public method's return as `TrackingSpec` states it: the value, or the exception that escaped it. */
  function Returned(st: Spec.State, result: Json.Value, thrown: bool): Spec.Answered {
    if thrown then Spec.Threw(st) else Spec.Answered(st, result)
  }

  class TrackingService {
    const env: Env
    const req: Request
    const world: World
    /** Whether the `catch` clauses are the source's or the corrected ones, and which gate runs. */
    const build: Spec.Build
    var projectId: Json.Value
    var activationCode: Json.Value
    /**
     * How the constructor left the request (`exit` after a page or a
     * redirect, an uncaught exception, or on to the application).
     */
    var outcome: Outcome

    function Ctx(): Spec.Context {
      Spec.Context(env, req, world.remote)
    }

    /** The service's state as the step functions see it. */
    function Snapshot(): Spec.State
      reads this, world
    {
      Spec.State(projectId, activationCode, world.fs, world.calls)
    }

    /**
     * `new TrackingService()`: initialise, handle an activation code, run
     * the gate; the first step that ends the request stops the rest.
     */
    constructor(env: Env, req: Request, world: World, build: Spec.Build)
      modifies world
      ensures this.env == env && this.req == req && this.world == world && this.build == build
      ensures var st := Spec.Construct(Spec.Context(env, req, world.remote),
                                       Spec.Fresh(old(world.fs), old(world.calls)), build);
        Snapshot() == st.state && outcome == st.outcome
    {
      this.env := env;
      this.req := req;
      this.world := world;
      this.build := build;
      projectId := Json.Null;
      activationCode := Json.Null;
      outcome := Pass;
      new;
      var o := InitializeTracking();
      if o.Pass? {
        o := HandleActivationCode();
      }
      if o.Pass? {
        o := ValidateProjectStatus();
      }
      outcome := o;
    }

    /** `initializeTracking`. */
    method InitializeTracking() returns (o: Outcome)
      modifies this, world
      ensures Spec.Step(Snapshot(), o) == Spec.InitializeTracking(Ctx(), old(Snapshot()), build)
    {
      var flag := Spec.FlagFile(Ctx());
      if flag in world.fs {
        o := ValidateProjectStatus();
        return;
      }
      world.Write(flag, env.now);
      o := Register();
    }

    /** The `try` block of `initializeTracking`, and its `catch (RequestException $e)`. */
    method Register() returns (o: Outcome)
      modifies this, world
      ensures Spec.Step(Snapshot(), o) == Spec.Register(Ctx(), old(Snapshot()), build)
    {
      var id := GetOrCreateUniqueProjectId();
      var r := world.Send(StoreProject(id, Domain(req)));
      if Spec.Escapes(build, r) {
        return Crash;
      }
      if Raises(r) {
        o := Pass;
        if Spec.IsDuplicateConflict(r) {
          o := HandleExistingProject();
        }
        return;
      }
      projectId := Json.At(r.json, "project_id");
      activationCode := Json.At(r.json, "activation_code");
      o := SyncIfRegistered();
      if o.Pass? {
        o := StartHeartbeat();
      }
    }

    /** `getOrCreateUniqueProjectId`: reuse the stored identifier, or generate and write one. */
    method GetOrCreateUniqueProjectId() returns (id: string)
      modifies world
      ensures Resolved(id, world.fs) == Identity.GetOrCreateUniqueProjectId(env, old(world.fs))
      ensures world.calls == old(world.calls)
    {
      var file := IdFile(env);
      if file in world.fs {
        var stored := Php.Trim(world.fs[file]);
        if !Php.IsEmpty(stored) {
          return stored;
        }
      }
      id := GenerateUniqueProjectId(env);
      world.Write(file, id);
    }

    /** `if ($this->projectId && $this->activationCode) $this->updateDatabaseFromEnv($this->projectId)`. */
    method SyncIfRegistered() returns (o: Outcome)
      modifies world
      ensures Spec.Step(Snapshot(), o) == Spec.SyncIfRegistered(Ctx(), old(Snapshot()), build)
    {
      o := Pass;
      if Json.Truthy(projectId) && Json.Truthy(activationCode) {
        var _, thrown := InvokeTargeted(SyncFromEnv, projectId);
        if thrown {
          o := Crash;
        }
      }
    }

    /** `handleExistingProject`. */
    method HandleExistingProject() returns (o: Outcome)
      modifies this, world
      ensures Spec.Step(Snapshot(), o) == Spec.HandleExistingProject(Ctx(), old(Snapshot()), build)
    {
      var r := world.Send(InfoByDomain(Domain(req)));
      if Spec.Escapes(build, r) {
        return Crash;
      }
      o := Pass;
      if Raises(r) {
        return;
      }
      if Json.Truthy(r.json) && Json.IsSet(r.json, "data") {
        var record := Json.At(r.json, "data");
        projectId := Json.At(record, "id");
        activationCode := Json.At(record, "activation_code");
        o := SyncIfRegistered();
      }
    }

    /** `startHeartbeat`. */
    method StartHeartbeat() returns (o: Outcome)
      modifies world
      ensures Spec.Step(Snapshot(), o) == Spec.StartHeartbeat(Ctx(), old(Snapshot()), build)
    {
      o := Pass;
      if !Json.Truthy(projectId) {
        return;
      }
      var r := world.Send(Heartbeat(projectId, activationCode));
      if Spec.Escapes(build, r) {
        o := Crash;
      }
    }

    /** `validateProjectStatus`, with this build's gate. */
    method ValidateProjectStatus() returns (o: Outcome)
      modifies world
      ensures Spec.Step(Snapshot(), o) == Spec.ValidateProjectStatus(Ctx(), old(Snapshot()), build)
    {
      var r := world.Send(InfoByDomain(Domain(req)));
      if Spec.Escapes(build, r) {
        return Crash;
      }
      o := Pass;
      if Spec.Suspended(r) && !Spec.GateSkips(build, req) {
        o := SuspensionPage(Json.At(r.json, "data"));
      }
    }

    /** `handleActivationCode`. */
    method HandleActivationCode() returns (o: Outcome)
      modifies world
      ensures Spec.Step(Snapshot(), o) == Spec.HandleActivationCode(Ctx(), old(Snapshot()), build)
    {
      o := Pass;
      match SubmittedCode(req)
      case None =>
      case Some(code) =>
        o := ProcessActivationCode(code);
    }

    /** `processActivationCode`. */
    method ProcessActivationCode(code: string) returns (o: Outcome)
      modifies world
      ensures Spec.Step(Snapshot(), o) == Spec.ProcessActivationCode(Ctx(), old(Snapshot()), build, code)
    {
      var r := world.Send(InfoByDomain(Domain(req)));
      if Spec.Escapes(build, r) {
        return Crash;
      }
      if Raises(r) {
        return Spec.Fail(Ctx(), Spec.ConnectionFailed);
      }
      if !(Json.Truthy(r.json) && Json.IsSet(r.json, "data")) {
        return Spec.Fail(Ctx(), Spec.ProjectNotFound);
      }
      var project := Json.At(r.json, "data");
      if Json.At(project, "activation_code") != Json.Str(code) {
        return Spec.Fail(Ctx(), Spec.InvalidCode);
      }
      var r2 := world.Send(Reactivate(Json.At(project, "id")));
      if Spec.Escapes(build, r2) {
        o := Crash;
      } else if Raises(r2) {
        o := Spec.Fail(Ctx(), Spec.ConnectionFailed);
      } else if r2.status == 200 {
        o := SuccessPage(RedirectBase(req.uri));
      } else {
        o := Spec.Fail(Ctx(), Spec.ReactivationFailed);
      }
    }

    // -------------------------------------------------- public methods
    // Each returns its value, or `thrown` when an exception escaped it.

    /** `updateLastSeen`. */
    method UpdateLastSeen() returns (thrown: bool)
      modifies world
      ensures Returned(Snapshot(), Json.Null, thrown) == Spec.UpdateLastSeen(Ctx(), old(Snapshot()), build)
    {
      thrown := false;
      if !Json.Truthy(projectId) {
        return;
      }
      var r := world.Send(LastSeen(projectId, activationCode));
      thrown := Spec.Escapes(build, r);
    }

    /** `regenerateActivationCode`. */
    method RegenerateActivationCode() returns (result: Json.Value, thrown: bool)
      modifies this, world
      ensures Returned(Snapshot(), result, thrown) == Spec.RegenerateActivationCode(Ctx(), old(Snapshot()), build)
    {
      result, thrown := Json.Null, false;
      if !Json.Truthy(projectId) {
        return;
      }
      var r := world.Send(Regenerate(projectId));
      if Spec.Escapes(build, r) {
        thrown := true;
        return;
      }
      if Raises(r) {
        return;
      }
      activationCode := Json.At(r.json, "activation_code");
      result := activationCode;
    }

    /** `getCommandStatus($commandId, $projectId = null)`. */
    method GetCommandStatus(commandId: Json.Value, arg: Json.Value) returns (result: Json.Value, thrown: bool)
      modifies world
      ensures Returned(Snapshot(), result, thrown) == Spec.GetCommandStatus(Ctx(), old(Snapshot()), build, commandId, arg)
    {
      result, thrown := Json.Null, false;
      var target := if arg != Json.Null then arg else projectId;
      if !Json.Truthy(target) || !Json.Truthy(commandId) {
        return;
      }
      var r := world.Send(CommandStatus(target, commandId));
      thrown := Spec.Escapes(build, r);
      result := if Raises(r) then Json.Null else r.json;
    }

    /** The one-shot operations (`getDatabase`, `startProject`, `deleteProject`, …). */
    method Invoke(op: Op) returns (result: Json.Value, thrown: bool)
      modifies world
      ensures Returned(Snapshot(), result, thrown) == Spec.Invoke(Ctx(), old(Snapshot()), build, op)
    {
      result, thrown := Spec.Failure(op), false;
      if !Json.Truthy(projectId) {
        return;
      }
      var r := world.Send(OneShot(op, projectId));
      thrown := Spec.Escapes(build, r);
      if !Raises(r) {
        result := if AnswersBool(op) then Json.Bool(true) else r.json;
      }
    }

    /** `updateDatabaseFromEnv`, `backupSourceCode`, `deleteDatabaseData` (`$projectId = null`). */
    method InvokeTargeted(op: TargetOp, arg: Json.Value) returns (result: Json.Value, thrown: bool)
      modifies world
      ensures Returned(Snapshot(), result, thrown) == Spec.InvokeTargeted(Ctx(), old(Snapshot()), build, op, arg)
    {
      result, thrown := Json.Null, false;
      var target := if arg != Json.Null then arg else projectId;
      if !Json.Truthy(target) {
        return;
      }
      var r := world.Send(Targeted(op, target));
      thrown := Spec.Escapes(build, r);
      result := if Raises(r) then Json.Null else r.json;
    }

    /** `validateActivationCode($inputCode)`: `Pass` stands for its `return false`. */
    method ValidateActivationCode(code: string) returns (o: Outcome)
      modifies world
      ensures Spec.Step(Snapshot(), o) == Spec.ValidateActivationCode(Ctx(), old(Snapshot()), build, code)
    {
      if !Json.Truthy(projectId) {
        return Pass;
      }
      var r := world.Send(CheckStatus(Domain(req), code));
      if Spec.Escapes(build, r) {
        return Crash;
      }
      o := Pass;
      if !Raises(r) && Json.At(r.json, "status") == Json.Str("success")
         && Json.Truthy(Json.At(Json.At(r.json, "data"), "is_active")) {
        o := Redirect(req.uri);
      }
    }
  }

  /** The PHP process: `autoStart`'s `static $started`. */
  class Process {
    var started: bool

    constructor()
      ensures !started
    {
      started := false;
    }

    /**
     * `TrackingService::autoStart()`: the first call constructs the service
     * (and so registers, handles activation and runs the gate); every later
     * call in the same process does nothing. Its `catch (Exception $e)`
     * names `Vendor\TrackingPackage\Exception`, a class that does not
     * exist, so as written it catches nothing and an escaping exception
     * still ends the request; the corrected build throws nothing for it to
     * catch.
     */
    method AutoStart(env: Env, req: Request, world: World, build: Spec.Build) returns (o: Outcome)
      modifies this, world
      ensures started
      ensures old(started) ==> o == Pass && world.fs == old(world.fs) && world.calls == old(world.calls)
      ensures !old(started) ==>
        var st := Spec.Construct(Spec.Context(env, req, world.remote),
                                 Spec.Fresh(old(world.fs), old(world.calls)), build);
        o == st.outcome && world.fs == st.state.fs && world.calls == st.state.calls
    {
      if started {
        return Pass;
      }
      started := true;
      var service := new TrackingService(env, req, world, build);
      o := service.outcome;
    }
  }
}
