/**
 * The global `handle_activation_code()` helper: it acts only on a POST whose
 * `activation_code` does not trim to an empty code, and then hands the code
 * to the service's `validateActivationCode`; otherwise it returns `false`.
 * `Pass` stands for `false` here; the only other answers are the redirect
 * `validateActivationCode` makes before it exits, and — as written — the
 * `ConnectException` its `catch (RequestException $e)` lets through.
 */
module Helpers {
  import Php
  import Json
  import opened Http
  import opened TrackingSpec
  import TrackingProps

  /** `handle_activation_code()` against the service whose state is `s`. */
  function HandleActivationCode(ctx: Context, s: State, b: Build): Step {
    match SubmittedCode(ctx.req)
    case None => Step(s, Pass)
    case Some(code) => ValidateActivationCode(ctx, s, b, code)
  }

  /**
   * It returns `false` without touching the service when the request is not
   * a POST, has no `activation_code` field, or carries a code that trims to
   * "" or "0".
   */
  lemma FalseWithoutSubmission(ctx: Context, s: State, b: Build)
    ensures !IsPost(ctx.req) ==> HandleActivationCode(ctx, s, b) == Step(s, Pass)
    ensures CodeField !in ctx.req.post ==> HandleActivationCode(ctx, s, b) == Step(s, Pass)
    ensures CodeField in ctx.req.post && Php.IsEmpty(Php.Trim(ctx.req.post[CodeField])) ==>
              HandleActivationCode(ctx, s, b) == Step(s, Pass)
  {
  }

  /** Otherwise it returns what `validateActivationCode` does with the trimmed code. */
  lemma Delegates(ctx: Context, s: State, b: Build)
    requires IsPost(ctx.req) && CodeField in ctx.req.post
    requires !Php.IsEmpty(Php.Trim(ctx.req.post[CodeField]))
    ensures HandleActivationCode(ctx, s, b) == ValidateActivationCode(ctx, s, b, Php.Trim(ctx.req.post[CodeField]))
  {
  }

  /**
   * It never returns `true`: the answer is `false` or the redirect to the
   * full request URI (or, as written, an uncaught exception), and the
   * redirect needs a known project and an authority that reports the code's
   * project active.
   */
  lemma NeverTrue(ctx: Context, s: State, b: Build)
    ensures var step := HandleActivationCode(ctx, s, b);
      (step.outcome == Pass || step.outcome == Redirect(ctx.req.uri) || (b == AsWritten && step.outcome == Crash))
      && step.state.projectId == s.projectId && step.state.activationCode == s.activationCode
      && (!Json.Truthy(s.projectId) ==> step == Step(s, Pass))
  {
    match SubmittedCode(ctx.req)
    case None =>
    case Some(code) =>
      TrackingProps.ValidationOutcome(ctx, s, b, code);
  }
}
