/**
 * The stand-alone agent included at the top of `public/index.php`: handle an
 * activation form first, then — unless the request was a POST carrying an
 * `activation_code` field — check the project's status. It talks to the
 * authority through curl, which never raises: a failed connection is HTTP
 * code 0. Each function answers the calls it made and how the request is
 * left.
 */
module SimpleTracking {
  import opened Options
  import Php
  import Json
  import opened Http

  /** The calls made, and how the request is left. */
  datatype Exchange = Exchange(calls: seq<Call>, outcome: Outcome)

  const ConnectionFailedPrefix := "فشل في الاتصال بالخادم المركزي. HTTP Code: "
  const ProjectNotFound := "لم يتم العثور على المشروع"
  const InvalidCode := "كود التفعيل غير صحيح"
  const ReactivationFailedPrefix := "فشل في إعادة تفعيل المشروع. HTTP Code: "
  const Reactivated := "تم إعادة تفعيل المشروع بنجاح!"
  const MissingCode := "يرجى إدخال كود التفعيل"

  /** The project record of a 200 answer that decodes to an object with a `data` entry. */
  predicate HasRecord(r: Reply) {
    CurlCode(r) == 200 && Json.Truthy(r.json) && Json.IsSet(r.json, "data")
  }

  /** `checkProjectStatus`: block only on a 200 whose record has a falsy or missing `is_active`. */
  function CheckProjectStatus(req: Request, remote: Remote): Exchange {
    var c := InfoByDomain(Domain(req));
    var r := remote(c);
    if HasRecord(r) && !Json.Truthy(Json.At(Json.At(r.json, "data"), "is_active")) then
      Exchange([c], SuspensionPage(Json.At(r.json, "data")))
    else Exchange([c], Pass)
  }

  /** A redirect back to the request's path with one error message. */
  function Fail(req: Request, message: string): Outcome {
    RedirectNotice(req.uri, Error(message))
  }

  /** Whether the dispatch treats the request as an activation request. */
  predicate IsActivationPost(req: Request) {
    IsPost(req) && CodeField in req.post
  }

  /**
   * `handleActivationCode`: for a POST with an `activation_code` field,
   * redirect in every case — a blank code, a failed fetch (with its HTTP
   * code), a missing record, a mismatching code, or the reactivation's
   * outcome; any other request passes untouched.
   */
  function HandleActivationCode(req: Request, remote: Remote): Exchange {
    if !IsActivationPost(req) then Exchange([], Pass)
    else
      var code := Php.Trim(req.post[CodeField]);
      if Php.IsEmpty(code) then Exchange([], Fail(req, MissingCode))
      else
        var c := InfoByDomain(Domain(req));
        var r := remote(c);
        if CurlCode(r) != 200 then
          Exchange([c], Fail(req, ConnectionFailedPrefix + Php.IntToDecimal(CurlCode(r))))
        else if !HasRecord(r) then Exchange([c], Fail(req, ProjectNotFound))
        else
          var project := Json.At(r.json, "data");
          if Json.At(project, "activation_code") != Json.Str(code) then Exchange([c], Fail(req, InvalidCode))
          else
            var c2 := Reactivate(Json.At(project, "id"));
            var code2 := CurlCode(remote(c2));
            if code2 == 200 then Exchange([c, c2], RedirectNotice(req.uri, Success(Reactivated)))
            else Exchange([c, c2], Fail(req, ReactivationFailedPrefix + Php.IntToDecimal(code2)))
  }

  /** The file's top level: activation first, then the status check unless this was an activation POST. */
  function Run(req: Request, remote: Remote): Exchange {
    var a := HandleActivationCode(req, remote);
    if !a.outcome.Pass? then a
    else if !IsActivationPost(req) then
      var b := CheckProjectStatus(req, remote);
      Exchange(a.calls + b.calls, b.outcome)
    else a
  }

  // ------------------------------------------------------------ properties

  /**
   * The status check blocks exactly when the HTTP code is 200, the body has
   * a record, and its `is_active` is falsy or missing; it then shows that
   * record's suspension page (a 503 that is not cached).
   */
  lemma CheckBlocksExactly(req: Request, remote: Remote)
    ensures var x := CheckProjectStatus(req, remote);
      var r := remote(InfoByDomain(Domain(req)));
      x.calls == [InfoByDomain(Domain(req))]
      && (x.outcome.Block? <==> HasRecord(r) && !Json.Truthy(Json.At(Json.At(r.json, "data"), "is_active")))
      && (x.outcome.Block? ==> x.outcome == SuspensionPage(Json.At(r.json, "data"))
                               && Respond(x.outcome).value.status == 503)
      && (!x.outcome.Block? ==> x.outcome == Pass)
  {
  }

  /** A failed connection (code 0) and any other code than 200 let the request through. */
  lemma CheckPassesOnFailure(req: Request, remote: Remote)
    requires CurlCode(remote(InfoByDomain(Domain(req)))) != 200
    ensures CheckProjectStatus(req, remote).outcome == Pass
  {
  }

  /** Every activation POST ends in a redirect, so it never reaches the application. */
  lemma ActivationPostAlwaysRedirects(req: Request, remote: Remote)
    requires IsActivationPost(req)
    ensures HandleActivationCode(req, remote).outcome.RedirectNotice?
    ensures Run(req, remote) == HandleActivationCode(req, remote)
  {
    var code := Php.Trim(req.post[CodeField]);
    if Php.IsEmpty(code) {
      BlankCodeAsksForCode(req, remote);
    } else if !HasRecord(remote(InfoByDomain(Domain(req)))) {
      ActivationFetchFails(req, remote);
    } else {
      ActivationDecision(req, remote);
    }
  }

  /** A blank code (one that trims to "" or "0") redirects asking for the code and makes no call. */
  lemma BlankCodeAsksForCode(req: Request, remote: Remote)
    requires IsActivationPost(req) && Php.IsEmpty(Php.Trim(req.post[CodeField]))
    ensures HandleActivationCode(req, remote) == Exchange([], Fail(req, MissingCode))
  {
  }

  /**
   * The fetch during activation: any code but 200 redirects with an error
   * naming that code, and a 200 without a record with "project not found".
   */
  lemma ActivationFetchFails(req: Request, remote: Remote)
    requires IsActivationPost(req) && !Php.IsEmpty(Php.Trim(req.post[CodeField]))
    ensures var c := InfoByDomain(Domain(req));
      var r := remote(c);
      (CurlCode(r) != 200 ==>
         HandleActivationCode(req, remote) ==
           Exchange([c], Fail(req, ConnectionFailedPrefix + Php.IntToDecimal(CurlCode(r)))))
      && (CurlCode(r) == 200 && !HasRecord(r) ==>
            HandleActivationCode(req, remote) == Exchange([c], Fail(req, ProjectNotFound)))
  {
  }

  /**
   * With a record: a code that is not strictly equal to the record's
   * redirects with "invalid code" and no reactivation call; a matching code
   * posts the reactivation, and a 200 redirects with the success message,
   * anything else with an error naming the code.
   */
  lemma ActivationDecision(req: Request, remote: Remote)
    requires IsActivationPost(req) && !Php.IsEmpty(Php.Trim(req.post[CodeField]))
    requires HasRecord(remote(InfoByDomain(Domain(req))))
    ensures var code := Php.Trim(req.post[CodeField]);
      var c := InfoByDomain(Domain(req));
      var project := Json.At(remote(c).json, "data");
      var c2 := Reactivate(Json.At(project, "id"));
      var x := HandleActivationCode(req, remote);
      (Json.At(project, "activation_code") != Json.Str(code) ==> x == Exchange([c], Fail(req, InvalidCode)))
      && (Json.At(project, "activation_code") == Json.Str(code) ==>
            x.calls == [c, c2]
            && x.outcome == (if CurlCode(remote(c2)) == 200 then RedirectNotice(req.uri, Success(Reactivated))
                             else Fail(req, ReactivationFailedPrefix + Php.IntToDecimal(CurlCode(remote(c2))))))
  {
  }

  /** A reactivation call is made only for a code strictly equal to the record's. */
  lemma ReactivateOnlyOnMatch(req: Request, remote: Remote)
    ensures var x := HandleActivationCode(req, remote);
      var r := remote(InfoByDomain(Domain(req)));
      |x.calls| == 2 <==>
        IsActivationPost(req) && !Php.IsEmpty(Php.Trim(req.post[CodeField])) && HasRecord(r)
        && Json.At(Json.At(r.json, "data"), "activation_code") == Json.Str(Php.Trim(req.post[CodeField]))
  {
    if !IsActivationPost(req) {
    } else if Php.IsEmpty(Php.Trim(req.post[CodeField])) {
      BlankCodeAsksForCode(req, remote);
    } else if !HasRecord(remote(InfoByDomain(Domain(req)))) {
      ActivationFetchFails(req, remote);
    } else {
      ActivationDecision(req, remote);
    }
  }

  /** Any request that is not an activation POST gets exactly the status check. */
  lemma OtherRequestsAreChecked(req: Request, remote: Remote)
    requires !IsActivationPost(req)
    ensures Run(req, remote) == CheckProjectStatus(req, remote)
  {
    assert HandleActivationCode(req, remote) == Exchange([], Pass);
    assert [] + CheckProjectStatus(req, remote).calls == CheckProjectStatus(req, remote).calls;
  }

  /**
   * A project the authority reports as suspended (200, a record, falsy
   * `is_active`) is never served: the request either gets the suspension
   * page or is redirected by the activation handler.
   */
  lemma SuspendedNeverServed(req: Request, remote: Remote)
    requires HasRecord(remote(InfoByDomain(Domain(req))))
    requires !Json.Truthy(Json.At(Json.At(remote(InfoByDomain(Domain(req))).json, "data"), "is_active"))
    ensures !Run(req, remote).outcome.Pass?
  {
    if IsActivationPost(req) {
      ActivationPostAlwaysRedirects(req, remote);
    } else {
      OtherRequestsAreChecked(req, remote);
      CheckBlocksExactly(req, remote);
    }
  }

  /**
   * Every redirect the activation handler makes goes back to the request's
   * own URI (whose path `RedirectTo` keeps, with one parameter; see
   * `Http.RedirectHygiene`), carrying an error or the success message.
   */
  lemma RedirectsGoBack(req: Request, remote: Remote)
    requires HandleActivationCode(req, remote).outcome.RedirectNotice?
    ensures var o := HandleActivationCode(req, remote).outcome;
      o.uri == req.uri && (o.notice.Error? || o.notice == Success(Reactivated))
  {
    var code := Php.Trim(req.post[CodeField]);
    if Php.IsEmpty(code) {
      BlankCodeAsksForCode(req, remote);
    } else if !HasRecord(remote(InfoByDomain(Domain(req)))) {
      ActivationFetchFails(req, remote);
    } else {
      ActivationDecision(req, remote);
    }
  }
}
