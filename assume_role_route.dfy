/** The `POST /api/aws/assume-role` handler (app/api/aws/assume-role/route.ts):
    checks the JSON body, trims and validates the external ID, assumes the
    role, and maps each error class to an HTTP status. The STS outcome and
    the clock are parameters, as in the role-assumption module. */
module AssumeRoleRoute {
  import opened Wrappers
  import opened JsStrings
  import opened JsErrors
  import opened AwsTypes
  import Validation
  import Sts

  const RoleArnRequired := "Role ARN is required"
  const ExternalIdRequired := "External ID is required"
  const InvalidExternalIdFormat :=
    "Invalid external ID format. Must be alphanumeric with hyphens/underscores, 2-1224 characters."
  const SuccessMessage := "Successfully assumed role"

  /** A field of the parsed JSON body: missing, a string, or any other value
      (a number, `null`, an object, ...). */
  datatype JsonField = Absent | Text(text: string) | OtherValue

  /** The request body: not valid JSON (with the parser's error message), or
      parsed. */
  datatype RouteRequest = Unparsable(parseError: string) | Body(roleArn: JsonField, externalId: JsonField)

  datatype ResponseBody = CredentialsBody(credentials: AwsCredentials, message: string) | ErrorBody(error: string)

  datatype RouteResponse = RouteResponse(status: int, body: ResponseBody)

  /** `!x || typeof x !== "string"` fails exactly for a non-empty string. */
  predicate IsPresentText(f: JsonField) {
    f.Text? && f.text != ""
  }

  /** The status each error class of `assumeRole` is reported with. */
  function StatusOf(e: Sts.AssumeRoleError): (s: int)
    ensures s == 400 <==> e.InvalidRoleError?
    ensures s == 403 <==> e.PermissionDeniedError?
    ensures s == 500 <==> e.GenericError?
  {
    match e
    case InvalidRoleError(_) => 400
    case PermissionDeniedError(_) => 403
    case GenericError(_) => 500
  }

  /** The answer for the outcome of `assumeRole`: the credentials with a
      success message, or the error's message with its class's status. */
  function Respond(a: Result<AwsCredentials, Sts.AssumeRoleError>): (r: RouteResponse)
    ensures r.status == 200 <==> a.Success?
    ensures a.Success? ==> r.body == CredentialsBody(a.value, SuccessMessage)
    ensures a.Failure? ==> r == RouteResponse(StatusOf(a.error), ErrorBody(a.error.message))
  {
    match a
    case Success(credentials) => RouteResponse(200, CredentialsBody(credentials, SuccessMessage))
    case Failure(e) => RouteResponse(StatusOf(e), ErrorBody(e.message))
  }

  /** The handler's answer. Guards are checked in order: role ARN, external
      ID, external-ID format; only then is the role assumed, with the trimmed
      ARN and the trimmed external ID. */
  function Post(req: RouteRequest, outcome: Settled<Sts.AssumeRoleResponse>, nowMs: int): (r: RouteResponse)
    ensures r.status in {200, 400, 403, 500}
    ensures r.status == 200 <==> r.body.CredentialsBody?
    ensures req.Unparsable? ==> r == RouteResponse(500, ErrorBody(req.parseError))
    ensures req.Body? && !IsPresentText(req.roleArn) ==> r == RouteResponse(400, ErrorBody(RoleArnRequired))
    ensures req.Body? && IsPresentText(req.roleArn) && !IsPresentText(req.externalId) ==>
      r == RouteResponse(400, ErrorBody(ExternalIdRequired))
    ensures (req.Body? && IsPresentText(req.roleArn) && IsPresentText(req.externalId)
      && !Validation.ValidateExternalId(req.externalId.text)) ==>
      r == RouteResponse(400, ErrorBody(InvalidExternalIdFormat))
    ensures r.status == 200 ==>
      && req.Body? && IsPresentText(req.roleArn) && IsPresentText(req.externalId)
      && Validation.ValidateExternalId(req.externalId.text)
      && Validation.ValidateRoleArnFormat(Trim(req.roleArn.text))
      && r.body.message == SuccessMessage
  {
    match req
    case Unparsable(m) => RouteResponse(500, ErrorBody(m))
    case Body(roleArn, externalId) =>
      if !IsPresentText(roleArn) then
        RouteResponse(400, ErrorBody(RoleArnRequired))
      else if !IsPresentText(externalId) then
        RouteResponse(400, ErrorBody(ExternalIdRequired))
      else
        var sanitized := Validation.SanitizeExternalId(externalId.text);
        Validation.ValidateAfterSanitize(externalId.text);
        if !Validation.ValidateExternalId(sanitized) then
          RouteResponse(400, ErrorBody(InvalidExternalIdFormat))
        else
          Respond(Sts.AssumeRole(Sts.AssumeRoleParams(Trim(roleArn.text), sanitized, None, None), outcome, nowMs))
  }

  /** Once the guards pass, the response reports `assumeRole` on the trimmed
      inputs. */
  lemma PostReportsAssumeRole(arn: string, ext: string, outcome: Settled<Sts.AssumeRoleResponse>, nowMs: int)
    requires arn != "" && ext != "" && Validation.ValidateExternalId(ext)
    ensures Post(Body(Text(arn), Text(ext)), outcome, nowMs)
         == Respond(Sts.AssumeRole(Sts.AssumeRoleParams(Trim(arn), Trim(ext), None, None), outcome, nowMs))
  {
    Validation.ValidateAfterSanitize(ext);
  }

  /** A malformed external ID is refused before any role is assumed: the
      answer does not depend on what STS would have said, nor on the clock. */
  lemma InvalidExternalIdSkipsAssumeRole(req: RouteRequest, o1: Settled<Sts.AssumeRoleResponse>,
                                         o2: Settled<Sts.AssumeRoleResponse>, t1: int, t2: int)
    requires req.Body? && IsPresentText(req.roleArn) && IsPresentText(req.externalId)
    requires !Validation.ValidateExternalId(req.externalId.text)
    ensures Post(req, o1, t1) == Post(req, o2, t2)
  {
  }

  /** The answer to two present inputs depends only on their trimmed forms. */
  lemma PostSeesTrimmedInputs(a1: string, e1: string, a2: string, e2: string,
                              outcome: Settled<Sts.AssumeRoleResponse>, nowMs: int)
    requires a1 != "" && e1 != "" && a2 != "" && e2 != ""
    requires Trim(a1) == Trim(a2) && Trim(e1) == Trim(e2)
    ensures Post(Body(Text(a1), Text(e1)), outcome, nowMs) == Post(Body(Text(a2), Text(e2)), outcome, nowMs)
  {
    Validation.ValidateAfterSanitize(e1);
    Validation.ValidateAfterSanitize(e2);
  }

  /** Whitespace around either input changes nothing. */
  lemma PaddingIgnored(w1: string, arn: string, w2: string, w3: string, ext: string, w4: string,
                       outcome: Settled<Sts.AssumeRoleResponse>, nowMs: int)
    requires AllWhitespace(w1) && AllWhitespace(w2) && AllWhitespace(w3) && AllWhitespace(w4)
    requires arn != "" && ext != ""
    ensures Post(Body(Text(w1 + arn + w2), Text(w3 + ext + w4)), outcome, nowMs)
         == Post(Body(Text(arn), Text(ext)), outcome, nowMs)
  {
    var paddedArn, paddedExt := w1 + arn + w2, w3 + ext + w4;
    assert |paddedArn| > 0 && |paddedExt| > 0;
    TrimIgnoresPadding(w1, arn, w2);
    TrimIgnoresPadding(w3, ext, w4);
    PostSeesTrimmedInputs(paddedArn, paddedExt, arn, ext, outcome, nowMs);
  }

  /** STS denying access (by error name or message) to a well-formed ARN is
      answered with 403 and the access-denied explanation. */
  lemma AccessDeniedResponse(arn: string, ext: string, outcome: Settled<Sts.AssumeRoleResponse>, nowMs: int)
    requires Validation.ValidateRoleArnFormat(arn)
    requires outcome.Rejected? && Sts.IsAccessDenied(outcome.reason)
    ensures Respond(Sts.AssumeRole(Sts.AssumeRoleParams(arn, ext, None, None), outcome, nowMs))
         == RouteResponse(403, ErrorBody(Sts.AccessDeniedMessage))
  {
    var a := Sts.AssumeRole(Sts.AssumeRoleParams(arn, ext, None, None), outcome, nowMs);
    assert a == Failure(Sts.TranslateError(arn, outcome.reason));
  }

  /** A well-formed role and external ID with STS denying access give 403. */
  lemma AccessDeniedIs403(arn: string, ext: string, outcome: Settled<Sts.AssumeRoleResponse>, nowMs: int)
    requires Validation.ValidateRoleArnFormat(arn) && Validation.ValidateExternalId(ext)
    requires outcome.Rejected? && Sts.IsAccessDenied(outcome.reason)
    ensures Post(Body(Text(arn), Text(ext)), outcome, nowMs) == RouteResponse(403, ErrorBody(Sts.AccessDeniedMessage))
  {
    assert |arn| >= 31 && |Trim(ext)| >= 2;
    PostReportsAssumeRole(arn, ext, outcome, nowMs);
    Validation.WellFormedArnIsTrimmed(arn);
    AccessDeniedResponse(Trim(arn), Trim(ext), outcome, nowMs);
  }
}
