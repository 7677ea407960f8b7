/** Role assumption through STS and the expiry window (lib/aws/sts.ts).
    The STS call is an input: the settled outcome of `stsClient.send`, and
    `Date.now()` is the parameter `nowMs`. */
module Sts {
  import opened Wrappers
  import opened JsStrings
  import opened JsErrors
  import opened AwsTypes
  import Policies

  const DefaultSessionName := "SpotSaveSession"
  const DefaultDurationSeconds := 1800
  const DefaultBufferMinutes := 5

  const AccessDeniedMessage :=
    "Access denied. Please verify the role ARN and external ID are correct, and that the trust policy allows this application to assume the role."
  const InvalidExternalIdMessage :=
    "Invalid external ID. Please verify the external ID matches the one configured in the role's trust policy."
  const NoCredentialsMessage := "No credentials returned from STS"
  const GenericPrefix := "Failed to assume role: "

  function InvalidArnMessage(roleArn: string): string {
    "Invalid role ARN format: " + roleArn + ". Expected format: arn:aws:iam::ACCOUNT_ID:role/ROLE_NAME"
  }

  function RoleNotFoundMessage(roleArn: string): string {
    "Role not found: " + roleArn + ". Please verify the role exists in your AWS account."
  }

  /** The arguments of `assumeRole`; `None` stands for an omitted optional. */
  datatype AssumeRoleParams = AssumeRoleParams(
    roleArn: string,
    externalId: string,
    sessionName: Option<string>,
    durationSeconds: Option<int>)

  /** The input of the `AssumeRoleCommand` sent to STS. */
  datatype StsRequest = StsRequest(
    roleArn: string,
    roleSessionName: string,
    externalId: string,
    durationSeconds: int)

  /** `response.Credentials` as STS returns it; `expirationMs` is
      `Expiration.getTime()`. Absent and empty strings are both `None`. */
  datatype ProviderCredentials = ProviderCredentials(
    accessKeyId: Option<string>,
    secretAccessKey: Option<string>,
    sessionToken: Option<string>,
    expirationMs: Option<int>)

  datatype AssumeRoleResponse = AssumeRoleResponse(credentials: Option<ProviderCredentials>)

  /** The three error classes `assumeRole` throws. */
  datatype AssumeRoleError =
    | InvalidRoleError(message: string)
    | PermissionDeniedError(message: string)
    | GenericError(message: string)

  /** The part of `assumeRole` before the STS call: the ARN pre-check and the
      defaults. A malformed ARN fails here, so no request is ever built. */
  function PrepareRequest(p: AssumeRoleParams): (r: Result<StsRequest, AssumeRoleError>)
    ensures r.Success? <==> Policies.ValidateRoleArn(p.roleArn)
    ensures r.Failure? ==> r.error == InvalidRoleError(InvalidArnMessage(p.roleArn))
    ensures r.Success? ==> && r.value.roleArn == p.roleArn && r.value.externalId == p.externalId
                           && r.value.roleSessionName == (if p.sessionName.Some? then p.sessionName.value else "SpotSaveSession")
                           && r.value.durationSeconds == (if p.durationSeconds.Some? then p.durationSeconds.value else 1800)
  {
    if !Policies.ValidateRoleArn(p.roleArn) then
      Failure(InvalidRoleError(InvalidArnMessage(p.roleArn)))
    else
      Success(StsRequest(p.roleArn, p.sessionName.GetOr(DefaultSessionName), p.externalId,
                         p.durationSeconds.GetOr(DefaultDurationSeconds)))
  }

  /** The credentials record built from a successful response. The expiration
      is the provider's instant rounded down to whole seconds, or, when the
      provider gives none, the current second plus the requested duration. */
  function ToCredentials(c: ProviderCredentials, durationSeconds: int, nowMs: int): (r: AwsCredentials)
    ensures c.expirationMs.Some? ==> r.expiration * 1000 <= c.expirationMs.value < r.expiration * 1000 + 1000
    ensures c.expirationMs.None? ==>
      (r.expiration - durationSeconds) * 1000 <= nowMs < (r.expiration - durationSeconds) * 1000 + 1000
    ensures r.accessKeyId == (if c.accessKeyId.Some? then c.accessKeyId.value else "")
    ensures r.secretAccessKey == (if c.secretAccessKey.Some? then c.secretAccessKey.value else "")
    ensures r.sessionToken == (if c.sessionToken.Some? then c.sessionToken.value else "")
  {
    AwsCredentials(
      c.accessKeyId.GetOr(""),
      c.secretAccessKey.GetOr(""),
      c.sessionToken.GetOr(""),
      match c.expirationMs
      case Some(ms) => ms / 1000
      case None => nowMs / 1000 + durationSeconds)
  }

  /** Whether a provider error counts as access denied: by its name or by its
      message. */
  predicate IsAccessDenied(e: Thrown) {
    e.ErrorObject? && (e.name == "AccessDenied" || Contains(e.message, "AccessDenied"))
  }

  /** The catch block of `assumeRole`: an ordered classification of what the
      STS call threw. Anything that is not an `Error`, or matches no rule,
      becomes a generic error carrying the original message. */
  function TranslateError(roleArn: string, e: Thrown): (r: AssumeRoleError)
    ensures IsAccessDenied(e) ==> r == PermissionDeniedError(AccessDeniedMessage)
    ensures !IsAccessDenied(e) && e.ErrorObject? && Contains(e.message, "InvalidUserID.NotFound") ==>
      r == InvalidRoleError(RoleNotFoundMessage(roleArn))
    ensures (!IsAccessDenied(e) && e.ErrorObject? && !Contains(e.message, "InvalidUserID.NotFound")
      && Contains(e.message, "ExternalId")) ==> r == PermissionDeniedError(InvalidExternalIdMessage)
    ensures (e.NonErrorValue? || (!IsAccessDenied(e) && !Contains(e.message, "InvalidUserID.NotFound")
      && !Contains(e.message, "ExternalId"))) ==> r == GenericError(GenericPrefix + MessageOf(e))
  {
    match e
    case ErrorObject(name, message) =>
      if name == "AccessDenied" || Contains(message, "AccessDenied") then
        PermissionDeniedError(AccessDeniedMessage)
      else if Contains(message, "InvalidUserID.NotFound") then
        InvalidRoleError(RoleNotFoundMessage(roleArn))
      else if Contains(message, "ExternalId") then
        PermissionDeniedError(InvalidExternalIdMessage)
      else
        GenericError(GenericPrefix + message)
    case NonErrorValue =>
      GenericError(GenericPrefix + "Unknown error")
  }

  /** The part of `assumeRole` after the STS call. A response without
      credentials is thrown inside the try block and so goes through the same
      translation as a provider error. */
  function CompleteRequest(req: StsRequest, outcome: Settled<AssumeRoleResponse>, nowMs: int)
    : (r: Result<AwsCredentials, AssumeRoleError>)
    ensures r.Success? <==> outcome.Fulfilled? && outcome.value.credentials.Some?
    ensures r.Success? ==> r.value == ToCredentials(outcome.value.credentials.value, req.durationSeconds, nowMs)
    ensures outcome.Fulfilled? && outcome.value.credentials.None? ==>
      r == Failure(GenericError(GenericPrefix + NoCredentialsMessage))
    ensures outcome.Rejected? ==> r == Failure(TranslateError(req.roleArn, outcome.reason))
  {
    match outcome
    case Fulfilled(response) =>
      if response.credentials.None? then
        NoCredentialsIsGeneric(req.roleArn);
        Failure(TranslateError(req.roleArn, PlainError(NoCredentialsMessage)))
      else
        Success(ToCredentials(response.credentials.value, req.durationSeconds, nowMs))
    case Rejected(e) =>
      Failure(TranslateError(req.roleArn, e))
  }

  /** `assumeRole`: credentials exactly when the ARN is well formed and STS
      answered with credentials; otherwise one of the three error classes. */
  function AssumeRole(p: AssumeRoleParams, outcome: Settled<AssumeRoleResponse>, nowMs: int): (r: Result<AwsCredentials, AssumeRoleError>)
    ensures !Policies.ValidateRoleArn(p.roleArn) ==> r == Failure(InvalidRoleError(InvalidArnMessage(p.roleArn)))
    ensures r.Success? <==> Policies.ValidateRoleArn(p.roleArn) && outcome.Fulfilled? && outcome.value.credentials.Some?
    ensures r.Success? ==> r.value == ToCredentials(outcome.value.credentials.value, p.durationSeconds.GetOr(1800), nowMs)
    ensures Policies.ValidateRoleArn(p.roleArn) && outcome.Rejected? ==> r == Failure(TranslateError(p.roleArn, outcome.reason))
  {
    match PrepareRequest(p)
    case Failure(e) => Failure(e)
    case Success(req) => CompleteRequest(req, outcome, nowMs)
  }

  /** A malformed ARN is refused before STS is called: the result does not
      depend on what STS would have answered, nor on the clock. */
  lemma InvalidArnSkipsProvider(p: AssumeRoleParams, o1: Settled<AssumeRoleResponse>, o2: Settled<AssumeRoleResponse>, t1: int, t2: int)
    requires !Policies.ValidateRoleArn(p.roleArn)
    ensures AssumeRole(p, o1, t1) == AssumeRole(p, o2, t2)
    ensures AssumeRole(p, o1, t1).Failure? && AssumeRole(p, o1, t1).error.InvalidRoleError?
  {
  }

  /** The error thrown for a response without credentials matches none of
      the rules. */
  lemma NoCredentialsIsGeneric(roleArn: string)
    ensures TranslateError(roleArn, PlainError(NoCredentialsMessage)) == GenericError(GenericPrefix + NoCredentialsMessage)
  {
    var m := NoCredentialsMessage;
    assert forall i :: 0 <= i < |m| ==> m[i] != 'A' && m[i] != 'I' && m[i] != 'E';
    UnmatchedMessageIsGeneric(roleArn, m);
  }

  /** A response without credentials ends as the generic error
      "Failed to assume role: No credentials returned from STS". */
  lemma MissingCredentialsIsGenericError(p: AssumeRoleParams, nowMs: int)
    requires Policies.ValidateRoleArn(p.roleArn)
    ensures AssumeRole(p, Fulfilled(AssumeRoleResponse(None)), nowMs)
      == Failure(GenericError(GenericPrefix + NoCredentialsMessage))
  {
  }

  /** A plain error whose message lacks the letters that start the three
      markers is passed through as a generic error. */
  lemma UnmatchedMessageIsGeneric(roleArn: string, m: string)
    requires forall i :: 0 <= i < |m| ==> m[i] != 'A' && m[i] != 'I' && m[i] != 'E'
    ensures TranslateError(roleArn, PlainError(m)) == GenericError(GenericPrefix + m)
  {
    NoOccurrence(m, "AccessDenied");
    NoOccurrence(m, "InvalidUserID.NotFound");
    NoOccurrence(m, "ExternalId");
  }

  /** The rules are tried in order, so a message naming both a missing user
      and the external ID is reported as a missing role. */
  lemma TranslationOrderMatters(roleArn: string, name: string, message: string)
    requires name != "AccessDenied" && !Contains(message, "AccessDenied")
    requires Contains(message, "InvalidUserID.NotFound") && Contains(message, "ExternalId")
    ensures TranslateError(roleArn, ErrorObject(name, message)).InvalidRoleError?
  {
  }

  /** `areCredentialsExpired(credentials, bufferMinutes = 5)`: true from
      `bufferMinutes` minutes before the expiration instant on. */
  function AreCredentialsExpired(c: AwsCredentials, bufferMinutes: Option<int>, nowMs: int): (b: bool)
    ensures b <==> nowMs >= c.expiration * 1000 - bufferMinutes.GetOr(DefaultBufferMinutes) * 60000
  {
    var expirationTime := c.expiration * 1000;
    var bufferTime := bufferMinutes.GetOr(DefaultBufferMinutes) * 60 * 1000;
    nowMs >= expirationTime - bufferTime
  }

  /** Once expired, credentials stay expired as time passes. */
  lemma ExpiredStaysExpired(c: AwsCredentials, buffer: Option<int>, t1: int, t2: int)
    requires t1 <= t2 && AreCredentialsExpired(c, buffer, t1)
    ensures AreCredentialsExpired(c, buffer, t2)
  {
  }

  /** A larger safety buffer only makes credentials expire earlier. */
  lemma LargerBufferExpiresEarlier(c: AwsCredentials, b1: int, b2: int, nowMs: int)
    requires b1 <= b2 && AreCredentialsExpired(c, Some(b1), nowMs)
    ensures AreCredentialsExpired(c, Some(b2), nowMs)
  {
  }

  /** Credentials whose expiration STS left out, requested with the default
      duration at `issuedMs`, are not reported expired (with the default
      buffer) for the next 1,499,000 ms, and are reported expired from
      1,500,000 ms on. */
  lemma SynthesizedExpiryWindow(p: AssumeRoleParams, c: ProviderCredentials, issuedMs: int, nowMs: int)
    requires Policies.ValidateRoleArn(p.roleArn) && p.durationSeconds == None
    requires c.expirationMs == None
    ensures var r := AssumeRole(p, Fulfilled(AssumeRoleResponse(Some(c))), issuedMs);
      && r.Success?
      && (nowMs <= issuedMs + 1499000 ==> !AreCredentialsExpired(r.value, None, nowMs))
      && (nowMs >= issuedMs + 1500000 ==> AreCredentialsExpired(r.value, None, nowMs))
  {
  }
}
