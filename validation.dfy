/** Input validators of the connect flow (lib/utils/validation.ts). */
module Validation {
  import opened Wrappers
  import opened JsStrings
  import Policies

  const MinExternalIdLength := 2
  const MaxExternalIdLength := 1224

  /** The regex class `[a-zA-Z0-9\-_]`. */
  predicate IsExternalIdChar(c: char) {
    ('a' <= c <= 'z') || ('A' <= c <= 'Z') || IsAsciiDigit(c) || c == '-' || c == '_'
  }

  /** `validateAccountId`: the trimmed input is exactly twelve ASCII digits. */
  function ValidateAccountId(s: string): (b: bool)
    ensures b <==> |Trim(s)| == 12 && forall i :: 0 <= i < |Trim(s)| ==> '0' <= Trim(s)[i] <= '9'
  {
    Policies.IsTwelveDigits(Trim(s))
  }

  /** `validateExternalId`: the trimmed input has 2 to 1224 characters, each a
      letter, a digit, `-` or `_`. */
  function ValidateExternalId(s: string): (b: bool)
    ensures b ==> MinExternalIdLength <= |s|
    ensures AllWhitespace(s) ==> !b
  {
    assert AllWhitespace(s) ==> TrimStart(s) == [] by {
      if AllWhitespace(s) { WhitespaceOnlyTrimsToEmpty(s); }
    }
    var t := Trim(s);
    MinExternalIdLength <= |t| <= MaxExternalIdLength && forall i :: 0 <= i < |t| ==> IsExternalIdChar(t[i])
  }

  /** `sanitizeExternalId`: trimming, and nothing else. */
  function SanitizeExternalId(s: string): (r: string)
    ensures |r| <= |s|
    ensures r == [] || (!IsJsWhitespace(r[0]) && !IsJsWhitespace(r[|r| - 1]))
    ensures exists pre, post :: s == pre + r + post && AllWhitespace(pre) && AllWhitespace(post)
  {
    TrimCutsOnlyWhitespace(s);
    Trim(s)
  }

  /** `validateRoleArnFormat`: delegates to the policy module's validator. */
  function ValidateRoleArnFormat(s: string): (b: bool)
    ensures b == Policies.ValidateRoleArn(s)
  {
    Policies.ValidateRoleArn(s)
  }

  /** `getAccountIdFromArn`: delegates to the policy module's extractor. */
  function GetAccountIdFromArn(s: string): (r: Option<string>)
    ensures r == Policies.ExtractAccountIdFromArn(s)
  {
    Policies.ExtractAccountIdFromArn(s)
  }

  /** Sanitizing twice is sanitizing once. */
  lemma SanitizeIdempotent(s: string)
    ensures SanitizeExternalId(SanitizeExternalId(s)) == SanitizeExternalId(s)
  {
    TrimIdempotent(s);
  }

  /** Validation already trims, so sanitizing first changes nothing. */
  lemma ValidateAfterSanitize(s: string)
    ensures ValidateExternalId(SanitizeExternalId(s)) == ValidateExternalId(s)
  {
    var t := SanitizeExternalId(s);
    TrimIdempotent(s);
    assert Trim(t) == Trim(s);
    VerdictFollowsTrim(t, s);
  }

  /** The external-ID verdict depends on the trimmed input only. */
  lemma VerdictFollowsTrim(a: string, b: string)
    requires Trim(a) == Trim(b)
    ensures ValidateExternalId(a) == ValidateExternalId(b)
  {
  }

  /** Surrounding whitespace never changes the account-ID verdict. */
  lemma AccountIdIgnoresPadding(w1: string, s: string, w2: string)
    requires AllWhitespace(w1) && AllWhitespace(w2)
    ensures ValidateAccountId(w1 + s + w2) == ValidateAccountId(s)
  {
    TrimIgnoresPadding(w1, s, w2);
  }

  /** Surrounding whitespace never changes the external-ID verdict. */
  lemma ExternalIdIgnoresPadding(w1: string, s: string, w2: string)
    requires AllWhitespace(w1) && AllWhitespace(w2)
    ensures ValidateExternalId(w1 + s + w2) == ValidateExternalId(s)
  {
    TrimIgnoresPadding(w1, s, w2);
  }

  /** On input without surrounding whitespace the verdict is the bare length
      and character check. */
  lemma ValidateCleanExternalId(s: string)
    requires s == [] || (!IsJsWhitespace(s[0]) && !IsJsWhitespace(s[|s| - 1]))
    ensures ValidateExternalId(s) <==>
      MinExternalIdLength <= |s| <= MaxExternalIdLength && forall i :: 0 <= i < |s| ==> IsExternalIdChar(s[i])
  {
    TrimOfClean(s);
    ValidateTrimmedExternalId(s);
  }

  lemma ValidateTrimmedExternalId(s: string)
    requires Trim(s) == s
    ensures ValidateExternalId(s) <==>
      MinExternalIdLength <= |s| <= MaxExternalIdLength && forall i :: 0 <= i < |s| ==> IsExternalIdChar(s[i])
  {
  }

  /** For text made only of allowed characters the verdict is the length check
      alone, with both limits inclusive: 2 and 1224 characters pass, 1 and 1225
      do not. */
  lemma ExternalIdLengthBoundaries(s: string)
    requires forall i :: 0 <= i < |s| ==> IsExternalIdChar(s[i])
    ensures ValidateExternalId(s) <==> 2 <= |s| <= 1224
  {
    if s != [] {
      assert IsExternalIdChar(s[0]) && IsExternalIdChar(s[|s| - 1]);
    }
    ValidateCleanExternalId(s);
  }

  /** Whatever `generateRoleArn` accepts, `validateAccountId` accepts too. */
  lemma GenerateAcceptsOnlyValidAccountIds(a: string, roleName: Option<string>)
    requires Policies.GenerateRoleArn(a, roleName).Success?
    ensures ValidateAccountId(a)
  {
    assert !IsJsWhitespace(a[0]) && !IsJsWhitespace(a[11]);
    TrimOfClean(a);
  }

  /** The converse fails: `validateAccountId` trims and `generateRoleArn` does
      not, so a padded account ID passes the first and is refused by the
      second. */
  lemma PaddedAccountIdRefusedByGenerate(a: string, roleName: Option<string>)
    requires Policies.IsTwelveDigits(a)
    ensures ValidateAccountId(" " + a)
    ensures Policies.GenerateRoleArn(" " + a, roleName).Failure?
  {
    assert !IsJsWhitespace(a[0]) && !IsJsWhitespace(a[11]);
    TrimOfClean(a);
    assert ValidateAccountId(a);
    AccountIdIgnoresPadding(" ", a, "");
    assert " " + a + "" == " " + a;
    assert |" " + a| == 13;
  }

  /** A well-formed role ARN has no surrounding whitespace, so trimming it
      changes nothing. */
  lemma WellFormedArnIsTrimmed(arn: string)
    requires ValidateRoleArnFormat(arn)
    ensures Trim(arn) == arn
  {
    assert arn[0] == arn[..13][0];
    assert arn[|arn| - 1] == arn[31..][|arn| - 32];
    TrimOfClean(arn);
  }
}
