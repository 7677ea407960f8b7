/** IAM policy templates and role-ARN handling (lib/aws/policies.ts). */
module Policies {
  import opened Wrappers
  import opened JsStrings

  const PolicyVersion := "2012-10-17"
  const ArnPrefix := "arn:aws:iam::"
  const RoleInfix := ":role/"
  const DefaultRoleName := "SpotSaveReadOnlyRole"
  const InvalidAccountIdMessage := "Invalid AWS account ID. Must be 12 digits."

  /** The regex `/^\d{12}$/`: exactly twelve ASCII digits, nothing else. */
  predicate IsTwelveDigits(s: string) {
    |s| == 12 && forall i :: 0 <= i < |s| ==> IsAsciiDigit(s[i])
  }

  /** The regex class `[\w+=,.@-]` of role-name characters. */
  predicate IsRoleNameChar(c: char) {
    || ('a' <= c <= 'z') || ('A' <= c <= 'Z') || IsAsciiDigit(c)
    || c == '_' || c == '+' || c == '=' || c == ',' || c == '.' || c == '@' || c == '-'
  }

  /** `[\w+=,.@-]+`: one or more role-name characters. */
  predicate IsRoleName(s: string) {
    |s| >= 1 && forall i :: 0 <= i < |s| ==> IsRoleNameChar(s[i])
  }

  /** One statement of an IAM policy document; absent keys are `None`. A
      single action is the one-element list. */
  datatype Statement = Statement(
    effect: string,
    principalAws: Option<string>,
    actions: seq<string>,
    resource: Option<string>,
    externalIdCondition: Option<string>)

  /** The content of a policy document; its JSON rendering is not modelled. */
  datatype PolicyDocument = PolicyDocument(version: string, statements: seq<Statement>)

  /** `getTrustPolicy`: lets the account's root principal assume the role, on
      condition `StringEquals { "sts:ExternalId": externalId }`. Neither input
      is validated. */
  function GetTrustPolicy(accountId: string, externalId: string): (p: PolicyDocument)
    ensures p.version == PolicyVersion && |p.statements| == 1
    ensures p.statements[0].effect == "Allow"
    ensures p.statements[0].actions == ["sts:AssumeRole"]
    ensures p.statements[0].principalAws == Some(ArnPrefix + accountId + ":root")
    ensures p.statements[0].externalIdCondition == Some(externalId)
    ensures p.statements[0].resource == None
  {
    PolicyDocument(PolicyVersion, [
      Statement("Allow", Some(ArnPrefix + accountId + ":root"), ["sts:AssumeRole"], None, Some(externalId))
    ])
  }

  /** The trust policy carries both inputs verbatim: different inputs give
      different documents. */
  lemma TrustPolicyDeterminesInputs(a1: string, e1: string, a2: string, e2: string)
    requires GetTrustPolicy(a1, e1) == GetTrustPolicy(a2, e2)
    ensures a1 == a2 && e1 == e2
  {
    var p1 := ArnPrefix + a1 + ":root";
    var p2 := ArnPrefix + a2 + ":root";
    assert p1 == p2;
    assert |a1| == |a2|;
    assert a1 == p1[13..13 + |a1|];
    assert a2 == p2[13..13 + |a2|];
  }

  /** `getPermissionsPolicy`: read-only access to Cost Explorer, Budgets and
      Trusted Advisor, on every resource. */
  function GetPermissionsPolicy(): (p: PolicyDocument)
    ensures p.version == PolicyVersion && |p.statements| == 3
    ensures forall st :: st in p.statements ==>
      && st.effect == "Allow" && st.resource == Some("*")
      && st.principalAws == None && st.externalIdCondition == None
    ensures |p.statements[0].actions| == 16
    ensures |p.statements[1].actions| == 6
    ensures |p.statements[2].actions| == 4
  {
    PolicyDocument(PolicyVersion, [
      Statement("Allow", None, [
        "ce:GetCostAndUsage",
        "ce:GetCostAndUsageWithResources",
        "ce:GetReservationCoverage",
        "ce:GetReservationPurchaseRecommendation",
        "ce:GetReservationUtilization",
        "ce:GetRightsizingRecommendation",
        "ce:GetSavingsPlansCoverage",
        "ce:GetSavingsPlansUtilization",
        "ce:GetSavingsPlansUtilizationDetails",
        "ce:GetUsageReport",
        "ce:ListCostCategoryDefinitions",
        "ce:GetCostForecast",
        "ce:GetUsageForecast",
        "ce:GetDimensionValues",
        "ce:GetTags",
        "ce:DescribeCostCategoryDefinition"
      ], Some("*"), None),
      Statement("Allow", None, [
        "budgets:ViewBudget",
        "budgets:DescribeBudgets",
        "budgets:DescribeBudgetPerformanceHistory",
        "budgets:DescribeBudgetActionHistories",
        "budgets:DescribeBudgetActionsForAccount",
        "budgets:DescribeBudgetActionsForBudget"
      ], Some("*"), None),
      Statement("Allow", None, [
        "trustedadvisor:Describe*",
        "trustedadvisor:RefreshCheck",
        "trustedadvisor:ExcludeCheck",
        "trustedadvisor:IncludeCheck"
      ], Some("*"), None)
    ])
  }

  /** `getCompletePolicyTemplate`: the permissions policy itself. */
  function GetCompletePolicyTemplate(): (p: PolicyDocument)
    ensures p == GetPermissionsPolicy()
  {
    GetPermissionsPolicy()
  }

  /** `generateRoleArn(accountId, roleName = "SpotSaveReadOnlyRole")`; `None`
      stands for an omitted role name. The account ID must be twelve digits as
      given (it is not trimmed); the role name is not checked at all. */
  function GenerateRoleArn(accountId: string, roleName: Option<string>): (r: Result<string, string>)
    ensures r.Failure? <==> !IsTwelveDigits(accountId)
    ensures r.Failure? ==> r.error == InvalidAccountIdMessage
    ensures r.Success? ==> r.value == ArnPrefix + accountId + RoleInfix + roleName.GetOr(DefaultRoleName)
  {
    if !IsTwelveDigits(accountId) then
      Failure(InvalidAccountIdMessage)
    else
      Success(ArnPrefix + accountId + RoleInfix + roleName.GetOr(DefaultRoleName))
  }

  /** `validateRoleArn`: the regex `/^arn:aws:iam::\d{12}:role\/[\w+=,.@-]+$/`,
      matched against the whole string. */
  predicate ValidateRoleArn(s: string) {
    && |s| >= 31
    && s[..13] == ArnPrefix
    && IsTwelveDigits(s[13..25])
    && s[25..31] == RoleInfix
    && IsRoleName(s[31..])
  }

  /** `extractAccountIdFromArn`: the twelve digits of an ARN that STARTS with
      `arn:aws:iam::<12 digits>:role/`; what follows is not looked at. */
  function ExtractAccountIdFromArn(s: string): (r: Option<string>)
    ensures r.Some? ==> IsTwelveDigits(r.value) && ArnPrefix + r.value + RoleInfix <= s
    ensures r.None? ==> forall a :: IsTwelveDigits(a) ==> !(ArnPrefix + a + RoleInfix <= s)
  {
    assert forall a :: IsTwelveDigits(a) && ArnPrefix + a + RoleInfix <= s ==>
      |s| >= 31 && s[..13] == ArnPrefix && s[13..25] == a && s[25..31] == RoleInfix by {
      forall a | IsTwelveDigits(a) && ArnPrefix + a + RoleInfix <= s {
        ArnPrefixParts(s, a);
      }
    }
    if |s| >= 31 && s[..13] == ArnPrefix && IsTwelveDigits(s[13..25]) && s[25..31] == RoleInfix then
      assert ArnPrefix + s[13..25] + RoleInfix == s[..31];
      Some(s[13..25])
    else
      None
  }

  lemma ArnPrefixParts(s: string, a: string)
    requires IsTwelveDigits(a) && ArnPrefix + a + RoleInfix <= s
    ensures |s| >= 31 && s[..13] == ArnPrefix && s[13..25] == a && s[25..31] == RoleInfix
  {
    var w := ArnPrefix + a + RoleInfix;
    assert s[..31] == w;
    assert w[..13] == ArnPrefix && w[13..25] == a && w[25..31] == RoleInfix;
  }

  /** Every valid role ARN is the prefix, its twelve-digit account ID, `:role/`
      and a role name. */
  lemma ValidRoleArnDecomposes(s: string)
    requires ValidateRoleArn(s)
    ensures IsTwelveDigits(s[13..25]) && IsRoleName(s[31..])
    ensures s == ArnPrefix + s[13..25] + RoleInfix + s[31..]
  {
    assert s == s[..13] + s[13..25] + s[25..31] + s[31..];
  }

  /** In a valid ARN after the `arn:aws:iam::` prefix, the only colon is the
      one that starts `:role/`. */
  lemma ValidRoleArnColon(s: string)
    requires ValidateRoleArn(s)
    ensures forall j :: 13 <= j < |s| && j != 25 ==> s[j] != ':'
  {
    forall j | 13 <= j < |s| && j != 25 ensures s[j] != ':' {
      if j < 25 {
        assert s[j] == s[13..25][j - 13];
      } else if j < 31 {
        assert s[j] == s[25..31][j - 25];
      } else {
        assert s[j] == s[31..][j - 31];
      }
    }
  }

  /** An ARN assembled from an account ID and a role name is valid exactly when
      the account ID is twelve digits and the role name is a non-empty run of
      role-name characters. */
  lemma ComposedRoleArnValid(a: string, n: string)
    ensures ValidateRoleArn(ArnPrefix + a + RoleInfix + n) <==> IsTwelveDigits(a) && IsRoleName(n)
  {
    var s := ArnPrefix + a + RoleInfix + n;
    assert s[13 + |a|] == ':';
    if ValidateRoleArn(s) {
      ValidRoleArnColon(s);
      assert |a| == 12;
      assert s[13..25] == a && s[31..] == n;
    }
    if IsTwelveDigits(a) {
      assert s[..13] == ArnPrefix && s[13..25] == a && s[25..31] == RoleInfix && s[31..] == n;
    }
  }

  /** `generateRoleArn` produces a valid ARN exactly when the role name is a
      valid role name; the default role name always is. */
  lemma GeneratedRoleArnValid(a: string, roleName: Option<string>)
    requires GenerateRoleArn(a, roleName).Success?
    ensures ValidateRoleArn(GenerateRoleArn(a, roleName).value) <==> IsRoleName(roleName.GetOr(DefaultRoleName))
    ensures roleName == None ==> ValidateRoleArn(GenerateRoleArn(a, roleName).value)
  {
    ComposedRoleArnValid(a, roleName.GetOr(DefaultRoleName));
    DefaultRoleNameValid();
  }

  lemma DefaultRoleNameValid()
    ensures IsRoleName(DefaultRoleName)
  {
    var n := DefaultRoleName;
    assert forall i :: 0 <= i < |n| ==> 'A' <= n[i] <= 'Z' || 'a' <= n[i] <= 'z';
  }

  /** Extraction undoes generation, whatever the role name. */
  lemma ExtractAfterGenerate(a: string, roleName: Option<string>)
    requires GenerateRoleArn(a, roleName).Success?
    ensures ExtractAccountIdFromArn(GenerateRoleArn(a, roleName).value) == Some(a)
  {
    var s := GenerateRoleArn(a, roleName).value;
    assert s[..13] == ArnPrefix && s[13..25] == a && s[25..31] == RoleInfix;
  }

  /** A valid ARN yields its account ID. */
  lemma ValidRoleArnHasAccountId(s: string)
    requires ValidateRoleArn(s)
    ensures ExtractAccountIdFromArn(s) == Some(s[13..25])
  {
  }

  /** The converse fails: extraction looks only at the prefix, so an ARN with
      no role name still yields an account ID. */
  lemma ExtractionDoesNotValidate()
    ensures var s := "arn:aws:iam::123456789012:role/";
      ExtractAccountIdFromArn(s) == Some("123456789012") && !ValidateRoleArn(s)
  {
    var s := "arn:aws:iam::123456789012:role/";
    assert s[..13] == ArnPrefix && s[13..25] == "123456789012" && s[25..31] == RoleInfix;
    assert IsTwelveDigits("123456789012");
  }
}
