# SpotSave AWS cost dashboard: a Dafny model of its core

This project models the logic behind a dashboard that connects to a customer's
AWS account and shows cost, forecast and rightsizing data. The account is
connected by assuming a cross-account IAM role that is gated by an external ID.
The model covers:

- **Validation and ARNs.** The account-ID, external-ID and role-ARN checks.
  The role-ARN builder and account-ID extractor. The content of the trust
  policy.
- **Role assumption** (`assumeRole`). The ARN pre-check, the defaults and the
  expiration arithmetic. The ordered translation of STS errors into the three
  error classes. The `areCredentialsExpired` window.
- **Cost aggregation.**
  - Per-bucket monthly costs.
  - Per-service totals, kept in a map that preserves insertion order.
  - Percentages, the stable top-10 sort and the "Others" bucket.
  - The forecast/actual pairing.
  - Rightsizing filtering and priorities.
  - The different failure policies of the three queries.
- **`retryWithBackoff`.** Bounded attempts, a denylist of terminal errors and
  doubling waits.
- **The credential store `useAWSStore`.** A class with the store's fields and
  its actions. `refreshCredentials` and its `isRefreshing` guard. The persisted
  projection. The one-minute timer's refresh condition.
- **The chart data of the forecast chart.**
- **Two HTTP handlers.** `POST /api/aws/assume-role`: its guard order and its
  mapping from error class to HTTP status. `POST /api/export`: the CSV
  serialiser.

How outside inputs are represented:

- **Provider answers are parameters.** This covers STS, the Cost Explorer
  queries and the refresh request, each given as a settled outcome (`Settled`:
  fulfilled with a value or rejected with a thrown value).
- **The clock is a parameter** (`now`/`nowMs`), and so are the default date
  strings.
- **Formatting functions are parameters:** `parseFloat`, `toFixed(2)` and the
  month label.
- **Amounts are `real`.** A provider amount is taken as already parsed: `None`
  stands for a missing or empty string, which the source replaces by `"0"`.

Modules, one per source file plus shared helpers:

| module | file | source |
|---|---|---|
| `Wrappers` | `wrappers.dfy` | shared: `Option`, `Result` |
| `JsStrings` | `js_strings.dfy` | shared: `String.prototype.trim`, `includes`, number rendering |
| `JsErrors` | `js_errors.dfy` | shared: thrown values, settled promises, `error instanceof Error ? error.message : "Unknown error"` |
| `Sums` | `sums.dfy` | shared: `reduce((sum, x) => sum + x, 0)` |
| `AwsTypes` | `aws_types.dfy` | types/aws.ts |
| `Validation` | `validation.dfy` | lib/utils/validation.ts |
| `Policies` | `policies.dfy` | lib/aws/policies.ts |
| `Sts` | `sts.dfy` | lib/aws/sts.ts |
| `CostExplorer` | `cost_explorer.dfy` | lib/aws/cost-explorer.ts |
| `Retry` | `retry.dfy` | app/api/aws/cost-explorer.ts |
| `Store` | `aws_store.dfy` | lib/store/aws-store.ts |
| `ForecastChart` | `forecast_chart.dfy` | components/dashboard/ForecastChart.tsx |
| `AssumeRoleRoute` | `assume_role_route.dfy` | app/api/aws/assume-role/route.ts |
| `ExportRoute` | `export_route.dfy` | app/api/export/route.ts |

## Behaviour worth knowing

- **"Others" bucket.** "Others" adds up the service-map values at insertion
  positions 10 and later (lib/aws/cost-explorer.ts:99-101). That is not the
  same as the services ranked below the top ten.
  - `CostExplorer.OthersDoubleCounts` shows a service counted both among the
    named ten and in "Others".
  - `CostExplorer.OthersRankedWhenSorted` shows the two agree when the map
    happens to be inserted in non-increasing order.
- **Month values.** `MonthlyCost.month` holds the bucket's start date
  unchanged (lib/aws/cost-explorer.ts:65). See the second finding below.
- **Unmatched provider errors.** An STS error that matches none of the rules
  becomes a plain error with the prefix "Failed to assume role: "
  (lib/aws/sts.ts:104-106). The assume-role route answers it with 500.
- **"Others" percentage.** The report applies the guard of line 93 to the
  "Others" percentage as well. See the first finding below.

## Model

| member | source | states |
|---|---|---|
| Validation.ValidateAccountId | lib/utils/validation.ts:6-8 | true iff the trimmed input is exactly 12 ASCII digits |
| Validation.ValidateExternalId | lib/utils/validation.ts:14-17 | an accepted input has at least 2 characters, and a whitespace-only input is refused; `ValidateCleanExternalId`, `ExternalIdIgnoresPadding` and `ExternalIdLengthBoundaries` give the full characterisation |
| Validation.SanitizeExternalId | lib/utils/validation.ts:22-24 | the input is some whitespace, then the result, then some whitespace; the result neither starts nor ends with whitespace |
| Validation.ValidateRoleArnFormat | lib/utils/validation.ts:29-31 | agrees with `Policies.ValidateRoleArn` on every input |
| Validation.GetAccountIdFromArn | lib/utils/validation.ts:36-38 | agrees with `Policies.ExtractAccountIdFromArn` on every input |
| Validation.SanitizeIdempotent | lib/utils/validation.ts:22-24 | sanitising twice is the same as sanitising once |
| Validation.ValidateAfterSanitize | lib/utils/validation.ts:15-16 | validating the sanitised ID gives the same answer as validating the raw one |
| Validation.AccountIdIgnoresPadding | lib/utils/validation.ts:7 | surrounding whitespace never changes the account-ID verdict |
| Validation.ExternalIdIgnoresPadding | lib/utils/validation.ts:15 | surrounding whitespace never changes the external-ID verdict |
| Validation.ValidateCleanExternalId | lib/utils/validation.ts:15-16 | on an input with no surrounding whitespace, the external-ID check is the length-and-alphabet test on the input itself |
| Validation.ExternalIdLengthBoundaries | lib/utils/validation.ts:15-16 | for IDs over the allowed alphabet: accepted iff the length is 2..1224, so 2 and 1224 pass and 1 and 1225 fail |
| Validation.GenerateAcceptsOnlyValidAccountIds | lib/aws/policies.ts:109-111 | an account ID the ARN builder accepts also passes the form validator |
| Validation.PaddedAccountIdRefusedByGenerate | lib/aws/policies.ts:109-111 | a space before 12 digits passes the form validator (which trims) but is refused by the ARN builder (which does not) |
| Validation.WellFormedArnIsTrimmed | lib/aws/policies.ts:119 | an ARN matching the pattern has no surrounding whitespace |
| Policies.GetTrustPolicy | lib/aws/policies.ts:14-36 | one Allow statement for `sts:AssumeRole`, principal `arn:aws:iam::<accountId>:root`, and the external ID verbatim as the `sts:ExternalId` condition |
| Policies.TrustPolicyDeterminesInputs | lib/aws/policies.ts:22-27 | the trust policy neither validates nor alters its inputs: equal policies come from equal account and external IDs |
| Policies.GetPermissionsPolicy | lib/aws/policies.ts:41-95 | three Allow statements on every resource, with 16, 6 and 4 read-only actions |
| Policies.GetCompletePolicyTemplate | lib/aws/policies.ts:100-102 | the same document as the permissions policy |
| Policies.GenerateRoleArn | lib/aws/policies.ts:107-113 | fails with "Invalid AWS account ID. Must be 12 digits." iff the account ID is not exactly 12 digits (no trimming); otherwise `arn:aws:iam::<id>:role/<name>`, default name `SpotSaveReadOnlyRole` |
| Policies.ExtractAccountIdFromArn | lib/aws/policies.ts:126-129 | returns 12 digits exactly when the input starts with `arn:aws:iam::<12 digits>:role/`, and then those digits |
| Policies.ArnPrefixParts | lib/aws/policies.ts:127 | a string with the prefix splits at fixed offsets 13, 25 and 31 into prefix, digits and `:role/` |
| Policies.ValidRoleArnDecomposes | lib/aws/policies.ts:119 | a valid ARN is prefix + 12 digits + `:role/` + a non-empty role name over `[A-Za-z0-9_+=,.@-]` |
| Policies.ValidRoleArnColon | lib/aws/policies.ts:119 | a valid ARN has no colon after the prefix except the one before `role/` |
| Policies.ComposedRoleArnValid | lib/aws/policies.ts:112-119 | the composed ARN is valid iff the account ID is 12 digits and the role name is a valid role name |
| Policies.GeneratedRoleArnValid | lib/aws/policies.ts:112-119 | a generated ARN passes the ARN check iff its role name is valid, and always does with the default name |
| Policies.ExtractAfterGenerate | lib/aws/policies.ts:112-128 | extracting from a generated ARN gives back the account ID, whatever the role name |
| Policies.ValidRoleArnHasAccountId | lib/aws/policies.ts:119-127 | from a valid ARN, extraction gives the 12 digits after `arn:aws:iam::` |
| Policies.ExtractionDoesNotValidate | lib/aws/policies.ts:119-127 | the converse fails: an ARN with an empty role name yields an account ID but is not valid |
| Sts.PrepareRequest | lib/aws/sts.ts:39-60 | refuses an invalid ARN with InvalidRoleError; otherwise builds the request with the defaults `SpotSaveSession` and 1800 s |
| Sts.ToCredentials | lib/aws/sts.ts:70-77 | expiration is the provider instant rounded down to seconds, or the current second plus the duration; a missing key, secret or token becomes "" |
| Sts.TranslateError | lib/aws/sts.ts:78-107 | the ordered mapping: access denied (name or message), then `InvalidUserID.NotFound`, then `ExternalId`, then a generic error carrying the message |
| Sts.AssumeRole | lib/aws/sts.ts:36-108 | credentials iff the ARN is valid and STS returned credentials; an invalid ARN fails before the call; provider errors are translated |
| Sts.CompleteRequest | lib/aws/sts.ts:63-107 | credentials iff STS answered with them, built by `ToCredentials`; a response without credentials ends as the generic "No credentials returned from STS" error; a provider error is translated |
| Sts.InvalidArnSkipsProvider | lib/aws/sts.ts:43-47 | with an invalid ARN the result depends neither on the STS outcome nor on the clock |
| Sts.MissingCredentialsIsGenericError | lib/aws/sts.ts:64-106 | a response without credentials ends as "Failed to assume role: No credentials returned from STS" |
| Sts.UnmatchedMessageIsGeneric | lib/aws/sts.ts:104-106 | a message matching no rule is passed through with the generic prefix |
| Sts.TranslationOrderMatters | lib/aws/sts.ts:91-101 | a message naming both a missing user and the external ID is reported as a missing role |
| Sts.AreCredentialsExpired | lib/aws/sts.ts:113-117 | true iff `now >= expiration*1000 - buffer*60000`, default buffer 5 minutes |
| Sts.ExpiredStaysExpired | lib/aws/sts.ts:116 | expired credentials stay expired as time passes |
| Sts.LargerBufferExpiresEarlier | lib/aws/sts.ts:116 | a larger buffer never un-expires credentials |
| Sts.SynthesizedExpiryWindow | lib/aws/sts.ts:40-116 | default-duration credentials without a provider expiry are fresh for 1,499,000 ms and expired from 1,500,000 ms on |
| CostExplorer.Set | lib/aws/cost-explorer.ts:81 | `Map.set`: a new key is appended in insertion order, an existing one keeps its place, only that key's value changes |
| CostExplorer.AccumulateTotals | lib/aws/cost-explorer.ts:76-83 | each service is in the map iff some group names it (missing key = "Unknown"), with the sum of its group amounts across all buckets |
| CostExplorer.AddGroupsTotals | lib/aws/cost-explorer.ts:77-82 | folding groups into a map adds to each service exactly its groups' amounts |
| CostExplorer.AccumulateSum | lib/aws/cost-explorer.ts:88 | the sum of the per-service totals equals the sum of all group amounts |
| CostExplorer.ToMonthlyCost | lib/aws/cost-explorer.ts:64-73 | month defaults to "", amount to 0, currency to "USD" |
| CostExplorer.AddBucketGroups | lib/aws/cost-explorer.ts:76-83 | the group loop of one bucket adds every group's cost to its service, in group order (the result is `AddGroups` of the groups) |
| CostExplorer.AccumulateBuckets | lib/aws/cost-explorer.ts:62-85 | the bucket loop yields one monthly cost per bucket in order, and the service map of all groups |
| CostExplorer.Percentage | lib/aws/cost-explorer.ts:93 | `amount*100/total` when total > 0, else 0 |
| CostExplorer.InsertDesc | lib/aws/cost-explorer.ts:95 | inserting keeps every element and adds one |
| CostExplorer.InsertDescSorted | lib/aws/cost-explorer.ts:95 | inserting into a non-increasing list keeps it non-increasing |
| CostExplorer.SortDesc | lib/aws/cost-explorer.ts:95 | a permutation of the entries in non-increasing amount order |
| CostExplorer.SortDescOfSorted | lib/aws/cost-explorer.ts:95 | an already non-increasing list comes back unchanged |
| CostExplorer.SortDescStable | lib/aws/cost-explorer.ts:95 | the sort is stable: two entries with equal amounts come out in their input order, which decides the tied services that `slice(0, 10)` keeps |
| CostExplorer.Named | lib/aws/cost-explorer.ts:89-96 | at most 10 entries, non-increasing, each taken from the service map with its percentage |
| CostExplorer.Breakdown | lib/aws/cost-explorer.ts:89-108 | named entries, then "Others" iff the values at insertion positions 10+ sum above 0; at most 11 entries; none extra with at most 10 services; the "Others" percentage uses line 93's guard (corrected, see the first finding) |
| CostExplorer.NamedAreLargest | lib/aws/cost-explorer.ts:95-96 | a service left out of the named entries costs no more than the smallest named one |
| CostExplorer.WithPercentagesScaled | lib/aws/cost-explorer.ts:88-94 | with a positive total the percentages of all services add up to 100 |
| CostExplorer.PercentagesSumTo100 | lib/aws/cost-explorer.ts:89-108 | with at most 10 services and a positive total, the breakdown lists every service and its percentages add up to 100 |
| CostExplorer.OthersRankedWhenSorted | lib/aws/cost-explorer.ts:95-108 | when insertion order is already non-increasing, "Others" is exactly the services ranked 11 and below, and the percentages add up to 100 |
| CostExplorer.TailPercentage | lib/aws/cost-explorer.ts:99-106 | the percentage of "Others" is the sum of its services' percentages |
| CostExplorer.OthersDoubleCounts | lib/aws/cost-explorer.ts:95-108 | with 11 services and the last-inserted one the largest, it is listed first and also forms "Others" with the same amount |
| CostExplorer.OthersPercentageAsWritten | lib/aws/cost-explorer.ts:106 | the unguarded division: no finite value exactly when the total is 0, and a negative percentage when the total is negative and "Others" positive |
| CostExplorer.OthersPercentageDividesByZero | lib/aws/cost-explorer.ts:99-108 | with a zero total and positive "Others", the source divides by zero, while the guarded model gives 0 |
| CostExplorer.OthersPercentageNegativeTotal | lib/aws/cost-explorer.ts:99-108 | with a negative total and positive "Others", the source gives a negative percentage, while the guarded model gives 0 |
| CostExplorer.CreditExample | lib/aws/cost-explorer.ts:99-108 | a concrete map with a credit that reaches the zero-total case |
| CostExplorer.CostReport | lib/aws/cost-explorer.ts:62-115 | one monthly cost per bucket; total = sum of all group amounts; currency from the first bucket or "USD"; the (corrected) `Breakdown` of the accumulated map |
| CostExplorer.GetCostAndUsage | lib/aws/cost-explorer.ts:29-121 | the report of the query's buckets (with the corrected "Others" percentage), or a failure prefixed "Failed to fetch cost data: " |
| CostExplorer.ForecastAndActualShareWindow | lib/aws/cost-explorer.ts:133-160 | the actual series is queried over the forecast's own window |
| CostExplorer.GetCostForecast | lib/aws/cost-explorer.ts:126-174 | success iff both queries succeed; one point per forecast result in order, with defaults "" and "0"; actual = the cost report's monthly costs; either failure is rethrown with the prefix |
| CostExplorer.Savings | lib/aws/cost-explorer.ts:196-200 | current minus target, where a missing target costs the current amount, so no target means 0 |
| CostExplorer.PriorityOf | lib/aws/cost-explorer.ts:211 | high iff > 100, medium iff in (50, 100], low iff <= 50 |
| CostExplorer.ToRecommendation | lib/aws/cost-explorer.ts:202-212 | savings and their priority, type rightsizing, service EC2; the account id, or `rec-<now>` when it is missing or empty; the current instance name as resource id |
| CostExplorer.Kept | lib/aws/cost-explorer.ts:202-212 | at most one record per input, each with positive savings, its priority, type rightsizing and service EC2 |
| CostExplorer.KeptStep | lib/aws/cost-explorer.ts:202-213 | a record is kept iff its savings are positive; one without targets is dropped |
| CostExplorer.GetRightsizingRecommendations | lib/aws/cost-explorer.ts:179-235 | the kept records and their savings total, which is >= 0; any provider error gives an empty list and 0 |
| Retry.Normalize | app/api/aws/cost-explorer.ts:15 | an `Error` is kept, anything else becomes `Error("Unknown error")` |
| Retry.Delays | app/api/aws/cost-explorer.ts:27-30 | the i-th wait is `initialDelay * 2^i` |
| Retry.RetryWithBackoff | app/api/aws/cost-explorer.ts:4-35 | at most `maxRetries+1` calls and none when negative; the first success is returned; a denylisted error is rethrown at once; waits double, with none after the last attempt; "Max retries exceeded" when no call is made |
| Retry.NonErrorIsRetriable | app/api/aws/cost-explorer.ts:15-24 | a thrown non-`Error` value is retried |
| Retry.DelaysTotal | app/api/aws/cost-explorer.ts:27-30 | n waits add up to `initialDelay * (2^n - 1)` |
| Store.AwsStore.constructor | lib/store/aws-store.ts:40-49 | every field null or false |
| Store.AwsStore.SetCredentials | lib/store/aws-store.ts:51-57 | sets credentials, connected and the last refresh time; nothing else changes |
| Store.AwsStore.SetRoleInfo | lib/store/aws-store.ts:59-61 | sets the three identity fields only |
| Store.AwsStore.SetCostData | lib/store/aws-store.ts:63-65 | sets the cost data only |
| Store.AwsStore.SetForecastData | lib/store/aws-store.ts:67-69 | sets the forecast data only |
| Store.AwsStore.SetRecommendationsData | lib/store/aws-store.ts:71-73 | sets the recommendations only |
| Store.AwsStore.RefreshCredentials | lib/store/aws-store.ts:75-109 | requests iff the role ARN and external ID are truthy and no refresh runs; the new state is that of the completed refresh |
| Store.AwsStore.ClearCredentials | lib/store/aws-store.ts:111-117 | nulls the credentials and the last refresh, disconnects, keeps the rest |
| Store.AwsStore.ClearAll | lib/store/aws-store.ts:119-132 | restores exactly the initial state |
| Store.AwsStore.Tick | lib/store/aws-store.ts:148-160 | refreshes iff the timer condition holds, and changes nothing otherwise |
| Store.RefreshSkippedWhenGuardFails | lib/store/aws-store.ts:76-80 | without a role ARN or external ID, or during a refresh, nothing changes |
| Store.RefreshSettles | lib/store/aws-store.ts:82-108 | afterwards no refresh runs; success acts as `setCredentials`; failure leaves the state as it was |
| Store.RefreshKeepsIdentityAndData | lib/store/aws-store.ts:75-109 | a refresh keeps the role identity and the cached data |
| Store.ClearCredentialsKeepsIdentityAndData | lib/store/aws-store.ts:111-117 | logging out keeps the role identity and the cached data |
| Store.Partialize | lib/store/aws-store.ts:136-141 | the persisted part is exactly the role ARN, account ID and external ID |
| Store.Rehydrate | lib/store/aws-store.ts:40-49 | a reloaded store carries the persisted identity and is otherwise initial: no credentials, disconnected, no cached data |
| Store.PersistenceDropsCredentials | lib/store/aws-store.ts:136-141 | only the role ARN, account ID and external ID are persisted; a reloaded store has no credentials and is disconnected |
| Store.TickAfterSetCredentials | lib/store/aws-store.ts:150-158 | after storing credentials at t, a tick triggers iff t != 0, no refresh runs and more than 1,500,000 ms have passed |
| Store.ClearedStoreNeverTicks | lib/store/aws-store.ts:152-157 | a cleared or fresh store never triggers a refresh |
| Store.TickComesAfterBufferedExpiry | lib/store/aws-store.ts:150-158 | default-length credentials stored after issue are already expired (5-minute buffer) whenever the timer triggers |
| ForecastChart.MonthKey | components/dashboard/ForecastChart.tsx:22 | the first 7 characters, or the whole string when shorter |
| ForecastChart.Points | components/dashboard/ForecastChart.tsx:21-34 | one point per forecast entry, in order, with the label of its key and its parsed mean value |
| ForecastChart.ActualMapLastWins | components/dashboard/ForecastChart.tsx:14-19 | a key is in the map iff some entry is stored under it, and the last such entry's amount wins |
| ForecastChart.PointsActual | components/dashboard/ForecastChart.tsx:14-24 | each point's actual is the last entry stored under its key (as written, an entry whose month equals the key exactly), else 0 |
| ForecastChart.CorrectedChartData | components/dashboard/ForecastChart.tsx:14-24 | corrected join: each point's actual is the last entry of the same year and month, else 0 |
| ForecastChart.LongActualMonthIgnored | components/dashboard/ForecastChart.tsx:14-24 | an actual entry with a month longer than 7 characters never affects the chart |
| ForecastChart.FullDateActualsNeverMatch | components/dashboard/ForecastChart.tsx:14-24 | when every actual month is a full date, every actual bar is 0 |
| ForecastChart.SameStartDateExample | components/dashboard/ForecastChart.tsx:14-24 | both series dated 2024-02-01: actual 0 as written, 200 corrected |
| ForecastChart.CorrectedAgreesOnMonthKeys | components/dashboard/ForecastChart.tsx:14-24 | with `YYYY-MM` actual months the corrected chart equals the one as written |
| ForecastChart.ForecastValueIsLocal | components/dashboard/ForecastChart.tsx:23 | a forecast value depends only on its own entry's mean value |
| AssumeRoleRoute.StatusOf | app/api/aws/assume-role/route.ts:45-65 | InvalidRoleError iff 400, PermissionDeniedError iff 403, other iff 500 |
| AssumeRoleRoute.Respond | app/api/aws/assume-role/route.ts:40-65 | 200 with the credentials and "Successfully assumed role" iff success, else the error's status and message |
| AssumeRoleRoute.Post | app/api/aws/assume-role/route.ts:5-67 | unreadable body gives 500; then role ARN, external ID and format guards give 400, in that order; 200 only with both present, a valid external ID and a valid trimmed ARN |
| AssumeRoleRoute.PostReportsAssumeRole | app/api/aws/assume-role/route.ts:26-43 | once the guards pass, the answer reports `assumeRole` on the trimmed ARN and the trimmed external ID |
| AssumeRoleRoute.InvalidExternalIdSkipsAssumeRole | app/api/aws/assume-role/route.ts:26-32 | a malformed external ID is refused whatever STS would say |
| AssumeRoleRoute.PostSeesTrimmedInputs | app/api/aws/assume-role/route.ts:26-38 | the answer depends only on the trimmed inputs |
| AssumeRoleRoute.PaddingIgnored | app/api/aws/assume-role/route.ts:26-38 | whitespace around either input changes nothing |
| AssumeRoleRoute.AccessDeniedResponse | app/api/aws/assume-role/route.ts:52-57 | STS denying access to a well-formed ARN is answered 403 with the access-denied message |
| AssumeRoleRoute.AccessDeniedIs403 | app/api/aws/assume-role/route.ts:5-67 | a well-formed role and external ID with access denied end in 403 |
| ExportRoute.CsvRowsLayout | app/api/export/route.ts:23-38 | header first; then one row per monthly cost, per service and per recommendation, in that order; service rows use the first month or "" |
| ExportRoute.BuildCsvRows | app/api/export/route.ts:23-38 | the three push loops build exactly the rows of the layout |
| ExportRoute.JoinLinesCount | app/api/export/route.ts:40 | joining gives one newline between rows and none after the last, plus any newlines inside fields (nothing is quoted) |
| ExportRoute.Post | app/api/export/route.ts:4-58 | unreadable body gives 500; missing cost data or recommendations give 400 and no CSV; otherwise the joined rows |
| ExportRoute.CsvStartsWithHeader | app/api/export/route.ts:23-40 | the text starts with `Type,Date,Service,Cost,Description` |

## Left out

- SDK client construction and the provider calls are not modelled. Their
  outcomes are parameters. This includes `await command` in place of
  `client.send(command)` in lib/aws/cost-explorer.ts.
- The clock is a parameter, and so are the date windows built from
  `toISOString()`. `CostExplorer.GetRightsizingRecommendations` uses one
  `nowMs` for every synthesised id, while the source reads `Date.now()` per
  record.
- Number formatting and parsing are not modelled: `parseFloat`, `NaN`,
  `toFixed(2)` and `toLocaleDateString` are function parameters or
  already-parsed amounts. A non-numeric amount string, which the source
  turns into `NaN`, is not represented.
- `Retry.RetryWithBackoff` records its waits instead of sleeping.
- `Store.AwsStore.RefreshCredentials` runs the refresh to completion in one
  step. It does not model other actions interleaving while the request is in
  flight. The `console.error` call is left out.
- Zustand's `persist` middleware and localStorage are not modelled beyond the
  `partialize` projection and a merge over the initial state. Scheduling by
  `setInterval` is left out too: `Tick` is one firing of the timer.
- Two parts of lib/aws/sts.ts are left out because nothing reaches them:
  - the `instanceof InvalidRoleError` rethrow at lines 79-81, since that
    error is raised only before the `try`;
  - `ExpiredCredentialsError`, which is never thrown.
- The export handler's `Content-Disposition` header and its date-stamped file
  name are left out. So is its 500 answer for fields of the wrong JSON shape:
  the request is modelled as unreadable or as two possibly missing fields.
- The exact `JSON.stringify` layout of the policy documents is left out. The
  permissions policy is modelled by its statements and action counts.
- Console logging is left out throughout.
- Other files in the repository are not part of this model. This covers the
  pass-through routes (costs, forecast, recommendations), authentication and
  Amplify code, mock data and the React components other than the forecast
  chart's data.

## Findings

| source | as written | input that shows it | evidently intended | confidence | as-written member | corrected member |
|---|---|---|---|---|---|---|
| lib/aws/cost-explorer.ts:106 | the "Others" percentage divides by `totalCost` with no `totalCost > 0` guard (line 93 has one), so it goes wrong for every total <= 0 | service totals inserted as -5 (a credit), then nine services at 0, then 5: the total is 0 and "Others" is 5, so the percentage divides by zero; with -10 in place of -5 the total is -5 and the percentage is -100 | the guard of line 93, giving 0 | high; not executed | CostExplorer.OthersPercentageAsWritten, CostExplorer.CreditExample, CostExplorer.OthersPercentageNegativeTotal | CostExplorer.Breakdown |
| components/dashboard/ForecastChart.tsx:14-24 | forecast periods are cut to 7 characters, but actual entries are keyed by their whole `month`, which lib/aws/cost-explorer.ts:65 fills with the bucket's start date | a forecast for `2024-02-01` and an actual of 200 for `2024-02-01` | actual entries keyed by the same 7-character month, giving 200 | medium (assumes the provider's period starts are full dates, as the truncation of forecast periods suggests); not executed | ForecastChart.SameStartDateExample, ForecastChart.FullDateActualsNeverMatch | ForecastChart.CorrectedChartData |
