# Bedrock organisation solution: Config rules, state table and deployer

This project models the decision logic of the AWS Security Reference
Architecture "bedrock_org" solution in Dafny and proves properties of it.
AWS service responses enter as plain input values, and AWS resources as an
abstract record of what exists. The model covers three parts:

- **Two AWS Config rule Lambdas.** They check Bedrock model invocation
  logging: one for an S3 bucket destination (`S3LoggingRule`) and one for a
  CloudWatch Logs destination (`CloudWatchLoggingRule`). Each parses its
  check flags from the rule parameters and looks for a logging destination.
  Each enabled check runs in a fixed order and may add a fixed issue string.
  The result is COMPLIANT, NON_COMPLIANT or ERROR with an exact annotation.
  The handler wraps it into exactly one evaluation record. `ConfigRule`
  holds what the two share:
  - flag parsing;
  - the issue list, as the reference definition `CollectIssues`;
  - the verdict;
  - the submitted record.
- **The DynamoDB state-table helper** (`StateTable`):
  - order-preserving de-duplication;
  - the `update_item` expression and values;
  - the `find_item` query and its choice among results;
  - the distinct solutions and accounts of a scan;
  - the shape of a generated record id and of an inserted item.
- **The deployer Lambda** (`Orchestrator`). The class `Deployer` holds the
  module globals (`DRY_RUN`, `RULE_REGIONS_ACCOUNTS`, `RESOURCE_TYPE`,
  `LAMBDA_START`, `LAMBDA_FINISH`) and the fields the code sets on its
  helper objects. That includes the shared IAM policy document, which is
  rewritten in place.
  - The AWS accounts are a `World` of existing topics, roles, policies,
    attachments, functions, permissions and Config rules.
  - The deploy functions are create-if-absent operations on that world.
  - A ghost `trace` records the deployment steps, so their order can be
    stated against the loop structure (`Plan`).
  - Every Python exception becomes an `Exception` value that ends in the
    handler's 500 response.

`Text` models the Python string operations the code relies on:
`str.join`, `str.split` on one character, `str.replace` and ASCII
`str.lower`.

Source behaviour that the contracts make explicit:

- **Stale rule scope.** A rule with no `RULE_REGIONS_ACCOUNTS` entry is
  deployed with the previous rule's accounts and regions. If the first rule
  has no entry, the loop variables are unbound
  (`Orchestrator.TargetsScopes`, `Orchestrator.Targets`).
- **One role for every function.** The role loop of a rule finishes before
  its function loop starts. So every function of the rule is created with
  the role ARN of the rule's *last* account, whichever account the function
  is in (`Orchestrator.Deployer.DeployPairs` states `NewFunctionsUse` for
  that single ARN).
- **The policy document is filled once.** The shared policy document is
  rewritten in place. When the first role deployment has a numeric account
  id and a rule name without upper-case letters or "_", that one rewrite
  leaves no placeholder (`Orchestrator.RenderClearsPlaceholders`). Every
  later account and rule then gets the first account's and rule's values
  (`Orchestrator.RenderPlanFirstRoleWins`). For other inputs one rewrite
  need not clear them: replacing "ACCOUNT_ID" by an empty id in
  "ACCOUNT_ACCOUNT_IDID" leaves "ACCOUNT_ID".
- **No `DRY_RUN` guard on function creation.** `deploy_lambda_function`
  calls the Lambda create with no `DRY_RUN` guard, so a dry run asks for
  an absent function to be created (`Orchestrator.Deployer.DeployLambdaFunction`).
- **Dry-run failures.** A dry run without the SNS topic, or without a
  rule's role in some account, raises (unbound `topic_arn`, unbound
  `role_arn`; `Orchestrator.CreateFailure`).
- **A custom resource's Create always fails.** When the resource type is
  the IAM helper's custom-resource type, the SUCCESS response at the end of
  `create_event` refers to the undefined name `data`. So the request
  raises NameError, live or dry run, if nothing raised earlier
  (`Orchestrator.CustomResourceCreateFails`).
- **Stale `dry_run` in the 500 response.** When reading the properties
  fails, the `dry_run` reported with the 500 response is the value left by
  an earlier invocation (`Orchestrator.Deployer.Process`).

## Model

| member | source | states |
|---|---|---|
| ConfigRule.ParseFlag | aws_sra_examples/solutions/genai/bedrock_org/lambda/rules/sra_bedrock_check_invocation_log_s3/app.py:25-29 | a flag is on unless its parameter is present and its lower-cased text differs from "true"; a non-string parameter makes `.lower()` raise |
| ConfigRule.LowerIsTrue | aws_sra_examples/solutions/genai/bedrock_org/lambda/rules/sra_bedrock_check_invocation_log_s3/app.py:25-29 | the comparison accepts exactly the four-letter spellings of "true" in any mix of cases |
| ConfigRule.AbortedPrefixAbortsAll | aws_sra_examples/solutions/genai/bedrock_org/lambda/rules/sra_bedrock_check_invocation_log_s3/app.py:31-77 | once a check has raised, no later check changes the outcome |
| ConfigRule.CollectIssuesAborts | aws_sra_examples/solutions/genai/bedrock_org/lambda/rules/sra_bedrock_check_invocation_log_s3/app.py:45-77 | the run ends in an exception iff some enabled check's lookup raised, and then with the message of the first such check |
| ConfigRule.IssuesAreLabels | aws_sra_examples/solutions/genai/bedrock_org/lambda/rules/sra_bedrock_check_invocation_log_s3/app.py:43-68 | every issue is one of the fixed issue strings |
| ConfigRule.IssueIffReported | aws_sra_examples/solutions/genai/bedrock_org/lambda/rules/sra_bedrock_check_invocation_log_s3/app.py:45-68 | a check's issue is in the list iff the check is enabled and found its setting missing |
| ConfigRule.IssuesInCheckOrder | aws_sra_examples/solutions/genai/bedrock_org/lambda/rules/sra_bedrock_check_invocation_log_s3/app.py:45-68 | the issues appear in the order the checks run |
| ConfigRule.NothingEnabledNoIssues | aws_sra_examples/solutions/genai/bedrock_org/lambda/rules/sra_bedrock_check_invocation_log_s3/app.py:45-68 | with every check off, the issue list is empty |
| ConfigRule.Verdict | aws_sra_examples/solutions/genai/bedrock_org/lambda/rules/sra_bedrock_check_invocation_log_s3/app.py:70-77 | ERROR iff the run raised, with "Error evaluating compliance: " and the message; NON_COMPLIANT iff there are issues, with the prefix and the issues joined by ", "; COMPLIANT otherwise, with the compliant note |
| ConfigRule.Submit | aws_sra_examples/solutions/genai/bedrock_org/lambda/rules/sra_bedrock_check_invocation_log_s3/app.py:86-102 | exactly one evaluation, of resource type "AWS::::Account", for the event's account, with the verdict, the annotation and the notification time; a missing key raises KeyError naming it, checked in the order accountId, notificationCreationTime, resultToken; an exception from the evaluation is passed on |
| S3LoggingRule.ParseS3Flags | aws_sra_examples/solutions/genai/bedrock_org/lambda/rules/sra_bedrock_check_invocation_log_s3/app.py:24-29 | the five flags are the parsed parameters; parsing fails iff one of the five parameters is not a string |
| S3LoggingRule.NoParamsAllChecksOn | aws_sra_examples/solutions/genai/bedrock_org/lambda/rules/sra_bedrock_check_invocation_log_s3/app.py:24-29 | without parameters, every check is on |
| S3LoggingRule.S3Bucket | aws_sra_examples/solutions/genai/bedrock_org/lambda/rules/sra_bedrock_check_invocation_log_s3/app.py:33-39 | a bucket is used iff S3 delivery is enabled and the bucket name is present and non-empty |
| S3LoggingRule.AnyExpiration | aws_sra_examples/solutions/genai/bedrock_org/lambda/rules/sra_bedrock_check_invocation_log_s3/app.py:47 | true iff some lifecycle rule has a truthy `Expiration` |
| S3LoggingRule.RetentionMissing | aws_sra_examples/solutions/genai/bedrock_org/lambda/rules/sra_bedrock_check_invocation_log_s3/app.py:46-48 | retention is missing iff no listed lifecycle rule has an expiration; a response without `Rules` counts as none |
| S3LoggingRule.VersioningMissing | aws_sra_examples/solutions/genai/bedrock_org/lambda/rules/sra_bedrock_check_invocation_log_s3/app.py:66-68 | versioning is missing iff `Status` is absent or not "Enabled" |
| S3LoggingRule.EncryptionMissing | aws_sra_examples/solutions/genai/bedrock_org/lambda/rules/sra_bedrock_check_invocation_log_s3/app.py:50-53 | encryption is missing iff the response has no `ServerSideEncryptionConfiguration` |
| S3LoggingRule.AccessLoggingMissing | aws_sra_examples/solutions/genai/bedrock_org/lambda/rules/sra_bedrock_check_invocation_log_s3/app.py:55-58 | access logging is missing iff the response has no `LoggingEnabled` |
| S3LoggingRule.ObjectLockMissing | aws_sra_examples/solutions/genai/bedrock_org/lambda/rules/sra_bedrock_check_invocation_log_s3/app.py:60-63 | object locking is missing iff the response has no `ObjectLockConfiguration` |
| S3LoggingRule.RunChecks | aws_sra_examples/solutions/genai/bedrock_org/lambda/rules/sra_bedrock_check_invocation_log_s3/app.py:43-68 | the successive appends give exactly the reference issue list `CollectIssues` over the five checks |
| S3LoggingRule.EvaluateCompliance | aws_sra_examples/solutions/genai/bedrock_org/lambda/rules/sra_bedrock_check_invocation_log_s3/app.py:20-77 | fails (outside the try) iff a flag parameter is not a string; otherwise returns the rule's assessment for the parsed flags |
| S3LoggingRule.NotEnabledIgnoresBucket | aws_sra_examples/solutions/genai/bedrock_org/lambda/rules/sra_bedrock_check_invocation_log_s3/app.py:39-40 | without S3 delivery the verdict is NON_COMPLIANT with the fixed note, whatever the bucket responses are |
| S3LoggingRule.IssuesReported | aws_sra_examples/solutions/genai/bedrock_org/lambda/rules/sra_bedrock_check_invocation_log_s3/app.py:45-68 | each of the five issues is present iff its flag is on and its setting is missing, in the fixed order retention, encryption, access logging, object locking, versioning |
| S3LoggingRule.EnabledVerdict | aws_sra_examples/solutions/genai/bedrock_org/lambda/rules/sra_bedrock_check_invocation_log_s3/app.py:70-73 | with delivery on: ERROR iff an enabled lookup raised; NON_COMPLIANT iff there are issues, with "S3 logging enabled but " and the joined issues; COMPLIANT naming the bucket otherwise |
| S3LoggingRule.LoggingCallRaisedIsError | aws_sra_examples/solutions/genai/bedrock_org/lambda/rules/sra_bedrock_check_invocation_log_s3/app.py:75-77 | a raising Bedrock call gives ERROR with its message |
| S3LoggingRule.AllChecksOffCompliant | aws_sra_examples/solutions/genai/bedrock_org/lambda/rules/sra_bedrock_check_invocation_log_s3/app.py:45-73 | with delivery on and every flag off, the verdict is COMPLIANT whatever the bucket's configuration |
| S3LoggingRule.LambdaHandler | aws_sra_examples/solutions/genai/bedrock_org/lambda/rules/sra_bedrock_check_invocation_log_s3/app.py:79-102 | a missing `invokingEvent` raises; otherwise exactly one evaluation of the account carries the rule's verdict and annotation and the notification time |
| CloudWatchLoggingRule.FirstGroup | aws_sra_examples/solutions/genai/bedrock_org/lambda/rules/sra_bedrock_check_invocation_log_cloudwatch/app.py:42 | the first returned log group; an empty list raises IndexError, and so does a raising call |
| CloudWatchLoggingRule.ParseCloudWatchFlags | aws_sra_examples/solutions/genai/bedrock_org/lambda/rules/sra_bedrock_check_invocation_log_cloudwatch/app.py:24-26 | the retention and encryption flags are the parsed parameters; parsing fails iff one of them is not a string |
| CloudWatchLoggingRule.LogGroupName | aws_sra_examples/solutions/genai/bedrock_org/lambda/rules/sra_bedrock_check_invocation_log_cloudwatch/app.py:30-36 | a log group is used iff CloudWatch delivery is enabled and the name is present and non-empty |
| CloudWatchLoggingRule.RetentionMissing | aws_sra_examples/solutions/genai/bedrock_org/lambda/rules/sra_bedrock_check_invocation_log_cloudwatch/app.py:41-44 | retention is missing iff the first log group has no `retentionInDays` or zero days |
| CloudWatchLoggingRule.EncryptionMissing | aws_sra_examples/solutions/genai/bedrock_org/lambda/rules/sra_bedrock_check_invocation_log_cloudwatch/app.py:46-49 | encryption is missing iff the first log group has no `kmsKeyId` or an empty one |
| CloudWatchLoggingRule.EvaluateCompliance | aws_sra_examples/solutions/genai/bedrock_org/lambda/rules/sra_bedrock_check_invocation_log_cloudwatch/app.py:20-58 | fails (outside the try) iff a flag parameter is not a string; otherwise the successive appends give the rule's assessment, built on the reference issue list |
| CloudWatchLoggingRule.NotEnabledIgnoresLogGroups | aws_sra_examples/solutions/genai/bedrock_org/lambda/rules/sra_bedrock_check_invocation_log_cloudwatch/app.py:36-37 | without CloudWatch delivery the verdict is NON_COMPLIANT with the fixed note, whatever the log-group responses are |
| CloudWatchLoggingRule.IssuesReported | aws_sra_examples/solutions/genai/bedrock_org/lambda/rules/sra_bedrock_check_invocation_log_cloudwatch/app.py:41-49 | "retention not set" iff the check is on and the first group has no or zero retention; "encryption not set" iff that check is on and the first group has no KMS key; in that order |
| CloudWatchLoggingRule.NoLogGroupIsError | aws_sra_examples/solutions/genai/bedrock_org/lambda/rules/sra_bedrock_check_invocation_log_cloudwatch/app.py:41-58 | an enabled retention check that finds no log group gives ERROR with the IndexError message |
| CloudWatchLoggingRule.OnlyFirstGroupMatters | aws_sra_examples/solutions/genai/bedrock_org/lambda/rules/sra_bedrock_check_invocation_log_cloudwatch/app.py:41-49 | responses with the same first groups give the same verdict |
| CloudWatchLoggingRule.EnabledVerdict | aws_sra_examples/solutions/genai/bedrock_org/lambda/rules/sra_bedrock_check_invocation_log_cloudwatch/app.py:51-54 | with delivery on: ERROR iff an enabled lookup raised; NON_COMPLIANT iff there are issues, with the joined issues; COMPLIANT naming the log group otherwise |
| CloudWatchLoggingRule.LoggingCallRaisedIsError | aws_sra_examples/solutions/genai/bedrock_org/lambda/rules/sra_bedrock_check_invocation_log_cloudwatch/app.py:56-58 | a raising Bedrock call gives ERROR with its message |
| CloudWatchLoggingRule.LambdaHandler | aws_sra_examples/solutions/genai/bedrock_org/lambda/rules/sra_bedrock_check_invocation_log_cloudwatch/app.py:60-83 | a missing `invokingEvent` raises; otherwise exactly one evaluation of the account carries the rule's verdict and annotation and the notification time |
| StateTable.Dedup | aws_sra_examples/solutions/genai/bedrock_org/lambda/src/sra_dynamodb.py:145-150 | the result has no duplicates and has the same elements as the input |
| StateTable.DedupKeepsFirstOccurrenceOrder | aws_sra_examples/solutions/genai/bedrock_org/lambda/src/sra_dynamodb.py:145-150 | the result lists the values in the order of their first occurrence |
| StateTable.DedupOfDistinct | aws_sra_examples/solutions/genai/bedrock_org/lambda/src/sra_dynamodb.py:145-150 | a list without duplicates is unchanged |
| StateTable.DedupIdempotent | aws_sra_examples/solutions/genai/bedrock_org/lambda/src/sra_dynamodb.py:145-150 | de-duplicating twice is the same as de-duplicating once |
| StateTable.GetUniqueValues | aws_sra_examples/solutions/genai/bedrock_org/lambda/src/sra_dynamodb.py:145-150 | the append loop computes `Dedup` of its input |
| StateTable.PlaceholderKeys | aws_sra_examples/solutions/genai/bedrock_org/lambda/src/sra_dynamodb.py:100-105 | the values map has exactly one key ":" + a per attribute a |
| StateTable.PlaceholderBindings | aws_sra_examples/solutions/genai/bedrock_org/lambda/src/sra_dynamodb.py:100-105 | each ":" + a is bound to a's value |
| StateTable.UpdateExpression | aws_sra_examples/solutions/genai/bedrock_org/lambda/src/sra_dynamodb.py:98-104 | the expression is empty iff there are no attributes |
| StateTable.UpdateItem | aws_sra_examples/solutions/genai/bedrock_org/lambda/src/sra_dynamodb.py:96-116 | the loop builds "set " followed by "a=:a" per attribute joined by ", ", and the placeholder map; the key is the solution name and record id; UPDATED_NEW is asked back |
| StateTable.UpdateExpressionNamesEachAttribute | aws_sra_examples/solutions/genai/bedrock_org/lambda/src/sra_dynamodb.py:100-104 | every attribute's "a=:a" occurs in the update expression |
| StateTable.FilterNamesEachAttribute | aws_sra_examples/solutions/genai/bedrock_org/lambda/src/sra_dynamodb.py:122 | the filter is empty iff there are no attributes, and every attribute's "a = :a" occurs in it |
| StateTable.FindItemQuery | aws_sra_examples/solutions/genai/bedrock_org/lambda/src/sra_dynamodb.py:118-132 | the key condition is on the solution name; the filter, the " AND " join of the conditions, is empty iff there are no attributes and holds "a = :a" for every attribute |
| StateTable.FindItemValues | aws_sra_examples/solutions/genai/bedrock_org/lambda/src/sra_dynamodb.py:120-124 | the values hold ":solution_name" and ":a" per attribute, each ":a" bound to a's value; ":solution_name" keeps the solution name unless an attribute of that name overwrites it |
| StateTable.SelectItem | aws_sra_examples/solutions/genai/bedrock_org/lambda/src/sra_dynamodb.py:136-143 | (False, None) iff nothing matched, otherwise (True, first item), even with several matches; several matches whose first has no `record_id` raise KeyError |
| StateTable.Column | aws_sra_examples/solutions/genai/bedrock_org/lambda/src/sra_dynamodb.py:155-157 | the projection of the key over the items, and KeyError iff an item lacks it |
| StateTable.GetDistinctSolutionsAndAccounts | aws_sra_examples/solutions/genai/bedrock_org/lambda/src/sra_dynamodb.py:152-159 | the de-duplicated solution names and accounts of the scan; a missing key raises KeyError, solution names first |
| StateTable.DistinctSolutionsComplete | aws_sra_examples/solutions/genai/bedrock_org/lambda/src/sra_dynamodb.py:155-156 | a name is listed, once, iff some scanned item carries it |
| StateTable.IdAlphabetIsIdChars | aws_sra_examples/solutions/genai/bedrock_org/lambda/src/sra_dynamodb.py:75 | the alphabet is the 52 ASCII letters, the 10 digits, "-" and "_", in that order |
| StateTable.GenerateId | aws_sra_examples/solutions/genai/bedrock_org/lambda/src/sra_dynamodb.py:74-76 | a record id has 8 characters, each an ASCII letter, a digit, "-" or "_" |
| StateTable.EveryIdReachable | aws_sra_examples/solutions/genai/bedrock_org/lambda/src/sra_dynamodb.py:74-76 | every such 8-character string can be generated |
| StateTable.InsertItem | aws_sra_examples/solutions/genai/bedrock_org/lambda/src/sra_dynamodb.py:82-94 | the item holds exactly the solution name, the generated id and the time; the id and time are returned |
| Text.Split | aws_sra_examples/solutions/genai/bedrock_org/lambda/src/app.py:76 | `split` gives at least one piece and no piece contains the separator |
| Text.LastPieceIsTail | aws_sra_examples/solutions/genai/bedrock_org/lambda/src/app.py:76 | the last piece is the text after the last separator: all of it when there is none |
| Text.ReplaceChar | aws_sra_examples/solutions/genai/bedrock_org/lambda/src/app.py:139 | replacing one character keeps the length and every other character, and leaves none of the replaced one |
| Text.ReplaceAllAbsent | aws_sra_examples/solutions/genai/bedrock_org/lambda/src/app.py:221-235 | replacing a pattern that does not occur changes nothing |
| Text.ReplaceAllInserts | aws_sra_examples/solutions/genai/bedrock_org/lambda/src/app.py:221-235 | where the pattern occurs, the replacement occurs in the result |
| Text.ReplaceAllLeavesNone | aws_sra_examples/solutions/genai/bedrock_org/lambda/src/app.py:221-235 | a non-empty replacement sharing no character with the pattern leaves no occurrence of the pattern |
| Text.ReplaceAllKeepsAbsent | aws_sra_examples/solutions/genai/bedrock_org/lambda/src/app.py:233-235 | such a replacement creates no occurrence of another pattern it shares no character with |
| Text.Lower | aws_sra_examples/solutions/genai/bedrock_org/lambda/rules/sra_bedrock_check_invocation_log_s3/app.py:25 | no upper-case ASCII letter is left; every other character is kept; each upper-case letter becomes its lower-case counterpart (32 code points up) |
| Orchestrator.RepoBranch | aws_sra_examples/solutions/genai/bedrock_org/lambda/src/app.py:76 | the branch is found iff the URL contains "."; otherwise IndexError |
| Orchestrator.RepoBranchShape | aws_sra_examples/solutions/genai/bedrock_org/lambda/src/app.py:76 | the branch is the last "/"-separated segment of the second "."-separated piece: all of that piece without "/", else what follows its last "/"; it contains no "/" or "." |
| Orchestrator.ParameterError | aws_sra_examples/solutions/genai/bedrock_org/lambda/src/app.py:75-100 | reading the properties raises iff the properties or the zip URL are missing, the URL has no ".", the staging bucket parameter is not found, or DRY_RUN is missing |
| Orchestrator.RuleName | aws_sra_examples/solutions/genai/bedrock_org/lambda/src/app.py:139 | the rule name has the same length and no "_" |
| Orchestrator.ScopeAt | aws_sra_examples/solutions/genai/bedrock_org/lambda/src/app.py:141-153 | the loop variables are unbound iff no rule so far had an entry |
| Orchestrator.Targets | aws_sra_examples/solutions/genai/bedrock_org/lambda/src/app.py:138-155 | the rule loop raises UnboundLocalError iff the first rule has no entry; otherwise it yields one target per rule |
| Orchestrator.TargetsScopes | aws_sra_examples/solutions/genai/bedrock_org/lambda/src/app.py:139-153 | a rule with an entry gets its lists, empty where a key is absent; a rule without one gets the previous rule's lists |
| Orchestrator.RoleSteps | aws_sra_examples/solutions/genai/bedrock_org/lambda/src/app.py:155-156 | one role deployment per account, in order |
| Orchestrator.RegionStepsPaired | aws_sra_examples/solutions/genai/bedrock_org/lambda/src/app.py:159-164 | per region, the function and then the Config rule, for that account and rule |
| Orchestrator.PairStepsPaired | aws_sra_examples/solutions/genai/bedrock_org/lambda/src/app.py:158-164 | every function deployment is followed at once by the rule deployment for the same placement, and the loop deploys no role |
| Orchestrator.PairStepsCover | aws_sra_examples/solutions/genai/bedrock_org/lambda/src/app.py:158-164 | every listed (account, region) pair gets a function deployment |
| Orchestrator.PairStepsAccounts | aws_sra_examples/solutions/genai/bedrock_org/lambda/src/app.py:158-164 | every deployment is for a listed account and region |
| Orchestrator.RolesBeforeFunctions | aws_sra_examples/solutions/genai/bedrock_org/lambda/src/app.py:155-164 | within a rule, every role deployment precedes every function deployment, and each function's account had its role deployed first |
| Orchestrator.PlanBlocks | aws_sra_examples/solutions/genai/bedrock_org/lambda/src/app.py:138-164 | the rules are deployed one after the other, in list order |
| Orchestrator.RenderPolicy | aws_sra_examples/solutions/genai/bedrock_org/lambda/src/app.py:221-235 | the rewrite: the account id replaces "ACCOUNT_ID" in both resources, then the rule name replaces "CONFIG_RULE_NAME" in the second |
| Orchestrator.RenderClearsPlaceholders | aws_sra_examples/solutions/genai/bedrock_org/lambda/src/app.py:221-235 | with a numeric account id and a rule name without upper-case letters or "_", one rewrite leaves no placeholder |
| Orchestrator.RenderPlanFirstRoleWins | aws_sra_examples/solutions/genai/bedrock_org/lambda/src/app.py:138-164 | the document after a whole plan is the first role deployment's rewrite, when that deployment's account and rule are of that shape |
| Orchestrator.RenderedPolicyStays | aws_sra_examples/solutions/genai/bedrock_org/lambda/src/app.py:221-235 | a document without placeholders is not changed by the rewrite |
| Orchestrator.RenderFillsAccount | aws_sra_examples/solutions/genai/bedrock_org/lambda/src/app.py:221-223 | a remaining account placeholder is filled with the account id |
| Orchestrator.RenderPlanStays | aws_sra_examples/solutions/genai/bedrock_org/lambda/src/app.py:221-235 | a document with no placeholder left keeps its values through any later deployments |
| Orchestrator.RenderPlanNoRoles | aws_sra_examples/solutions/genai/bedrock_org/lambda/src/app.py:158-164 | deploying functions and rules leaves the document as it is |
| Orchestrator.IamRoleWorld | aws_sra_examples/solutions/genai/bedrock_org/lambda/src/app.py:201-264 | the accounts after a live `deploy_iam_role`: the role and the policy (with the current document) each created when absent, both policies attached, nothing else changed |
| Orchestrator.CreateFailure | aws_sra_examples/solutions/genai/bedrock_org/lambda/src/app.py:120-169 | the exception `create_event` meets first: the unbound topic ARN in a dry run without the topic, a missing rule list, an unbound scope, an unbound role ARN in a dry run, the undefined `data` for a custom resource; none otherwise |
| Orchestrator.CustomResourceCreateFails | aws_sra_examples/solutions/genai/bedrock_org/lambda/src/app.py:166-168 | with the custom-resource type a Create request always raises; in a live run past the rule loop the exception is NameError for `data` |
| Orchestrator.Ensure | aws_sra_examples/solutions/genai/bedrock_org/lambda/src/app.py:278-297 | create-if-absent: an existing entry is kept, a missing one is added, nothing else changes |
| Orchestrator.Dispatch | aws_sra_examples/solutions/genai/bedrock_org/lambda/src/app.py:351-366 | neither `Records` nor `RequestType` raises ValueError; an empty record list or a record without a source raises; an "aws:sns" first record goes to SNS; otherwise the route follows the request type |
| Orchestrator.SentResponsesShape | aws_sra_examples/solutions/genai/bedrock_org/lambda/src/app.py:165-185 | at most one response; none for resource type "Other"; FAILED iff something raised; SUCCESS iff nothing raised and the request was Update or Delete |
| Orchestrator.HandlerFails | aws_sra_examples/solutions/genai/bedrock_org/lambda/src/app.py:344-368 | the try block raises iff the properties cannot be read, the event cannot be routed, or a Create request meets `CreateFailure` |
| Orchestrator.HandlerResponse | aws_sra_examples/solutions/genai/bedrock_org/lambda/src/app.py:368-390 | status 500 with "ERROR" iff something raised, 200 with "SUCCESS" otherwise, with the clock readings and DRY_RUN |
| Orchestrator.Deployer.constructor | aws_sra_examples/solutions/genai/bedrock_org/lambda/src/app.py:36-64 | at load time: dry run on, no rule entries, empty resource type and timestamps |
| Orchestrator.Deployer.GetResourceParameters | aws_sra_examples/solutions/genai/bedrock_org/lambda/src/app.py:67-100 | raises as `ParameterError` says; sets the settings in reading order; DRY_RUN is on iff the property is exactly "true"; RULE_REGIONS_ACCOUNTS keeps its old value when absent |
| Orchestrator.Deployer.DeployIamRole | aws_sra_examples/solutions/genai/bedrock_org/lambda/src/app.py:201-264 | rewrites the document; live: role and policy created if absent and both policies attached; dry run: no change; returns the role ARN, unbound iff a dry run lacks the role |
| Orchestrator.Deployer.FindOrCreateRole | aws_sra_examples/solutions/genai/bedrock_org/lambda/src/app.py:210-219 | the existing role's ARN, or the created one when live; none in a dry run without the role |
| Orchestrator.Deployer.CreatePolicyIfAbsent | aws_sra_examples/solutions/genai/bedrock_org/lambda/src/app.py:238-247 | live: the policy is created with the document if absent; dry run: no change |
| Orchestrator.Deployer.AttachIfAbsent | aws_sra_examples/solutions/genai/bedrock_org/lambda/src/app.py:249-263 | live: the policy ends up attached to the role; dry run: no change |
| Orchestrator.Deployer.DeployLambdaFunction | aws_sra_examples/solutions/genai/bedrock_org/lambda/src/app.py:267-297 | the function is created with the given role iff absent, dry run or not; the existing or new ARN is returned |
| Orchestrator.Deployer.DeployConfigRule | aws_sra_examples/solutions/genai/bedrock_org/lambda/src/app.py:300-334 | the invoke permission and the rule on the given function are created iff the rule is absent and the run is live; otherwise no change |
| Orchestrator.Deployer.DeployRoles | aws_sra_examples/solutions/genai/bedrock_org/lambda/src/app.py:155-156 | raises iff a dry run meets an account without the role; otherwise every account has the role and the ARN of the last one is kept |
| Orchestrator.Deployer.DeployRegions | aws_sra_examples/solutions/genai/bedrock_org/lambda/src/app.py:159-164 | every region of the account gets its function (and, live, its rule); new functions use the given role; new rules invoke their function |
| Orchestrator.Deployer.DeployPlacement | aws_sra_examples/solutions/genai/bedrock_org/lambda/src/app.py:160-164 | the function and then the rule for one account and region |
| Orchestrator.Deployer.DeployPairs | aws_sra_examples/solutions/genai/bedrock_org/lambda/src/app.py:158-164 | every listed pair is deployed; every new function runs with the single role ARN given; the trace follows the loop order |
| Orchestrator.Deployer.DeployRule | aws_sra_examples/solutions/genai/bedrock_org/lambda/src/app.py:139-164 | one pass of the rule loop: raises iff a dry run lacks a role; otherwise the rule is deployed in all its accounts and regions |
| Orchestrator.Deployer.DeployRules | aws_sra_examples/solutions/genai/bedrock_org/lambda/src/app.py:138-164 | raises iff a dry run lacks some rule's role; otherwise every rule is deployed in `Plan` order; nothing is ever removed, and a dry run only adds functions |
| Orchestrator.Deployer.CreateEvent | aws_sra_examples/solutions/genai/bedrock_org/lambda/src/app.py:103-169 | raises exactly as `CreateFailure` says; a live run leaves the topic existing; past the rule loop, every rule is deployed in `Plan` order and the document is rewritten once per role deployment |
| Orchestrator.Deployer.UpdateEvent | aws_sra_examples/solutions/genai/bedrock_org/lambda/src/app.py:172-179 | one SUCCESS response with "no info" unless the resource type is "Other" |
| Orchestrator.Deployer.DeleteEvent | aws_sra_examples/solutions/genai/bedrock_org/lambda/src/app.py:182-185 | one SUCCESS response reporting the deletion unless the resource type is "Other" |
| Orchestrator.Deployer.RouteEvent | aws_sra_examples/solutions/genai/bedrock_org/lambda/src/app.py:351-366 | raises iff the event cannot be routed or a Create request raises; only a Create request changes the accounts, and a successful one deploys every rule |
| Orchestrator.Deployer.Process | aws_sra_examples/solutions/genai/bedrock_org/lambda/src/app.py:344-368 | the try block raises iff `HandlerFails`; when the properties cannot be read, nothing is sent and DRY_RUN keeps its old value; once read, DRY_RUN is on iff the property is "true" and RULE_REGIONS_ACCOUNTS takes the property when present |
| Orchestrator.Deployer.LambdaHandler | aws_sra_examples/solutions/genai/bedrock_org/lambda/src/app.py:337-390 | records the resource type and clock readings; returns 500 "ERROR" iff something raised, 200 "SUCCESS" otherwise; sends FAILED on a raise unless the resource type is "Other"; once the properties are read, DRY_RUN is on iff the property is "true" and RULE_REGIONS_ACCOUNTS takes the property when present |

## Left out

- AWS calls are not modelled as calls. The Bedrock, S3, CloudWatch Logs,
  Config, STS, IAM, Lambda, SNS and SSM services are inputs: `Call`
  responses for the rules, an SSM lookup result, and the abstract `World`.
  The clients, role assumption and the `put_evaluations` call itself are
  not modelled; the handler result is the request it would send.
- `cfnresponse.send` is recorded as an appended `CfnResponse`. The HTTP
  callback is not modelled, nor the `reason` text of the FAILED response.
- Code download, staging to S3 and the `/tmp` paths of a live
  `create_event` are file and network I/O. Only `SolutionsDir` (the
  unpack path) is recorded.
- The SNS topic's invoke permission and subscription are left out; only
  the topic's existence is modelled.
- `process_sns_records` only parses the records and is modelled as a route
  that does nothing. A malformed SNS record, which would raise there, is
  not modelled.
- The `GOVERNED_REGIONS` SSM lookup is left out: its value is unused.
- The `ACCOUNT` and `REGION` globals, `STATE_TABLE` and `DRY_RUN_DATA`
  (never filled) are left out. The STS partition and the IAM helper's
  custom-resource type name are constructor parameters. The helper
  modules that define them (`sra_sts`, `sra_iam`) are not part of this
  model.
- The solution's rule list (`repo.CONFIG_RULES`) is a constructor
  parameter. It is filled by repository code that is not part of this
  model.
- JSON decoding of `invokingEvent`, `ruleParameters` and
  `RULE_REGIONS_ACCOUNTS` is left out, including the quote replacement
  before the last one. They arrive as parsed values. A rule parameter is
  either a string or some other JSON value.
- Logging and the Lambda `context` are left out.
- The clock (`get_date_time`) and the randomness of `generate_id` are
  parameters: the timestamps, and the alphabet index of each random pick.
- `create_table` and `table_exists` are left out: a polling loop on an
  external service, with no bound. So are `get_resources_for_solutions_by_account`,
  which only forwards queries to the table, and the boto3 session set-up
  of the DynamoDB helper.
- `str.lower` is modelled as ASCII lower-casing; Unicode case mappings of
  other characters are not modelled.
- `Orchestrator.Deployer.CreateEvent`: when it raises anything other than
  the undefined `data`, it states only that nothing was removed and that a
  dry run added nothing but functions. It does not state which deployments
  ran before the raise.
- `Orchestrator.Deployer.LambdaHandler`: states the response, the
  responses sent, the resource type and clock readings, and the DRY_RUN
  and RULE_REGIONS_ACCOUNTS settings once the properties are read. It
  states the deployed resources only through `HandlerFails`; `RouteEvent`
  and `CreateEvent` state them.
- `Orchestrator.Deployer.DeployLambdaFunction`: the Lambda create call is
  taken to succeed whenever the function is absent, even in a dry run in
  which this invocation has not staged the rule's zip (app.py:108-116,
  281-292). Whether it succeeds depends on the Lambda helper and on files
  an earlier invocation left behind, which are not part of this model.
- `Orchestrator.Deployer.GetResourceParameters`: models the staging-bucket
  SSM call as an input that was found or not; what it returns when the
  parameter is missing comes from the SSM helper, which is not part of this
  model.
- `StateTable.Item` and `StateTable.Attributes` hold string values only.
  DynamoDB attribute values of other types are not modelled; none of the
  modelled logic depends on the value type.
- `Orchestrator.NoRouteMessage` stops before the log group name that the
  ValueError message goes on to quote, because the Lambda context is not
  modelled.
