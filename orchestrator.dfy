/** The Lambda function that deploys the Bedrock organisation solution's
    custom AWS Config rules: it reads its CloudFormation resource properties
    into module-level settings, and on a Create request stages the rule code,
    makes sure the solution's SNS topic exists and, for every rule, deploys
    an IAM execution role per account and a rule Lambda function and Config
    rule per account and region, each only when it does not exist yet. Every
    exception ends in a 500 response.

    The module-level globals and the fields the code sets on its helper
    objects are the fields of `Deployer`; the AWS accounts it deploys into
    are an abstract `World` of existing resources. */
module Orchestrator {
  import opened Base
  import opened Text

  const SolutionName := "sra-bedrock-org"
  const CfnResourceId := "sra-s3-function"
  const ConfigurationRole := "sra-execution"
  const TopicName := SolutionName + "-configuration"
  /** The suffix of the per-rule policy name, spelled as the code spells it. */
  const BasicExecutionSuffix := "-lamdba-basic-execution"
  const ConfigInvokeStatement := "config-invoke"
  const AccountPlaceholder := "ACCOUNT_ID"
  const RuleNamePlaceholder := "CONFIG_RULE_NAME"
  const StagingBucketMessage :=
    "Error retrieving SRA staging bucket ssm parameter.  Is the SRA common prerequisites solution deployed?"
  /** The ValueError message for an event that cannot be routed, up to the
      log group name it goes on to quote (the Lambda context is not modelled). */
  const NoRouteMessage := "The event did not include Records or RequestType."
  /** The physical resource id of the FAILED response. */
  const FailedResourceId := "sra-s3-lambda"

  // ---------------------------------------------------------------------
  // The invocation event

  /** One entry of `RULE_REGIONS_ACCOUNTS`: the accounts and the regions of a
      rule, `None` where the entry has no such key. */
  datatype RuleScope = RuleScope(accounts: Option<seq<string>>, regions: Option<seq<string>>)

  /** `event["ResourceProperties"]`, with `RULE_REGIONS_ACCOUNTS` already parsed. */
  datatype ResourceProperties = ResourceProperties(
    repoZipUrl: Option<string>,
    ruleRegionsAccounts: Option<map<string, RuleScope>>,
    dryRun: Option<string>)

  datatype Record = Record(eventSource: Option<string>)

  /** The invocation event; a `None` is a key the event does not carry. */
  datatype Event = Event(
    resourceType: Option<string>,
    resourceProperties: Option<ResourceProperties>,
    records: Option<seq<Record>>,
    requestType: Option<string>)

  /** The SSM lookup of the staging bucket name: whether it was found, and its value. */
  datatype SsmParameter = SsmParameter(found: bool, value: string)

  datatype CfnStatus = CfnSuccess | CfnFailed

  /** One `cfnresponse.send` call. */
  datatype CfnResponse = CfnResponse(status: CfnStatus, data: map<string, string>, physicalResourceId: string)

  /** The dictionary the handler returns. */
  datatype Response = Response(
    statusCode: int,
    lambdaStart: string,
    lambdaFinish: string,
    body: string,
    dryRun: bool,
    dryRunData: map<string, string>)

  // ---------------------------------------------------------------------
  // Resource properties

  /** `url.split(".")[1].split("/")[-1]`: the last "/"-separated segment of
      the second "."-separated piece; IndexError when the URL has no ".". */
  function RepoBranch(url: string): (r: Result<string, Exception>)
    ensures r.Success? <==> '.' in url
    ensures r.Failure? ==> r.error == IndexError
  {
    SplitCount(url, '.');
    var pieces := Split(url, '.');
    if |pieces| < 2 then Failure(IndexError)
    else
      var segments := Split(pieces[1], '/');
      Success(segments[|segments| - 1])
  }

  /** The branch is a tail of the text between the first and the second ".":
      all of it when that text has no "/", otherwise what follows its last
      "/"; it contains neither "/" nor ".". */
  lemma RepoBranchShape(url: string)
    requires '.' in url
    ensures |Split(url, '.')| >= 2
    ensures var piece := Split(url, '.')[1];
            var branch := RepoBranch(url).value;
            && IsSuffix(branch, piece)
            && '/' !in branch && '.' !in branch
            && ('/' !in piece ==> branch == piece)
            && ('/' in piece ==> |branch| < |piece| && piece[|piece| - |branch| - 1] == '/')
  {
    SplitCount(url, '.');
    var piece := Split(url, '.')[1];
    var segments := Split(piece, '/');
    LastPieceIsTail(piece, '/');
    SplitCount(piece, '/');
    var branch := segments[|segments| - 1];
    assert branch == piece[|piece| - |branch|..];
    forall i | 0 <= i < |branch| ensures branch[i] != '.' {
      assert branch[i] == piece[|piece| - |branch| + i];
    }
  }

  const ExtractPrefix := "/tmp/aws-security-reference-architecture-examples-"
  const SolutionsSuffix := "/aws_sra_examples/solutions"

  /** Where the downloaded repository's solutions are unpacked. */
  function SolutionsDir(branch: string): string {
    ExtractPrefix + branch + SolutionsSuffix
  }

  /** The exception `get_resource_parameters` raises, in the order it reads
      the event: a missing key, a zip URL without ".", a staging bucket
      parameter that was not found, a missing DRY_RUN. */
  function ParameterError(event: Event, staging: SsmParameter): (e: Option<Exception>)
    ensures e.None? <==>
              && event.resourceProperties.Some? && event.resourceProperties.value.repoZipUrl.Some?
              && '.' in event.resourceProperties.value.repoZipUrl.value
              && staging.found && event.resourceProperties.value.dryRun.Some?
  {
    match event.resourceProperties
    case None => Some(KeyError("ResourceProperties"))
    case Some(props) =>
      if props.repoZipUrl.None? then Some(KeyError("SRA_REPO_ZIP_URL"))
      else if RepoBranch(props.repoZipUrl.value).Failure? then Some(IndexError)
      else if !staging.found then Some(ValueError(StagingBucketMessage))
      else if props.dryRun.None? then Some(KeyError("DRY_RUN"))
      else None
  }

  // ---------------------------------------------------------------------
  // Rules, their accounts and regions

  /** `rule.replace("_", "-")`. */
  function RuleName(rule: string): (name: string)
    ensures |name| == |rule| && '_' !in name
  {
    ReplaceChar(rule, '_', '-')
  }

  /** The accounts and regions a rule is deployed to. */
  datatype Target = Target(ruleName: string, accounts: seq<string>, regions: seq<string>)

  /** The accounts and regions in force for the `i`-th rule: its own entry
      (an absent list is empty) when the rule is in the map, otherwise those
      left over from the rule before it; `None` when no rule so far had an
      entry (the loop variables are still unbound). */
  function ScopeAt(rules: seq<string>, scopes: map<string, RuleScope>, i: nat): (r: Option<(seq<string>, seq<string>)>)
    requires i < |rules|
    ensures r.None? <==> forall k :: 0 <= k <= i ==> RuleName(rules[k]) !in scopes
  {
    var name := RuleName(rules[i]);
    if name in scopes then Some((scopes[name].accounts.GetOr([]), scopes[name].regions.GetOr([])))
    else if i == 0 then None
    else ScopeAt(rules, scopes, i - 1)
  }

  /** What the rule loop deploys, rule by rule; UnboundLocalError when the
      first rule has no entry (a later rule without one reuses the previous
      rule's accounts and regions). */
  function Targets(rules: seq<string>, scopes: map<string, RuleScope>): (r: Result<seq<Target>, Exception>)
    ensures r.Success? <==> |rules| == 0 || RuleName(rules[0]) in scopes
    ensures r.Failure? ==> r.error == UnboundLocalError("rule_accounts")
    ensures r.Success? ==> |r.value| == |rules|
  {
    if |rules| > 0 && RuleName(rules[0]) !in scopes then Failure(UnboundLocalError("rule_accounts"))
    else
      Success(seq(|rules|, i requires 0 <= i < |rules| => TargetAt(rules, scopes, i)))
  }

  /** The accounts and regions the `i`-th rule's loops run over (empty where unbound). */
  function TargetAt(rules: seq<string>, scopes: map<string, RuleScope>, i: nat): Target
    requires i < |rules|
  {
    var s := ScopeAt(rules, scopes, i);
    if s.Some? then Target(RuleName(rules[i]), s.value.0, s.value.1) else Target(RuleName(rules[i]), [], [])
  }

  /** Each rule is deployed under its normalised name; a rule with an entry
      gets the entry's lists, empty where a key is absent; a rule without one
      gets exactly what the rule before it got. */
  lemma TargetsScopes(rules: seq<string>, scopes: map<string, RuleScope>, i: nat)
    requires Targets(rules, scopes).Success? && i < |rules|
    ensures var ts := Targets(rules, scopes).value;
            var name := RuleName(rules[i]);
            && ts[i].ruleName == name
            && (name in scopes ==>
                  ts[i].accounts == scopes[name].accounts.GetOr([]) && ts[i].regions == scopes[name].regions.GetOr([]))
            && (name !in scopes ==> i > 0 && ts[i].accounts == ts[i - 1].accounts && ts[i].regions == ts[i - 1].regions)
  {
    var ts := Targets(rules, scopes).value;
    assert ts[i] == TargetAt(rules, scopes, i);
    if RuleName(rules[i]) !in scopes {
      assert i > 0;
      assert ts[i - 1] == TargetAt(rules, scopes, i - 1);
      assert ScopeAt(rules, scopes, i) == ScopeAt(rules, scopes, i - 1);
      assert ScopeAt(rules, scopes, i - 1).Some?;
    }
  }

  // ---------------------------------------------------------------------
  // The order of deployment

  datatype Step =
    | RoleDeployed(account: string, ruleName: string)
    | LambdaDeployed(account: string, region: string, ruleName: string)
    | RuleDeployed(account: string, region: string, ruleName: string)

  /** The role loop: one role deployment per listed account, in order. */
  function RoleSteps(accounts: seq<string>, name: string): (r: seq<Step>)
    ensures |r| == |accounts| && forall j :: 0 <= j < |accounts| ==> r[j] == RoleDeployed(accounts[j], name)
  {
    seq(|accounts|, j requires 0 <= j < |accounts| => RoleDeployed(accounts[j], name))
  }

  /** The region loop for one account: a Lambda function, then its Config rule, per region. */
  function RegionSteps(account: string, regions: seq<string>, name: string): seq<Step> {
    if |regions| == 0 then []
    else
      var m := |regions| - 1;
      RegionSteps(account, regions[..m], name) +
        [LambdaDeployed(account, regions[m], name), RuleDeployed(account, regions[m], name)]
  }

  /** The account-and-region loop. */
  function PairSteps(accounts: seq<string>, regions: seq<string>, name: string): seq<Step> {
    if |accounts| == 0 then []
    else
      var n := |accounts| - 1;
      PairSteps(accounts[..n], regions, name) + RegionSteps(accounts[n], regions, name)
  }

  /** What one rule deploys: all its roles, then all its functions and rules. */
  function Block(t: Target): seq<Step> {
    RoleSteps(t.accounts, t.ruleName) + PairSteps(t.accounts, t.regions, t.ruleName)
  }

  /** The rule loop. */
  function Plan(ts: seq<Target>): seq<Step> {
    if |ts| == 0 then []
    else
      var n := |ts| - 1;
      Plan(ts[..n]) + Block(ts[n])
  }

  /** In the region loop, every function deployment is immediately followed
      by the deployment of the Config rule for the same account and region,
      and every Config rule deployment immediately follows one. */
  lemma {:induction false} RegionStepsPaired(account: string, regions: seq<string>, name: string)
    ensures var s := RegionSteps(account, regions, name);
            && |s| == 2 * |regions|
            && (forall i :: 0 <= i < |s| ==> s[i].account == account && s[i].ruleName == name && !s[i].RoleDeployed?)
            && (forall i :: 0 <= i < |s| && i % 2 == 0 ==> s[i] == LambdaDeployed(account, regions[i / 2], name))
            && (forall i :: 0 <= i < |s| && i % 2 == 1 ==> s[i] == RuleDeployed(account, regions[i / 2], name))
  {
    if |regions| > 0 {
      var m := |regions| - 1;
      RegionStepsPaired(account, regions[..m], name);
      var s := RegionSteps(account, regions, name);
      var p := RegionSteps(account, regions[..m], name);
      assert s == p + [LambdaDeployed(account, regions[m], name), RuleDeployed(account, regions[m], name)];
      forall i | 0 <= i < |s|
        ensures s[i].account == account && s[i].ruleName == name && !s[i].RoleDeployed?
        ensures i % 2 == 0 ==> s[i] == LambdaDeployed(account, regions[i / 2], name)
        ensures i % 2 == 1 ==> s[i] == RuleDeployed(account, regions[i / 2], name)
      {
        if i < |p| {
          assert s[i] == p[i];
          assert regions[..m][i / 2] == regions[i / 2];
        }
      }
    }
  }

  lemma RoleTraceStep(trace0: seq<Step>, accounts: seq<string>, j: nat, name: string)
    requires j < |accounts|
    ensures trace0 + RoleSteps(accounts[..j], name) + [RoleDeployed(accounts[j], name)] == trace0 + RoleSteps(accounts[..j + 1], name)
  {
    assert RoleSteps(accounts[..j + 1], name) == RoleSteps(accounts[..j], name) + [RoleDeployed(accounts[j], name)];
  }

  lemma RegionTraceStep(trace0: seq<Step>, account: string, regions: seq<string>, m: nat, name: string)
    requires m < |regions|
    ensures trace0 + RegionSteps(account, regions[..m], name) + [LambdaDeployed(account, regions[m], name)]
              + [RuleDeployed(account, regions[m], name)] == trace0 + RegionSteps(account, regions[..m + 1], name)
  {
    assert regions[..m + 1][..m] == regions[..m];
  }

  lemma PairTraceStep(trace0: seq<Step>, accounts: seq<string>, regions: seq<string>, j: nat, name: string)
    requires j < |accounts|
    ensures trace0 + PairSteps(accounts[..j], regions, name) + RegionSteps(accounts[j], regions, name)
              == trace0 + PairSteps(accounts[..j + 1], regions, name)
  {
    assert accounts[..j + 1][..j] == accounts[..j];
  }

  /** Every function deployment is followed at once by the Config rule
      deployment for the same account and region, and every Config rule
      deployment follows one. */
  predicate Paired(s: seq<Step>) {
    && (forall i :: 0 <= i < |s| && s[i].LambdaDeployed? ==>
          i + 1 < |s| && s[i + 1] == RuleDeployed(s[i].account, s[i].region, s[i].ruleName))
    && (forall i :: 0 <= i < |s| && s[i].RuleDeployed? ==>
          0 < i && s[i - 1] == LambdaDeployed(s[i].account, s[i].region, s[i].ruleName))
  }

  /** No role is deployed, and everything is for the one rule. */
  predicate NoRolesFor(s: seq<Step>, name: string) {
    forall i :: 0 <= i < |s| ==> !s[i].RoleDeployed? && s[i].ruleName == name
  }

  lemma PairedAppend(p: seq<Step>, q: seq<Step>)
    requires Paired(p) && Paired(q)
    ensures Paired(p + q)
  {
    var s := p + q;
    forall i | 0 <= i < |s| && s[i].LambdaDeployed?
      ensures i + 1 < |s| && s[i + 1] == RuleDeployed(s[i].account, s[i].region, s[i].ruleName)
    {
      if i < |p| {
        assert s[i] == p[i];
        assert s[i + 1] == p[i + 1];
      } else {
        assert s[i] == q[i - |p|];
        assert s[i + 1] == q[i + 1 - |p|];
      }
    }
    forall i | 0 <= i < |s| && s[i].RuleDeployed?
      ensures 0 < i && s[i - 1] == LambdaDeployed(s[i].account, s[i].region, s[i].ruleName)
    {
      if i < |p| {
        assert s[i] == p[i];
        assert s[i - 1] == p[i - 1];
      } else {
        assert s[i] == q[i - |p|];
        assert s[i - 1] == q[i - 1 - |p|];
      }
    }
  }

  lemma NoRolesForAppend(p: seq<Step>, q: seq<Step>, name: string)
    requires NoRolesFor(p, name) && NoRolesFor(q, name)
    ensures NoRolesFor(p + q, name)
  {
    forall i | 0 <= i < |p + q| ensures !(p + q)[i].RoleDeployed? && (p + q)[i].ruleName == name {
      if i < |p| { assert (p + q)[i] == p[i]; } else { assert (p + q)[i] == q[i - |p|]; }
    }
  }

  /** The account-and-region loop deploys no role, and every function
      deployment in it is followed at once by its Config rule deployment. */
  lemma {:induction false} PairStepsPaired(accounts: seq<string>, regions: seq<string>, name: string)
    ensures Paired(PairSteps(accounts, regions, name)) && NoRolesFor(PairSteps(accounts, regions, name), name)
  {
    if |accounts| > 0 {
      var n := |accounts| - 1;
      PairStepsPaired(accounts[..n], regions, name);
      RegionStepsPairedUp(accounts[n], regions, name);
      PairedAppend(PairSteps(accounts[..n], regions, name), RegionSteps(accounts[n], regions, name));
      NoRolesForAppend(PairSteps(accounts[..n], regions, name), RegionSteps(accounts[n], regions, name), name);
    }
  }

  lemma RegionStepsPairedUp(account: string, regions: seq<string>, name: string)
    ensures Paired(RegionSteps(account, regions, name)) && NoRolesFor(RegionSteps(account, regions, name), name)
  {
    var s := RegionSteps(account, regions, name);
    RegionStepsPaired(account, regions, name);
    forall i | 0 <= i < |s| && s[i].LambdaDeployed?
      ensures i + 1 < |s| && s[i + 1] == RuleDeployed(s[i].account, s[i].region, s[i].ruleName)
    {
      assert i % 2 == 0;
      assert (i + 1) / 2 == i / 2;
    }
    forall i | 0 <= i < |s| && s[i].RuleDeployed?
      ensures 0 < i && s[i - 1] == LambdaDeployed(s[i].account, s[i].region, s[i].ruleName)
    {
      assert i % 2 == 1;
      assert (i - 1) / 2 == i / 2;
    }
  }

  /** Every listed (account, region) pair is covered by the account-and-region loop. */
  lemma {:induction false} PairStepsCover(accounts: seq<string>, regions: seq<string>, name: string, a: string, r: string)
    requires a in accounts && r in regions
    ensures LambdaDeployed(a, r, name) in PairSteps(accounts, regions, name)
  {
    var n := |accounts| - 1;
    var q := RegionSteps(accounts[n], regions, name);
    assert PairSteps(accounts, regions, name) == PairSteps(accounts[..n], regions, name) + q;
    if accounts[n] == a {
      RegionStepsPaired(a, regions, name);
      var k :| 0 <= k < |regions| && regions[k] == r;
      assert q[2 * k] == LambdaDeployed(a, r, name);
    } else {
      assert a in accounts[..n] by {
        var j :| 0 <= j < |accounts| && accounts[j] == a;
        assert accounts[..n][j] == a;
      }
      PairStepsCover(accounts[..n], regions, name, a, r);
    }
  }

  /** Within one rule, every role is deployed before any function, and the
      account of every function deployment had its role deployed first. */
  lemma RolesBeforeFunctions(t: Target)
    ensures var b := Block(t);
            && (forall i, j :: 0 <= i < |b| && 0 <= j < |b| && b[i].RoleDeployed? && b[j].LambdaDeployed? ==> i < j)
            && (forall j :: 0 <= j < |b| && b[j].LambdaDeployed? ==>
                  exists i :: 0 <= i < j && b[i] == RoleDeployed(b[j].account, t.ruleName))
  {
    var b := Block(t);
    var rs := RoleSteps(t.accounts, t.ruleName);
    var ps := PairSteps(t.accounts, t.regions, t.ruleName);
    PairStepsPaired(t.accounts, t.regions, t.ruleName);
    assert b == rs + ps;
    forall j | 0 <= j < |b| && b[j].LambdaDeployed?
      ensures exists i :: 0 <= i < j && b[i] == RoleDeployed(b[j].account, t.ruleName)
    {
      assert j >= |rs|;
      PairStepsAccounts(t.accounts, t.regions, t.ruleName, j - |rs|);
      var a := b[j].account;
      var i :| 0 <= i < |t.accounts| && t.accounts[i] == a;
      assert b[i] == RoleDeployed(a, t.ruleName);
    }
  }

  /** Each step of the account-and-region loop is for a listed account and region. */
  lemma {:induction false} PairStepsAccounts(accounts: seq<string>, regions: seq<string>, name: string, i: nat)
    requires i < |PairSteps(accounts, regions, name)|
    ensures PairSteps(accounts, regions, name)[i].account in accounts
    ensures !PairSteps(accounts, regions, name)[i].RoleDeployed? ==> PairSteps(accounts, regions, name)[i].region in regions
  {
    var n := |accounts| - 1;
    var p := PairSteps(accounts[..n], regions, name);
    var q := RegionSteps(accounts[n], regions, name);
    assert PairSteps(accounts, regions, name) == p + q;
    if i < |p| {
      PairStepsAccounts(accounts[..n], regions, name, i);
      assert PairSteps(accounts, regions, name)[i] == p[i];
    } else {
      RegionStepsPaired(accounts[n], regions, name);
      assert PairSteps(accounts, regions, name)[i] == q[i - |p|];
    }
  }

  /** The rules are deployed one after the other: the steps of the first
      `k` rules, then those of rule `k`, begin the whole plan. */
  lemma {:induction false} PlanBlocks(ts: seq<Target>, k: nat)
    requires k < |ts|
    ensures Plan(ts[..k]) + Block(ts[k]) <= Plan(ts)
    decreases |ts|
  {
    var n := |ts| - 1;
    assert ts[..n + 1] == ts;
    if k < n {
      PlanBlocks(ts[..n], k);
      assert ts[..n][..k] == ts[..k];
      assert ts[..n][k] == ts[k];
      assert Plan(ts) == Plan(ts[..n]) + Block(ts[n]);
    }
  }

  // ---------------------------------------------------------------------
  // The policy document rewritten in place

  /** The two `Resource` strings of the `sra-lambda-basic-execution` policy
      document's statements. */
  datatype Policy = Policy(resource0: string, resource1: string)

  /** The rewrite `deploy_iam_role` applies to the shared document: the
      account id into both resources, the rule name into the second. */
  function RenderPolicy(p: Policy, account: string, ruleName: string): Policy {
    Policy(ReplaceAll(p.resource0, AccountPlaceholder, account),
           ReplaceAll(ReplaceAll(p.resource1, AccountPlaceholder, account), RuleNamePlaceholder, ruleName))
  }

  /** A document without placeholders is no longer changed by the rewrite:
      whatever account or rule comes later, it keeps the first one's values. */
  lemma RenderedPolicyStays(p: Policy, account: string, ruleName: string)
    requires !Occurs(p.resource0, AccountPlaceholder) && !Occurs(p.resource1, AccountPlaceholder)
    requires !Occurs(p.resource1, RuleNamePlaceholder)
    ensures RenderPolicy(p, account, ruleName) == p
  {
    ReplaceAllAbsent(p.resource0, AccountPlaceholder, account);
    ReplaceAllAbsent(p.resource1, AccountPlaceholder, account);
    ReplaceAllAbsent(p.resource1, RuleNamePlaceholder, ruleName);
  }

  /** A placeholder that is still there is filled with the account id. */
  lemma RenderFillsAccount(p: Policy, account: string, ruleName: string)
    requires Occurs(p.resource0, AccountPlaceholder)
    ensures Occurs(RenderPolicy(p, account, ruleName).resource0, account)
  {
    ReplaceAllInserts(p.resource0, AccountPlaceholder, account);
  }

  /** The document after a sequence of deployments: rewritten once per role deployment. */
  function RenderPlan(p: Policy, steps: seq<Step>): Policy {
    if |steps| == 0 then p
    else
      var n := |steps| - 1;
      var q := RenderPlan(p, steps[..n]);
      if steps[n].RoleDeployed? then RenderPolicy(q, steps[n].account, steps[n].ruleName) else q
  }

  lemma {:induction false} RenderPlanAppend(p: Policy, s: seq<Step>, t: seq<Step>)
    ensures RenderPlan(p, s + t) == RenderPlan(RenderPlan(p, s), t)
    decreases |t|
  {
    if |t| == 0 {
      assert s + t == s;
    } else {
      var n := |t| - 1;
      assert (s + t)[..|s| + n] == s + t[..n];
      RenderPlanAppend(p, s, t[..n]);
    }
  }

  /** Once the document has no placeholders left, no later deployment changes it. */
  lemma {:induction false} RenderPlanStays(p: Policy, steps: seq<Step>)
    requires !Occurs(p.resource0, AccountPlaceholder) && !Occurs(p.resource1, AccountPlaceholder)
    requires !Occurs(p.resource1, RuleNamePlaceholder)
    ensures RenderPlan(p, steps) == p
  {
    if |steps| > 0 {
      var n := |steps| - 1;
      RenderPlanStays(p, steps[..n]);
      if steps[n].RoleDeployed? {
        RenderedPolicyStays(p, steps[n].account, steps[n].ruleName);
      }
    }
  }

  /** Steps that deploy no role leave the document as it is. */
  lemma {:induction false} RenderPlanNoRoles(p: Policy, steps: seq<Step>)
    requires forall i :: 0 <= i < |steps| ==> !steps[i].RoleDeployed?
    ensures RenderPlan(p, steps) == p
  {
    if |steps| > 0 {
      RenderPlanNoRoles(p, steps[..|steps| - 1]);
    }
  }

  /** An AWS account id: a non-empty string of decimal digits. */
  predicate NumericAccount(a: string) {
    |a| > 0 && forall k :: 0 <= k < |a| ==> '0' <= a[k] <= '9'
  }

  /** A rule name without upper-case letters and without '_', as the rule
      list's names are once `RuleName` has rewritten them: it cannot spell
      any part of a placeholder. */
  predicate PlainRuleName(n: string) {
    |n| > 0 && forall k :: 0 <= k < |n| ==> !('A' <= n[k] <= 'Z') && n[k] != '_'
  }

  /** The placeholders are spelled with upper-case letters and '_' only. */
  lemma PlaceholderAlphabet()
    ensures forall ch :: ch in AccountPlaceholder ==> 'A' <= ch <= 'Z' || ch == '_'
    ensures forall ch :: ch in RuleNamePlaceholder ==> 'A' <= ch <= 'Z' || ch == '_'
  {
    forall ch | ch in AccountPlaceholder
      ensures 'A' <= ch <= 'Z' || ch == '_'
    {
      var i :| 0 <= i < |AccountPlaceholder| && AccountPlaceholder[i] == ch;
    }
    forall ch | ch in RuleNamePlaceholder
      ensures 'A' <= ch <= 'Z' || ch == '_'
    {
      var i :| 0 <= i < |RuleNamePlaceholder| && RuleNamePlaceholder[i] == ch;
    }
  }

  /** One rewrite with a numeric account id and a plain rule name leaves no
      placeholder in the document. */
  lemma RenderClearsPlaceholders(p: Policy, account: string, ruleName: string)
    requires NumericAccount(account) && PlainRuleName(ruleName)
    ensures var q := RenderPolicy(p, account, ruleName);
            && !Occurs(q.resource0, AccountPlaceholder)
            && !Occurs(q.resource1, AccountPlaceholder)
            && !Occurs(q.resource1, RuleNamePlaceholder)
  {
    PlaceholderAlphabet();
    assert Disjoint(account, AccountPlaceholder);
    assert Disjoint(ruleName, AccountPlaceholder) && Disjoint(ruleName, RuleNamePlaceholder);
    var r1 := ReplaceAll(p.resource1, AccountPlaceholder, account);
    ReplaceAllLeavesNone(p.resource0, AccountPlaceholder, account);
    ReplaceAllLeavesNone(p.resource1, AccountPlaceholder, account);
    ReplaceAllKeepsAbsent(r1, RuleNamePlaceholder, ruleName, AccountPlaceholder);
    ReplaceAllLeavesNone(r1, RuleNamePlaceholder, ruleName);
  }

  /** The document is filled once: after a plan whose first role deployment
      has a numeric account id and a plain rule name, the document is that
      deployment's rewrite, whatever accounts and rules follow. */
  lemma RenderPlanFirstRoleWins(p: Policy, steps: seq<Step>, k: nat)
    requires k < |steps| && steps[k].RoleDeployed?
    requires forall i :: 0 <= i < k ==> !steps[i].RoleDeployed?
    requires NumericAccount(steps[k].account) && PlainRuleName(steps[k].ruleName)
    ensures RenderPlan(p, steps) == RenderPolicy(p, steps[k].account, steps[k].ruleName)
  {
    var q := RenderPolicy(p, steps[k].account, steps[k].ruleName);
    assert forall i :: 0 <= i < |steps[..k]| ==> steps[..k][i] == steps[i];
    RenderPlanNoRoles(p, steps[..k]);
    assert steps[..k + 1][..k] == steps[..k];
    assert RenderPlan(p, steps[..k + 1]) == q;
    RenderClearsPlaceholders(p, steps[k].account, steps[k].ruleName);
    RenderPlanStays(q, steps[k + 1..]);
    RenderPlanAppend(p, steps[..k + 1], steps[k + 1..]);
    assert steps[..k + 1] + steps[k + 1..] == steps;
  }

  // ---------------------------------------------------------------------
  // The AWS accounts deployed into

  datatype Function = Function(arn: string, role: string)

  /** The resources that exist: SNS topics of the management account, IAM
      roles by (account, name), IAM policies by ARN, role-policy attachments
      (account, role, policy ARN), Lambda functions and Config rules by
      (account, region, name), and Lambda permissions (account, region,
      function, statement id). */
  datatype World = World(
    topics: set<string>,
    roles: map<(string, string), string>,
    policies: map<string, Policy>,
    attachments: set<(string, string, string)>,
    functions: map<(string, string, string), Function>,
    permissions: set<(string, string, string, string)>,
    rules: map<(string, string, string), string>)

  predicate SubMap<K(!new), V(==)>(m0: map<K, V>, m1: map<K, V>) {
    forall k :: k in m0 ==> k in m1 && m1[k] == m0[k]
  }

  /** Nothing is deleted and nothing existing is replaced. */
  predicate Grows(w0: World, w1: World) {
    && w0.topics <= w1.topics && SubMap(w0.roles, w1.roles) && SubMap(w0.policies, w1.policies)
    && w0.attachments <= w1.attachments && SubMap(w0.functions, w1.functions)
    && w0.permissions <= w1.permissions && SubMap(w0.rules, w1.rules)
  }

  /** Create-if-absent on a map: an existing entry is kept as it is. */
  function Ensure<K(!new), V>(m: map<K, V>, k: K, v: V): (r: map<K, V>)
    ensures k in r && r[k] == (if k in m then m[k] else v)
    ensures forall x :: x in r <==> x in m || x == k
    ensures forall x :: x in m ==> r[x] == m[x]
  {
    if k in m then m else m[k := v]
  }

  function RoleArn(partition: string, account: string, name: string): string {
    "arn:" + partition + ":iam::" + account + ":role/" + name
  }

  function PolicyArn(partition: string, account: string, ruleName: string): string {
    "arn:" + partition + ":iam::" + account + ":policy/" + ruleName + BasicExecutionSuffix
  }

  function ConfigRulesPolicyArn(partition: string): string {
    "arn:" + partition + ":iam::aws:policy/service-role/AWSConfigRulesExecutionRole"
  }

  function FunctionArn(partition: string, account: string, region: string, name: string): string {
    "arn:" + partition + ":lambda:" + region + ":" + account + ":function:" + name
  }

  /** A function and, outside a dry run, its Config rule exist for the placement. */
  predicate PairDeployed(w: World, account: string, region: string, name: string, dryRun: bool) {
    (account, region, name) in w.functions && (!dryRun ==> (account, region, name) in w.rules)
  }

  lemma AccountDeployedStep(w0: World, w: World, accounts: seq<string>, regions: seq<string>, j: nat, name: string, dryRun: bool)
    requires j < |accounts| && Grows(w0, w)
    requires forall a, r :: a in accounts[..j] && r in regions ==> PairDeployed(w0, a, r, name, dryRun)
    requires forall r :: r in regions ==> PairDeployed(w, accounts[j], r, name, dryRun)
    ensures forall a, r :: a in accounts[..j + 1] && r in regions ==> PairDeployed(w, a, r, name, dryRun)
  {
    forall a, r | a in accounts[..j + 1] && r in regions ensures PairDeployed(w, a, r, name, dryRun) {
      var i :| 0 <= i < j + 1 && accounts[..j + 1][i] == a;
      if i < j {
        assert accounts[..j][i] == a;
        assert PairDeployed(w0, a, r, name, dryRun);
      }
    }
  }

  lemma PairDeployedStep(w0: World, w: World, account: string, regions: seq<string>, m: nat, name: string, dryRun: bool)
    requires m < |regions| && Grows(w0, w)
    requires forall r :: r in regions[..m] ==> PairDeployed(w0, account, r, name, dryRun)
    requires PairDeployed(w, account, regions[m], name, dryRun)
    ensures forall r :: r in regions[..m + 1] ==> PairDeployed(w, account, r, name, dryRun)
  {
    forall r | r in regions[..m + 1] ensures PairDeployed(w, account, r, name, dryRun) {
      var i :| 0 <= i < m + 1 && regions[..m + 1][i] == r;
      if i < m {
        assert regions[..m][i] == r;
        assert PairDeployed(w0, account, r, name, dryRun);
      }
    }
  }

  /** Everything of one rule exists: outside a dry run its role in every
      account, and its functions (and rules) in every account and region. */
  predicate Deployed(w: World, t: Target, dryRun: bool) {
    && (forall a :: a in t.accounts && !dryRun ==> (a, t.ruleName) in w.roles)
    && (forall a, r :: a in t.accounts && r in t.regions ==> PairDeployed(w, a, r, t.ruleName, dryRun))
  }

  lemma DeployedGrows(w0: World, w1: World, t: Target, dryRun: bool)
    requires Grows(w0, w1) && Deployed(w0, t, dryRun)
    ensures Deployed(w1, t, dryRun)
  {
    forall a, r | a in t.accounts && r in t.regions
      ensures PairDeployed(w1, a, r, t.ruleName, dryRun)
    {
      assert PairDeployed(w0, a, r, t.ruleName, dryRun);
    }
  }

  /** Every listed account has the rule's role. */
  predicate HasRoles(roles: map<(string, string), string>, accounts: seq<string>, ruleName: string) {
    forall a :: a in accounts ==> (a, ruleName) in roles
  }

  lemma HasRolesStep(roles0: map<(string, string), string>, roles: map<(string, string), string>,
                     accounts: seq<string>, j: nat, ruleName: string)
    requires j < |accounts| && HasRoles(roles0, accounts[..j], ruleName) && SubMap(roles0, roles)
    requires (accounts[j], ruleName) in roles
    ensures HasRoles(roles, accounts[..j + 1], ruleName)
  {
    forall a | a in accounts[..j + 1] ensures (a, ruleName) in roles {
      var i :| 0 <= i < j + 1 && accounts[..j + 1][i] == a;
      if i < j {
        assert accounts[..j][i] == a;
      }
    }
  }

  /** Some account of some rule has no role, which a dry run cannot create. */
  predicate RoleMissing(roles: map<(string, string), string>, ts: seq<Target>) {
    exists k :: 0 <= k < |ts| && !HasRoles(roles, ts[k].accounts, ts[k].ruleName)
  }

  /** The functions created since `w0` all run with the given role. */
  predicate NewFunctionsUse(w0: World, w: World, partition: string, roleArn: string) {
    forall k :: k in w.functions && k !in w0.functions ==>
      w.functions[k] == Function(FunctionArn(partition, k.0, k.1, k.2), roleArn)
  }

  /** The Config rules created since `w0` all invoke the function of the
      same account, region and name. */
  predicate NewRulesInvoke(w0: World, w: World) {
    forall k :: k in w.rules && k !in w0.rules ==> k in w.functions && w.rules[k] == w.functions[k].arn
  }

  lemma GrowsTrans(w0: World, w1: World, w2: World)
    requires Grows(w0, w1) && Grows(w1, w2)
    ensures Grows(w0, w2)
  {
  }

  lemma NewRulesInvokeTrans(w0: World, w1: World, w2: World)
    requires NewRulesInvoke(w0, w1) && NewRulesInvoke(w1, w2) && Grows(w1, w2)
    ensures NewRulesInvoke(w0, w2)
  {
    forall k | k in w2.rules && k !in w0.rules
      ensures k in w2.functions && w2.rules[k] == w2.functions[k].arn
    {
      if k in w1.rules {
        assert k in w1.functions && w1.rules[k] == w1.functions[k].arn;
      }
    }
  }

  lemma NewFunctionsUseTrans(w0: World, w1: World, w2: World, partition: string, roleArn: string)
    requires NewFunctionsUse(w0, w1, partition, roleArn) && NewFunctionsUse(w1, w2, partition, roleArn) && Grows(w1, w2)
    ensures NewFunctionsUse(w0, w2, partition, roleArn)
  {
    forall k | k in w2.functions && k !in w0.functions
      ensures w2.functions[k] == Function(FunctionArn(partition, k.0, k.1, k.2), roleArn)
    {
      if k in w1.functions {
        assert w1.functions[k] == Function(FunctionArn(partition, k.0, k.1, k.2), roleArn);
      }
    }
  }

  /** The accounts' resources after a live `deploy_iam_role`: the role and the
      policy (with the rewritten document) each created when absent, and both
      policies attached. */
  function IamRoleWorld(w: World, partition: string, account: string, ruleName: string, policy: Policy): World {
    var policyArn := PolicyArn(partition, account, ruleName);
    w.(roles := Ensure(w.roles, (account, ruleName), RoleArn(partition, account, ruleName)),
       policies := Ensure(w.policies, policyArn, policy),
       attachments := w.attachments + {(account, ruleName, policyArn), (account, ruleName, ConfigRulesPolicyArn(partition))})
  }

  /** The exception `create_event` raises, in the order it would meet it: the
      SNS topic is missing in a dry run (its ARN is logged unassigned), the
      solution has no rule list, the first rule has no accounts entry, a role
      is missing in a dry run, or the resource type is the custom-resource
      type (the response data is an undefined name). */
  function CreateFailure(w: World, dryRun: bool, configRules: map<string, seq<string>>,
                         scopes: map<string, RuleScope>, resourceType: string,
                         customResource: string): Option<Exception>
  {
    if TopicName !in w.topics && dryRun then Some(UnboundLocalError("topic_arn"))
    else if SolutionName !in configRules then Some(KeyError(SolutionName))
    else match Targets(configRules[SolutionName], scopes)
      case Failure(e) => Some(e)
      case Success(ts) =>
        if dryRun && RoleMissing(w.roles, ts) then Some(UnboundLocalError("role_arn"))
        else if resourceType == customResource then Some(NameError("data"))
        else None
  }

  /** A Create request whose resource type is the custom-resource type always
      raises, live or dry run: if nothing else raises first, the SUCCESS
      response refers to the undefined `data`. */
  lemma CustomResourceCreateFails(w: World, dryRun: bool, configRules: map<string, seq<string>>,
                                  scopes: map<string, RuleScope>, customResource: string)
    ensures CreateFailure(w, dryRun, configRules, scopes, customResource, customResource).Some?
    ensures !dryRun && SolutionName in configRules && Targets(configRules[SolutionName], scopes).Success? ==>
              CreateFailure(w, dryRun, configRules, scopes, customResource, customResource) == Some(NameError("data"))
  {
  }

  /** Everything of every rule exists. */
  predicate AllDeployed(w: World, ts: seq<Target>, dryRun: bool) {
    forall k :: 0 <= k < |ts| ==> Deployed(w, ts[k], dryRun)
  }

  lemma PlanStep(ts: seq<Target>, k: nat)
    requires k < |ts|
    ensures Plan(ts[..k + 1]) == Plan(ts[..k]) + Block(ts[k])
  {
    assert ts[..k + 1][..k] == ts[..k];
  }

  lemma TraceStep(trace0: seq<Step>, ts: seq<Target>, k: nat)
    requires k < |ts|
    ensures trace0 + Plan(ts[..k]) + Block(ts[k]) == trace0 + Plan(ts[..k + 1])
  {
    PlanStep(ts, k);
  }

  /** What the rule loop has achieved after the rules `done`: nothing
      removed; in a dry run only functions added, and every role already
      there; every rule deployed. */
  predicate RulesDone(w0: World, w: World, done: seq<Target>, dryRun: bool) {
    && Grows(w0, w)
    && (dryRun ==> w == w0.(functions := w.functions) && !RoleMissing(w0.roles, done))
    && AllDeployed(w, done, dryRun)
  }

  lemma RulesDoneStep(w0: World, w1: World, w2: World, ts: seq<Target>, k: nat, dryRun: bool)
    requires k < |ts| && RulesDone(w0, w1, ts[..k], dryRun)
    requires Grows(w1, w2) && Deployed(w2, ts[k], dryRun)
    requires dryRun ==> w2 == w1.(functions := w2.functions) && HasRoles(w1.roles, ts[k].accounts, ts[k].ruleName)
    ensures RulesDone(w0, w2, ts[..k + 1], dryRun)
  {
    GrowsTrans(w0, w1, w2);
    var s := ts[..k + 1];
    forall i | 0 <= i < |s| ensures Deployed(w2, s[i], dryRun) {
      if i < k {
        assert s[i] == ts[..k][i];
        DeployedGrows(w1, w2, ts[..k][i], dryRun);
      }
    }
    if dryRun {
      forall i | 0 <= i < |s| ensures HasRoles(w0.roles, s[i].accounts, s[i].ruleName) {
        if i < k {
          assert s[i] == ts[..k][i];
          assert !RoleMissing(w0.roles, ts[..k]);
        }
      }
    }
  }

  lemma RuleFailed(w0: World, w1: World, ts: seq<Target>, k: nat, dryRun: bool)
    requires k < |ts| && RulesDone(w0, w1, ts[..k], dryRun)
    requires dryRun && !HasRoles(w1.roles, ts[k].accounts, ts[k].ruleName)
    ensures RoleMissing(w0.roles, ts)
  {
  }

  // ---------------------------------------------------------------------
  // Dispatch

  datatype Route = SnsRoute | CreateRoute | UpdateRoute | DeleteRoute | NoRoute

  /** Which handler an event goes to: ValueError with neither `Records` nor
      `RequestType`; SNS when the first record's source is "aws:sns" (an
      empty list or a record without a source raises); otherwise by request
      type, and nothing at all for an unknown one. */
  function Dispatch(event: Event): (r: Result<Route, Exception>)
    ensures event.records.None? && event.requestType.None? ==> r == Failure(ValueError(NoRouteMessage))
    ensures r == Success(SnsRoute) <==>
              event.records.Some? && |event.records.value| > 0 && event.records.value[0].eventSource == Some("aws:sns")
    ensures r == Success(CreateRoute) ==> event.requestType == Some("Create")
    ensures event.records.None? && event.requestType == Some("Create") ==> r == Success(CreateRoute)
    ensures r.Failure? <==>
              (event.records.None? && event.requestType.None?) ||
              (event.records.Some? && (|event.records.value| == 0 || event.records.value[0].eventSource.None?))
    ensures r.Success? && r.value != SnsRoute ==>
              && (r.value == CreateRoute <==> event.requestType == Some("Create"))
              && (r.value == UpdateRoute <==> event.requestType == Some("Update"))
              && (r.value == DeleteRoute <==> event.requestType == Some("Delete"))
  {
    if event.records.None? && event.requestType.None? then Failure(ValueError(NoRouteMessage))
    else if event.records.Some? && |event.records.value| == 0 then Failure(IndexError)
    else if event.records.Some? && event.records.value[0].eventSource.None? then Failure(KeyError("EventSource"))
    else if event.records.Some? && event.records.value[0].eventSource.value == "aws:sns" then Success(SnsRoute)
    else if event.requestType.Some? then
      var t := event.requestType.value;
      if t == "Create" then Success(CreateRoute)
      else if t == "Update" then Success(UpdateRoute)
      else if t == "Delete" then Success(DeleteRoute)
      else Success(NoRoute)
    else Success(NoRoute)
  }

  const UpdateData := map["data" := "no info"]
  const DeleteData := map["delete_operation" := "succeeded deleting"]

  /** The CloudFormation responses sent on the way out. */
  function SentResponses(failed: bool, route: Result<Route, Exception>, resourceType: string): seq<CfnResponse> {
    if resourceType == "Other" then []
    else if failed then [CfnResponse(CfnFailed, map[], FailedResourceId)]
    else if route == Success(UpdateRoute) then [CfnResponse(CfnSuccess, UpdateData, CfnResourceId)]
    else if route == Success(DeleteRoute) then [CfnResponse(CfnSuccess, DeleteData, CfnResourceId)]
    else []
  }

  /** At most one response is sent, none for the resource type "Other":
      FAILED exactly when something raised, SUCCESS exactly when nothing
      raised and the request was an Update or a Delete. */
  lemma SentResponsesShape(failed: bool, route: Result<Route, Exception>, resourceType: string)
    ensures var r := SentResponses(failed, route, resourceType);
            && |r| <= 1
            && (resourceType == "Other" ==> r == [])
            && (failed && resourceType != "Other" <==> r != [] && r[0].status == CfnFailed)
            && (r != [] && r[0].status == CfnSuccess <==>
                  !failed && resourceType != "Other" && (route == Success(UpdateRoute) || route == Success(DeleteRoute)))
  {
  }

  /** The responses sent by the routed handler, followed by the FAILED
      response of the exception path, are those `SentResponses` gives. */
  lemma SentOnExit(s0: seq<CfnResponse>, paramsFailed: bool, failed: bool, route: Result<Route, Exception>, resourceType: string)
    requires paramsFailed ==> failed
    requires failed && !paramsFailed ==> route.Failure? || route == Success(CreateRoute)
    ensures s0 + (if paramsFailed then [] else SentResponses(false, route, resourceType))
              + (if failed && resourceType != "Other" then [CfnResponse(CfnFailed, map[], FailedResourceId)] else [])
            == s0 + SentResponses(failed, route, resourceType)
  {
    if !failed || resourceType == "Other" {
      assert s0 + (if paramsFailed then [] else SentResponses(false, route, resourceType)) + [] == s0 + SentResponses(failed, route, resourceType);
    }
  }

  /** The handler's result: 500 "ERROR" when something raised, 200 "SUCCESS" otherwise. */
  function HandlerResponse(failed: bool, start: string, finish: string, dryRun: bool): (r: Response)
    ensures r.statusCode == 500 <==> failed
    ensures r.statusCode == 200 <==> !failed
    ensures r.body == (if failed then "ERROR" else "SUCCESS")
    ensures r.lambdaStart == start && r.lambdaFinish == finish && r.dryRun == dryRun && r.dryRunData == map[]
  {
    Response(if failed then 500 else 200, start, finish, if failed then "ERROR" else "SUCCESS", dryRun, map[])
  }

  /** Whether the handler ends in its exception path: the resource
      properties cannot be read, the event cannot be routed, or it is a
      Create request and `create_event` raises. `dryRun`, `scopes` and
      `resourceType` are the settings once the properties are read. */
  predicate HandlerFails(event: Event, staging: SsmParameter, w: World, dryRun: bool,
                         configRules: map<string, seq<string>>, scopes: map<string, RuleScope>,
                         resourceType: string, customResource: string)
  {
    || ParameterError(event, staging).Some?
    || Dispatch(event).Failure?
    || (Dispatch(event) == Success(CreateRoute) &&
        CreateFailure(w, dryRun, configRules, scopes, resourceType, customResource).Some?)
  }

  // ---------------------------------------------------------------------
  // The deployer

  class Deployer {
    // module globals
    var dryRun: bool
    var ruleRegionsAccounts: map<string, RuleScope>
    var resourceType: string
    var lambdaStart: string
    var lambdaFinish: string
    // fields set on the repository, STS, S3 and IAM helper objects
    var repoZipUrl: string
    var repoBranch: string
    var solutionsDir: string
    var configRules: map<string, seq<string>>
    var configurationRole: string
    var stagingBucket: string
    var basicExecutionPolicy: Policy
    // the accounts deployed into, and the CloudFormation responses sent
    var world: World
    var sent: seq<CfnResponse>
    ghost var trace: seq<Step>
    /** The policy document as the IAM helper defines it, before any rewrite. */
    ghost const originalPolicy: Policy
    // the partition of the STS helper and the custom-resource type name of the IAM helper
    const partition: string
    const customResource: string

    /** The state when the module is loaded: a dry run until told otherwise,
        no rule entries and no resource type. */
    constructor(partition: string, customResource: string, configRules: map<string, seq<string>>,
                policy: Policy, world: World)
      ensures this.partition == partition && this.customResource == customResource
      ensures this.configRules == configRules && basicExecutionPolicy == policy && this.world == world
      ensures dryRun && ruleRegionsAccounts == map[] && resourceType == ""
      ensures lambdaStart == "" && lambdaFinish == "" && sent == [] && trace == []
      ensures PolicyFollowsTrace()
    {
      originalPolicy := policy;
      this.partition := partition;
      this.customResource := customResource;
      this.configRules := configRules;
      basicExecutionPolicy := policy;
      this.world := world;
      dryRun := true;
      ruleRegionsAccounts := map[];
      resourceType := "";
      lambdaStart := "";
      lambdaFinish := "";
      repoZipUrl := "";
      repoBranch := "";
      solutionsDir := "";
      configurationRole := "";
      stagingBucket := "";
      sent := [];
      trace := [];
    }

    /** The shared policy document is the original one rewritten once per
        role deployment so far, in order. */
    ghost predicate PolicyFollowsTrace()
      reads this`basicExecutionPolicy, this`trace
    {
      basicExecutionPolicy == RenderPlan(originalPolicy, trace)
    }

    /** `get_resource_parameters`: sets the settings one by one in the order
        it reads them, so a raise leaves the earlier ones set and the later
        ones (DRY_RUN last) as they were. DRY_RUN is on exactly for the
        string "true"; RULE_REGIONS_ACCOUNTS keeps its earlier value when the
        event has none. */
    method GetResourceParameters(event: Event, staging: SsmParameter) returns (r: Outcome<Exception>)
      modifies this`repoZipUrl, this`repoBranch, this`solutionsDir, this`configurationRole
      modifies this`stagingBucket, this`ruleRegionsAccounts, this`dryRun
      ensures r == (if ParameterError(event, staging).Some? then Fail(ParameterError(event, staging).value) else Pass)
      ensures var urlRead := event.resourceProperties.Some? && event.resourceProperties.value.repoZipUrl.Some?;
              var branchRead := urlRead && RepoBranch(event.resourceProperties.value.repoZipUrl.value).Success?;
              var stagingRead := branchRead && staging.found;
              && repoZipUrl == (if urlRead then event.resourceProperties.value.repoZipUrl.value else old(repoZipUrl))
              && repoBranch == (if branchRead then RepoBranch(repoZipUrl).value else old(repoBranch))
              && solutionsDir == (if branchRead then SolutionsDir(repoBranch) else old(solutionsDir))
              && configurationRole == (if branchRead then ConfigurationRole else old(configurationRole))
              && stagingBucket == (if stagingRead then staging.value else old(stagingBucket))
              && ruleRegionsAccounts ==
                   (if stagingRead && event.resourceProperties.value.ruleRegionsAccounts.Some?
                    then event.resourceProperties.value.ruleRegionsAccounts.value else old(ruleRegionsAccounts))
              && dryRun == (if r.Pass? then event.resourceProperties.value.dryRun.value == "true" else old(dryRun))
    {
      if event.resourceProperties.None? {
        return Fail(KeyError("ResourceProperties"));
      }
      var props := event.resourceProperties.value;
      if props.repoZipUrl.None? {
        return Fail(KeyError("SRA_REPO_ZIP_URL"));
      }
      repoZipUrl := props.repoZipUrl.value;
      var branch := RepoBranch(repoZipUrl);
      if branch.Failure? {
        return Fail(branch.error);
      }
      repoBranch := branch.value;
      solutionsDir := SolutionsDir(repoBranch);
      configurationRole := ConfigurationRole;
      if !staging.found {
        return Fail(ValueError(StagingBucketMessage));
      }
      stagingBucket := staging.value;
      if props.ruleRegionsAccounts.Some? {
        ruleRegionsAccounts := props.ruleRegionsAccounts.value;
      }
      if props.dryRun.None? {
        return Fail(KeyError("DRY_RUN"));
      }
      dryRun := props.dryRun.value == "true";
      return Pass;
    }


    /** `deploy_iam_role`: rewrites the shared policy document for the account
        and rule; outside a dry run, also creates the rule's role and its
        basic-execution policy (with the rewritten document) where they are
        absent and attaches that policy and the AWS Config rules execution
        policy; in a dry run changes nothing in the account. It returns the
        role's ARN, which a dry run without the role never assigns. */
    method DeployIamRole(account: string, ruleName: string) returns (r: Result<string, Exception>)
      modifies this`world, this`basicExecutionPolicy, this`trace
      requires PolicyFollowsTrace()
      ensures PolicyFollowsTrace()
      ensures basicExecutionPolicy == RenderPolicy(old(basicExecutionPolicy), account, ruleName)
      ensures trace == old(trace) + [RoleDeployed(account, ruleName)]
      ensures world == (if dryRun then old(world) else IamRoleWorld(old(world), partition, account, ruleName, basicExecutionPolicy))
      ensures r.Success? <==> (account, ruleName) in old(world.roles) || !dryRun
      ensures r.Failure? ==> r.error == UnboundLocalError("role_arn")
      ensures r.Success? ==> (account, ruleName) in world.roles && r.value == world.roles[(account, ruleName)]
      ensures Grows(old(world), world) && world.functions == old(world.functions) && world.rules == old(world.rules)
    {
      var roleArn := FindOrCreateRole(account, ruleName);
      basicExecutionPolicy := RenderPolicy(basicExecutionPolicy, account, ruleName);
      assert (trace + [RoleDeployed(account, ruleName)])[..|trace|] == trace;
      trace := trace + [RoleDeployed(account, ruleName)];
      var policyArn := PolicyArn(partition, account, ruleName);
      CreatePolicyIfAbsent(policyArn, basicExecutionPolicy);
      AttachIfAbsent(account, ruleName, policyArn);
      AttachIfAbsent(account, ruleName, ConfigRulesPolicyArn(partition));
      if roleArn.None? {
        return Failure(UnboundLocalError("role_arn"));
      }
      return Success(roleArn.value);
    }

    /** The role lookup of `deploy_iam_role`: the existing role's ARN, or
        outside a dry run the ARN of the role it creates; `None` (the name
        left unassigned) in a dry run without the role. */
    method FindOrCreateRole(account: string, ruleName: string) returns (roleArn: Option<string>)
      modifies this`world
      ensures var key := (account, ruleName);
              world == (if dryRun then old(world) else old(world).(roles := Ensure(old(world.roles), key, RoleArn(partition, account, ruleName))))
      ensures roleArn.Some? <==> (account, ruleName) in old(world.roles) || !dryRun
      ensures roleArn.Some? ==> (account, ruleName) in world.roles && roleArn.value == world.roles[(account, ruleName)]
    {
      var key := (account, ruleName);
      if key !in world.roles {
        if !dryRun {
          roleArn := Some(RoleArn(partition, account, ruleName));
          world := world.(roles := world.roles[key := roleArn.value]);
        } else {
          roleArn := None;
        }
      } else {
        roleArn := Some(world.roles[key]);
      }
    }

    /** Outside a dry run, creates the policy with the document when no
        policy has that ARN. */
    method CreatePolicyIfAbsent(policyArn: string, document: Policy)
      modifies this`world
      ensures world == (if dryRun then old(world) else old(world).(policies := Ensure(old(world.policies), policyArn, document)))
    {
      if policyArn !in world.policies {
        if !dryRun {
          world := world.(policies := world.policies[policyArn := document]);
        }
      }
    }

    /** Outside a dry run, attaches the policy to the rule's role when it is
        not attached yet. */
    method AttachIfAbsent(account: string, ruleName: string, policyArn: string)
      modifies this`world
      ensures world == (if dryRun then old(world) else old(world).(attachments := old(world.attachments) + {(account, ruleName, policyArn)}))
    {
      if (account, ruleName, policyArn) !in world.attachments {
        if !dryRun {
          world := world.(attachments := world.attachments + {(account, ruleName, policyArn)});
        }
      }
    }

    /** `deploy_lambda_function`: returns the ARN of the rule's function in
        the account and region, calling the create with the given role when
        the function is absent; that call has no DRY_RUN guard, and the
        model takes it to succeed. */
    method DeployLambdaFunction(account: string, ruleName: string, roleArn: string, region: string) returns (lambdaArn: string)
      modifies this`world, this`trace
      ensures var key := (account, region, ruleName);
              world == old(world).(functions := Ensure(old(world.functions), key,
                                                       Function(FunctionArn(partition, account, region, ruleName), roleArn)))
      ensures (account, region, ruleName) in world.functions && lambdaArn == world.functions[(account, region, ruleName)].arn
      ensures trace == old(trace) + [LambdaDeployed(account, region, ruleName)]
      requires PolicyFollowsTrace()
      ensures PolicyFollowsTrace()
    {
      var key := (account, region, ruleName);
      if key !in world.functions {
        lambdaArn := FunctionArn(partition, account, region, ruleName);
        world := world.(functions := world.functions[key := Function(lambdaArn, roleArn)]);
      } else {
        lambdaArn := world.functions[key].arn;
      }
      assert (trace + [LambdaDeployed(account, region, ruleName)])[..|trace|] == trace;
      trace := trace + [LambdaDeployed(account, region, ruleName)];
    }

    /** `deploy_config_rule`: outside a dry run and only when the rule is
        absent, grants AWS Config permission to invoke the rule's function and
        creates the rule on the given function; otherwise changes nothing. */
    method DeployConfigRule(account: string, ruleName: string, lambdaArn: string, region: string)
      modifies this`world, this`trace
      ensures var key := (account, region, ruleName);
              world == (if key in old(world.rules) || dryRun then old(world) else old(world).(
                rules := old(world.rules)[key := lambdaArn],
                permissions := old(world.permissions) + {(account, region, ruleName, ConfigInvokeStatement)}))
      ensures trace == old(trace) + [RuleDeployed(account, region, ruleName)]
      requires PolicyFollowsTrace()
      ensures PolicyFollowsTrace()
    {
      var key := (account, region, ruleName);
      if key !in world.rules && !dryRun {
        world := world.(permissions := world.permissions + {(account, region, ruleName, ConfigInvokeStatement)});
        world := world.(rules := world.rules[key := lambdaArn]);
      }
      assert (trace + [RuleDeployed(account, region, ruleName)])[..|trace|] == trace;
      trace := trace + [RuleDeployed(account, region, ruleName)];
    }

    /** The role loop of one rule: deploys the role in each account in turn
        and keeps the ARN returned for the last one. A dry run stops at the
        first account without the role. */
    method DeployRoles(accounts: seq<string>, ruleName: string) returns (r: Result<Option<string>, Exception>)
      modifies this`world, this`basicExecutionPolicy, this`trace
      ensures r.Failure? <==> dryRun && !HasRoles(old(world.roles), accounts, ruleName)
      ensures r.Failure? ==> r.error == UnboundLocalError("role_arn")
      ensures r.Success? ==> trace == old(trace) + RoleSteps(accounts, ruleName)
      requires PolicyFollowsTrace()
      ensures PolicyFollowsTrace()
      ensures r.Success? ==> HasRoles(world.roles, accounts, ruleName)
      ensures r.Success? ==> (r.value.Some? <==> |accounts| > 0)
      ensures r.Success? && |accounts| > 0 ==> r.value.value == world.roles[(accounts[|accounts| - 1], ruleName)]
      ensures Grows(old(world), world)
      ensures world.functions == old(world.functions) && world.rules == old(world.rules)
      ensures dryRun ==> world == old(world)
    {
      ghost var world0 := world;
      ghost var trace0 := trace;
      var roleArn: Option<string> := None;
      for j := 0 to |accounts|
        invariant trace == trace0 + RoleSteps(accounts[..j], ruleName)
        invariant PolicyFollowsTrace()
        invariant HasRoles(world.roles, accounts[..j], ruleName)
        invariant roleArn.Some? <==> j > 0
        invariant j > 0 ==> roleArn.value == world.roles[(accounts[j - 1], ruleName)]
        invariant Grows(world0, world)
        invariant world.functions == world0.functions && world.rules == world0.rules
        invariant dryRun ==> world == world0
      {
        ghost var before := world;
        var result := DeployIamRole(accounts[j], ruleName);
        if result.Failure? {
          assert accounts[j] in accounts;
          return Failure(result.error);
        }
        roleArn := Some(result.value);
        GrowsTrans(world0, before, world);
        RoleTraceStep(trace0, accounts, j, ruleName);
        HasRolesStep(before.roles, world.roles, accounts, j, ruleName);
      }
      assert accounts[..|accounts|] == accounts;
      return Success(roleArn);
    }

    /** The region loop for one account: the function with the given role,
        then the Config rule on it, region by region. */
    method DeployRegions(account: string, regions: seq<string>, ruleName: string, roleArn: string)
      modifies this`world, this`trace
      requires PolicyFollowsTrace()
      ensures PolicyFollowsTrace()
      ensures trace == old(trace) + RegionSteps(account, regions, ruleName)
      ensures Grows(old(world), world)
      ensures dryRun ==> world == old(world).(functions := world.functions)
      ensures world.roles == old(world.roles)
      ensures forall r :: r in regions ==> PairDeployed(world, account, r, ruleName, dryRun)
      ensures NewFunctionsUse(old(world), world, partition, roleArn) && NewRulesInvoke(old(world), world)
    {
      ghost var world0 := world;
      ghost var trace0 := trace;
      for m := 0 to |regions|
        invariant trace == trace0 + RegionSteps(account, regions[..m], ruleName)
        invariant PolicyFollowsTrace()
        invariant Grows(world0, world)
        invariant dryRun ==> world == world0.(functions := world.functions)
        invariant world.roles == world0.roles
        invariant forall r :: r in regions[..m] ==> PairDeployed(world, account, r, ruleName, dryRun)
        invariant NewFunctionsUse(world0, world, partition, roleArn) && NewRulesInvoke(world0, world)
      {
        ghost var before := world;
        DeployPlacement(account, regions[m], ruleName, roleArn);
        RegionTraceStep(trace0, account, regions, m, ruleName);
        GrowsTrans(world0, before, world);
        NewFunctionsUseTrans(world0, before, world, partition, roleArn);
        NewRulesInvokeTrans(world0, before, world);
        PairDeployedStep(before, world, account, regions, m, ruleName, dryRun);
      }
      assert regions[..|regions|] == regions;
    }

    /** One pass of the region loop: the function, then the Config rule on it. */
    method DeployPlacement(account: string, region: string, ruleName: string, roleArn: string)
      modifies this`world, this`trace
      requires PolicyFollowsTrace()
      ensures PolicyFollowsTrace()
      ensures trace == old(trace) + [LambdaDeployed(account, region, ruleName)] + [RuleDeployed(account, region, ruleName)]
      ensures Grows(old(world), world)
      ensures dryRun ==> world == old(world).(functions := world.functions)
      ensures world.roles == old(world.roles)
      ensures PairDeployed(world, account, region, ruleName, dryRun)
      ensures NewFunctionsUse(old(world), world, partition, roleArn) && NewRulesInvoke(old(world), world)
    {
      var lambdaArn := DeployLambdaFunction(account, ruleName, roleArn, region);
      DeployConfigRule(account, ruleName, lambdaArn, region);
    }

    /** The account-and-region loop of one rule: every function it creates
        runs with the one role ARN it is given, and every Config rule it
        creates invokes the function of its account and region. */
    method DeployPairs(accounts: seq<string>, regions: seq<string>, ruleName: string, roleArn: string)
      modifies this`world, this`trace
      requires PolicyFollowsTrace()
      ensures PolicyFollowsTrace()
      ensures trace == old(trace) + PairSteps(accounts, regions, ruleName)
      ensures Grows(old(world), world)
      ensures dryRun ==> world == old(world).(functions := world.functions)
      ensures world.roles == old(world.roles)
      ensures forall a, r :: a in accounts && r in regions ==> PairDeployed(world, a, r, ruleName, dryRun)
      ensures NewFunctionsUse(old(world), world, partition, roleArn) && NewRulesInvoke(old(world), world)
    {
      ghost var world0 := world;
      ghost var trace0 := trace;
      for j := 0 to |accounts|
        invariant trace == trace0 + PairSteps(accounts[..j], regions, ruleName)
        invariant PolicyFollowsTrace()
        invariant Grows(world0, world)
        invariant dryRun ==> world == world0.(functions := world.functions)
        invariant world.roles == world0.roles
        invariant forall a, r :: a in accounts[..j] && r in regions ==> PairDeployed(world, a, r, ruleName, dryRun)
        invariant NewFunctionsUse(world0, world, partition, roleArn) && NewRulesInvoke(world0, world)
      {
        ghost var before := world;
        DeployRegions(accounts[j], regions, ruleName, roleArn);
        GrowsTrans(world0, before, world);
        NewFunctionsUseTrans(world0, before, world, partition, roleArn);
        NewRulesInvokeTrans(world0, before, world);
        PairTraceStep(trace0, accounts, regions, j, ruleName);
        AccountDeployedStep(before, world, accounts, regions, j, ruleName, dryRun);
      }
      assert accounts[..|accounts|] == accounts;
    }

    /** One pass of the rule loop: the rule's roles, then its functions and
        Config rules. A dry run stops at an account without the role. */
    method DeployRule(t: Target) returns (r: Outcome<Exception>)
      modifies this`world, this`basicExecutionPolicy, this`trace
      ensures r.Fail? <==> dryRun && !HasRoles(old(world.roles), t.accounts, t.ruleName)
      ensures r.Fail? ==> r.error == UnboundLocalError("role_arn")
      ensures r.Pass? ==> trace == old(trace) + Block(t)
      requires PolicyFollowsTrace()
      ensures PolicyFollowsTrace()
      ensures r.Pass? ==> Deployed(world, t, dryRun)
      ensures Grows(old(world), world)
      ensures dryRun ==> world == old(world).(functions := world.functions)
    {
      var roles := DeployRoles(t.accounts, t.ruleName);
      if roles.Failure? {
        return Fail(roles.error);
      }
      ghost var middle := world;
      if roles.value.Some? {
        DeployPairs(t.accounts, t.regions, t.ruleName, roles.value.value);
      } else {
        assert PairSteps(t.accounts, t.regions, t.ruleName) == [];
      }
      GrowsTrans(old(world), middle, world);
      return Pass;
    }

    /** The rule loop: a dry run stops at the first rule with an account
        without the role; otherwise every rule ends up deployed, in the
        order `Plan` gives. */
    method DeployRules(ts: seq<Target>) returns (r: Outcome<Exception>)
      modifies this`world, this`basicExecutionPolicy, this`trace
      ensures r.Fail? <==> dryRun && RoleMissing(old(world.roles), ts)
      ensures r.Fail? ==> r.error == UnboundLocalError("role_arn")
      ensures r.Pass? ==> trace == old(trace) + Plan(ts)
      requires PolicyFollowsTrace()
      ensures PolicyFollowsTrace()
      ensures r.Pass? ==> AllDeployed(world, ts, dryRun)
      ensures Grows(old(world), world)
      ensures dryRun ==> world == old(world).(functions := world.functions)
    {
      ghost var world0 := world;
      ghost var trace0 := trace;
      for k := 0 to |ts|
        invariant trace == trace0 + Plan(ts[..k])
        invariant PolicyFollowsTrace()
        invariant RulesDone(world0, world, ts[..k], dryRun)
      {
        ghost var before := world;
        var done := DeployRule(ts[k]);
        if done.Fail? {
          RuleFailed(world0, before, ts, k, dryRun);
          GrowsTrans(world0, before, world);
          return done;
        }
        TraceStep(trace0, ts, k);
        RulesDoneStep(world0, before, world, ts, k, dryRun);
      }
      assert ts[..|ts|] == ts;
      return Pass;
    }

    /** `create_event`: makes sure the SNS topic exists (it cannot in a dry
        run), then runs the rule loop over the solution's rules. It raises
        exactly as `CreateFailure` says; when it gets past the rule loop,
        every rule was deployed in the order `Plan` gives. */
    method CreateEvent() returns (r: Outcome<Exception>)
      modifies this`world, this`basicExecutionPolicy, this`trace
      requires PolicyFollowsTrace()
      ensures PolicyFollowsTrace()
      ensures r == (match CreateFailure(old(world), dryRun, configRules, ruleRegionsAccounts, resourceType, customResource)
                    case Some(e) => Fail(e)
                    case None => Pass)
      ensures Grows(old(world), world)
      ensures !dryRun && r != Fail(UnboundLocalError("topic_arn")) ==> TopicName in world.topics
      ensures dryRun ==> world == old(world).(functions := world.functions)
      ensures r == Pass || r == Fail(NameError("data")) ==>
                && SolutionName in configRules
                && Targets(configRules[SolutionName], ruleRegionsAccounts).Success?
                && var ts := Targets(configRules[SolutionName], ruleRegionsAccounts).value;
                   && trace == old(trace) + Plan(ts)
                   && basicExecutionPolicy == RenderPlan(old(basicExecutionPolicy), Plan(ts))
                   && AllDeployed(world, ts, dryRun)
    {
      if TopicName !in world.topics {
        if !dryRun {
          world := world.(topics := world.topics + {TopicName});
        } else {
          return Fail(UnboundLocalError("topic_arn"));
        }
      }
      ghost var world1 := world;
      if SolutionName !in configRules {
        return Fail(KeyError(SolutionName));
      }
      var targets := Targets(configRules[SolutionName], ruleRegionsAccounts);
      if targets.Failure? {
        return Fail(targets.error);
      }
      ghost var trace1 := trace;
      r := DeployRules(targets.value);
      GrowsTrans(old(world), world1, world);
      if r.Fail? {
        return;
      }
      RenderPlanAppend(originalPolicy, trace1, Plan(targets.value));
      if resourceType == customResource {
        return Fail(NameError("data"));
      }
      return Pass;
    }

    /** `update_event`: a SUCCESS response unless the resource type is "Other". */
    method UpdateEvent()
      modifies this`sent
      ensures sent == old(sent) + SentResponses(false, Success(UpdateRoute), resourceType)
    {
      if resourceType != "Other" {
        sent := sent + [CfnResponse(CfnSuccess, UpdateData, CfnResourceId)];
      }
    }

    /** `delete_event`: a SUCCESS response unless the resource type is "Other". */
    method DeleteEvent()
      modifies this`sent
      ensures sent == old(sent) + SentResponses(false, Success(DeleteRoute), resourceType)
    {
      if resourceType != "Other" {
        sent := sent + [CfnResponse(CfnSuccess, DeleteData, CfnResourceId)];
      }
    }

    /** The routing part of `lambda_handler`, once the properties are read:
        whether it raised, and the responses sent on the way. */
    method RouteEvent(event: Event) returns (failed: bool)
      modifies this`world, this`basicExecutionPolicy, this`trace, this`sent
      requires PolicyFollowsTrace()
      ensures PolicyFollowsTrace()
      ensures failed <==> Dispatch(event).Failure? ||
                          (Dispatch(event) == Success(CreateRoute) &&
                           CreateFailure(old(world), dryRun, configRules, ruleRegionsAccounts, resourceType, customResource).Some?)
      ensures sent == old(sent) + SentResponses(false, Dispatch(event), resourceType)
      ensures Grows(old(world), world)
      ensures Dispatch(event) != Success(CreateRoute) ==> world == old(world) && trace == old(trace)
      ensures Dispatch(event) == Success(CreateRoute) &&
              CreateFailure(old(world), dryRun, configRules, ruleRegionsAccounts, resourceType, customResource).None? ==>
                AllDeployed(world, Targets(configRules[SolutionName], ruleRegionsAccounts).value, dryRun)
    {
      var route := Dispatch(event);
      failed := false;
      if route.Failure? {
        failed := true;
      } else if route.value == CreateRoute {
        var created := CreateEvent();
        failed := created.Fail?;
      } else if route.value == UpdateRoute {
        UpdateEvent();
      } else if route.value == DeleteRoute {
        DeleteEvent();
      }
    }

    /** The body of the handler's `try`, once the resource type is recorded:
        whether it raised. */
    method Process(event: Event, staging: SsmParameter) returns (failed: bool)
      modifies this`repoZipUrl, this`repoBranch, this`solutionsDir, this`configurationRole
      modifies this`stagingBucket, this`ruleRegionsAccounts, this`dryRun
      modifies this`world, this`basicExecutionPolicy, this`trace, this`sent
      requires PolicyFollowsTrace()
      ensures PolicyFollowsTrace()
      ensures failed == HandlerFails(event, staging, old(world), dryRun, configRules, ruleRegionsAccounts, resourceType, customResource)
      ensures sent == old(sent) + (if ParameterError(event, staging).Some? then [] else SentResponses(false, Dispatch(event), resourceType))
      ensures ParameterError(event, staging).Some? ==> dryRun == old(dryRun)
      ensures ParameterError(event, staging).None? ==>
                dryRun == (event.resourceProperties.value.dryRun.value == "true")
      ensures ParameterError(event, staging).None? ==>
                ruleRegionsAccounts == (if event.resourceProperties.value.ruleRegionsAccounts.Some?
                                        then event.resourceProperties.value.ruleRegionsAccounts.value
                                        else old(ruleRegionsAccounts))
    {
      var params := GetResourceParameters(event, staging);
      if params.Fail? {
        failed := true;
      } else {
        failed := RouteEvent(event);
      }
    }

    /** `lambda_handler`: records the resource type, reads the properties and
        routes the event; any exception on the way gives a FAILED response
        (unless the resource type is "Other") and status 500, otherwise the
        status is 200. The clock readings are parameters. */
    method LambdaHandler(event: Event, staging: SsmParameter, start: string, finish: string) returns (resp: Response)
      modifies this`lambdaStart, this`lambdaFinish, this`resourceType
      modifies this`repoZipUrl, this`repoBranch, this`solutionsDir, this`configurationRole
      modifies this`stagingBucket, this`ruleRegionsAccounts, this`dryRun
      modifies this`world, this`basicExecutionPolicy, this`trace, this`sent
      requires PolicyFollowsTrace()
      ensures PolicyFollowsTrace()
      ensures resourceType == (if event.resourceType.Some? then event.resourceType.value else old(resourceType))
      ensures lambdaStart == start && lambdaFinish == finish
      ensures var failed := HandlerFails(event, staging, old(world), dryRun, configRules, ruleRegionsAccounts, resourceType, customResource);
              && resp == HandlerResponse(failed, start, finish, dryRun)
              && sent == old(sent) + SentResponses(failed, Dispatch(event), resourceType)
      ensures ParameterError(event, staging).None? ==>
                dryRun == (event.resourceProperties.value.dryRun.value == "true")
      ensures ParameterError(event, staging).None? ==>
                ruleRegionsAccounts == (if event.resourceProperties.value.ruleRegionsAccounts.Some?
                                        then event.resourceProperties.value.ruleRegionsAccounts.value
                                        else old(ruleRegionsAccounts))
    {
      lambdaStart := start;
      if event.resourceType.Some? {
        resourceType := event.resourceType.value;
      }
      var failed := Process(event, staging);
      if failed && resourceType != "Other" {
        sent := sent + [CfnResponse(CfnFailed, map[], FailedResourceId)];
      }
      SentOnExit(old(sent), ParameterError(event, staging).Some?, failed, Dispatch(event), resourceType);
      lambdaFinish := finish;
      resp := HandlerResponse(failed, start, finish, dryRun);
    }
  }
}
