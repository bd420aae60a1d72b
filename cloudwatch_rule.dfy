/** The AWS Config rule that checks that Bedrock model invocation logging is
    delivered to a CloudWatch Logs log group that has a retention period and
    a KMS key. The Bedrock and CloudWatch Logs responses are inputs; the
    rule's decision is what is modelled. */
module CloudWatchLoggingRule {
  import opened Base
  import opened Text
  import opened ConfigRule

  // ---------------------------------------------------------------------
  // CloudWatch Logs responses

  /** One entry of `describe_log_groups(...)['logGroups']`. */
  datatype LogGroup = LogGroup(logGroupName: string, retentionInDays: Option<int>, kmsKeyId: Option<string>)

  /** Every AWS call the rule may make. The two checks call
      `describe_log_groups` separately, so each has its own response. */
  datatype CloudWatchResponses = CloudWatchResponses(
    logging: Call<LoggingResponse>,
    retentionGroups: Call<seq<LogGroup>>,
    encryptionGroups: Call<seq<LogGroup>>)

  /** The message of the IndexError raised by `[0]` on an empty list. */
  const EmptyListMessage := "list index out of range"

  /** `['logGroups'][0]`: the first group the prefix query returned; an empty
      result raises IndexError, and so does a raising call. */
  function FirstGroup(c: Call<seq<LogGroup>>): (r: Call<LogGroup>)
    ensures r.Returned? <==> c.Returned? && |c.value| > 0
    ensures r.Returned? ==> r.value == c.value[0]
    ensures c.Raised? ==> r == Raised(c.message)
    ensures c.Returned? && |c.value| == 0 ==> r == Raised(EmptyListMessage)
  {
    match c
    case Raised(m) => Raised(m)
    case Returned(groups) => if |groups| == 0 then Raised(EmptyListMessage) else Returned(groups[0])
  }

  // ---------------------------------------------------------------------
  // Flags

  datatype CloudWatchFlags = CloudWatchFlags(retention: bool, encryption: bool)

  /** The two check flags, or `None` when one of the parameters is not a
      string (the `.lower()` call raises before the evaluation starts). */
  function ParseCloudWatchFlags(params: Params): (r: Option<CloudWatchFlags>)
    ensures r.None? <==> ParseFlag(params, "check_retention").None? || ParseFlag(params, "check_encryption").None?
    ensures r.Some? ==>
              && Some(r.value.retention) == ParseFlag(params, "check_retention")
              && Some(r.value.encryption) == ParseFlag(params, "check_encryption")
  {
    var retention := ParseFlag(params, "check_retention");
    var encryption := ParseFlag(params, "check_encryption");
    if retention.None? || encryption.None? then None
    else Some(CloudWatchFlags(retention.value, encryption.value))
  }

  // ---------------------------------------------------------------------
  // Destination and the two checks

  /** The log group name, when CloudWatch delivery is on: `enabled` truthy and
      a non-empty `logGroupName`; `None` otherwise. */
  function LogGroupName(resp: LoggingResponse): (name: Option<string>)
    ensures name.Some? <==>
              && resp.loggingConfig.Some? && resp.loggingConfig.value.cloudWatchConfig.Some?
              && resp.loggingConfig.value.cloudWatchConfig.value.enabled == Some(true)
              && TruthyString(resp.loggingConfig.value.cloudWatchConfig.value.logGroupName)
    ensures name.Some? ==>
              |name.value| > 0 && name == resp.loggingConfig.value.cloudWatchConfig.value.logGroupName
  {
    var config := resp.loggingConfig.GetOr(LoggingConfig(None, None));
    var cw := config.cloudWatchConfig.GetOr(CloudWatchConfig(None, None));
    var enabled := cw.enabled.GetOr(false);
    if !enabled || !TruthyString(cw.logGroupName) then None else cw.logGroupName
  }

  /** `not retention`: no `retentionInDays`, or zero days. */
  predicate RetentionMissing(g: LogGroup) {
    g.retentionInDays.None? || g.retentionInDays.value == 0
  }

  /** `not encryption`: no `kmsKeyId`, or an empty one. */
  predicate EncryptionMissing(g: LogGroup) {
    !TruthyString(g.kmsKeyId)
  }

  const RetentionIssue := "retention not set"
  const EncryptionIssue := "encryption not set"

  /** The issue labels, in the order the checks run. */
  const Labels: seq<string> := [RetentionIssue, EncryptionIssue]

  /** The two checks, in the order the rule runs them. */
  function Probes(flags: CloudWatchFlags, aws: CloudWatchResponses): (ps: seq<Probe>)
    ensures |ps| == |Labels|
  {
    [ Probe(flags.retention, Lookup(FirstGroup(aws.retentionGroups), RetentionMissing)),
      Probe(flags.encryption, Lookup(FirstGroup(aws.encryptionGroups), EncryptionMissing)) ]
  }

  const NotEnabledNote := "CloudWatch logging is not enabled for Bedrock Model Invocation Logging"
  const EnabledButPrefix := "CloudWatch logging enabled but "
  const CompliantPrefix := "CloudWatch logging properly configured for Bedrock Model Invocation Logging. Log Group: "

  /** What the rule concludes for given flags and responses. */
  function CloudWatchAssessment(flags: CloudWatchFlags, aws: CloudWatchResponses): Assessment {
    match aws.logging
    case Raised(m) => Verdict(Aborted(m), EnabledButPrefix, "")
    case Returned(resp) =>
      match LogGroupName(resp)
      case None => Assessment(NonCompliant, NotEnabledNote)
      case Some(name) => Verdict(CollectIssues(Probes(flags, aws), Labels), EnabledButPrefix, CompliantPrefix + name)
  }

  // ---------------------------------------------------------------------
  // evaluate_compliance

  /** `evaluate_compliance`: parses the flags (a non-string parameter raises,
      outside the try block), reads the logging configuration, stops with the
      fixed "not enabled" note when CloudWatch delivery is off, then looks up
      the first log group matching the name once per switched-on check and
      appends an issue for a missing retention or KMS key; a raising call or
      an empty group list gives ERROR. */
  method EvaluateCompliance(params: Params, aws: CloudWatchResponses) returns (r: Result<Assessment, Exception>)
    ensures r.Failure? <==> ParseCloudWatchFlags(params).None?
    ensures r.Failure? ==> r.error.AttributeError?
    ensures r.Success? ==> r.value == CloudWatchAssessment(ParseCloudWatchFlags(params).value, aws)
  {
    var checkRetention := ParseFlag(params, "check_retention");
    var checkEncryption := ParseFlag(params, "check_encryption");
    if checkRetention.None? || checkEncryption.None? {
      return Failure(AttributeError("lower"));
    }
    ghost var flags := ParseCloudWatchFlags(params).value;
    ghost var ps := Probes(flags, aws);

    if aws.logging.Raised? {
      return Success(Assessment(Error, ErrorPrefix + aws.logging.message));
    }
    var logGroupName := LogGroupName(aws.logging.value);
    if logGroupName.None? {
      return Success(Assessment(NonCompliant, NotEnabledNote));
    }

    var issues: seq<string> := [];
    assert ps[..0] == [] && Labels[..0] == [];
    CollectIssuesStep(ps, Labels, 0);
    if checkRetention.value {
      var group := FirstGroup(aws.retentionGroups);
      if group.Raised? {
        AbortedPrefixAbortsAll(ps, Labels, 1);
        return Success(Assessment(Error, ErrorPrefix + group.message));
      }
      if RetentionMissing(group.value) {
        issues := issues + [RetentionIssue];
      }
    }
    assert CollectIssues(ps[..1], Labels[..1]) == Issues(issues);
    CollectIssuesStep(ps, Labels, 1);
    assert ps[..2] == ps && Labels[..2] == Labels;
    if checkEncryption.value {
      var group := FirstGroup(aws.encryptionGroups);
      if group.Raised? {
        return Success(Assessment(Error, ErrorPrefix + group.message));
      }
      if EncryptionMissing(group.value) {
        issues := issues + [EncryptionIssue];
      }
    }
    assert CollectIssues(ps, Labels) == Issues(issues);

    if |issues| > 0 {
      return Success(Assessment(NonCompliant, EnabledButPrefix + Join(issues, ", ")));
    }
    return Success(Assessment(Compliant, CompliantPrefix + logGroupName.value));
  }

  // ---------------------------------------------------------------------
  // Properties of the decision

  lemma LabelsDistinct()
    ensures Distinct(Labels)
  {
  }

  /** When CloudWatch delivery is off, the verdict is the fixed NON_COMPLIANT
      note and no log group is looked up: other CloudWatch Logs responses give
      the same. */
  lemma NotEnabledIgnoresLogGroups(flags: CloudWatchFlags, aws: CloudWatchResponses, other: CloudWatchResponses)
    requires aws.logging.Returned? && LogGroupName(aws.logging.value).None?
    requires other.logging == aws.logging
    ensures CloudWatchAssessment(flags, aws) == Assessment(NonCompliant, NotEnabledNote)
    ensures CloudWatchAssessment(flags, other) == CloudWatchAssessment(flags, aws)
  {
  }

  /** The issues, when every switched-on lookup found a log group: each is
      present exactly when its flag is on and the first group lacks the
      setting, retention before encryption. */
  lemma IssuesReported(flags: CloudWatchFlags, aws: CloudWatchResponses)
    requires CollectIssues(Probes(flags, aws), Labels).Issues?
    ensures var xs := CollectIssues(Probes(flags, aws), Labels).issues;
            && (RetentionIssue in xs <==>
                  flags.retention && aws.retentionGroups.Returned? && |aws.retentionGroups.value| > 0 &&
                  RetentionMissing(aws.retentionGroups.value[0]))
            && (EncryptionIssue in xs <==>
                  flags.encryption && aws.encryptionGroups.Returned? && |aws.encryptionGroups.value| > 0 &&
                  EncryptionMissing(aws.encryptionGroups.value[0]))
            && InCheckOrder(xs, Labels)
  {
    var ps := Probes(flags, aws);
    LabelsDistinct();
    CollectIssuesAborts(ps, Labels);
    IssueIffReported(ps, Labels);
    IssuesInCheckOrder(ps, Labels);
    assert !Raises(ps[0]) && !Raises(ps[1]);
    assert Labels[0] == RetentionIssue && Labels[1] == EncryptionIssue;
  }

  /** A switched-on check whose prefix query finds no log group at all ends
      the evaluation with ERROR (the IndexError of `[0]`), unless an earlier
      check already did. */
  lemma NoLogGroupIsError(flags: CloudWatchFlags, aws: CloudWatchResponses)
    requires aws.logging.Returned? && LogGroupName(aws.logging.value).Some?
    requires flags.retention && aws.retentionGroups == Returned([])
    ensures CloudWatchAssessment(flags, aws) == Assessment(Error, ErrorPrefix + EmptyListMessage)
  {
    var ps := Probes(flags, aws);
    assert ps[..1] == [ps[0]] && Labels[..1] == [Labels[0]];
    assert CollectIssues(ps[..1], Labels[..1]) == Aborted(EmptyListMessage);
    AbortedPrefixAbortsAll(ps, Labels, 1);
  }

  /** Only the first group of each response is judged, whatever its name: a
      prefix query that also returns a longer-named group first makes the
      rule judge that group, and groups after the first never matter. */
  lemma OnlyFirstGroupMatters(flags: CloudWatchFlags, aws: CloudWatchResponses, other: CloudWatchResponses)
    requires other.logging == aws.logging
    requires FirstGroup(other.retentionGroups) == FirstGroup(aws.retentionGroups)
    requires FirstGroup(other.encryptionGroups) == FirstGroup(aws.encryptionGroups)
    ensures CloudWatchAssessment(flags, other) == CloudWatchAssessment(flags, aws)
  {
    assert Probes(flags, other) == Probes(flags, aws);
  }

  /** With CloudWatch delivery on, the verdict is ERROR exactly when a
      switched-on lookup raised or found no group; otherwise NON_COMPLIANT
      exactly when an issue was found, with the issues joined by ", ", and
      COMPLIANT naming the log group when none was. */
  lemma EnabledVerdict(flags: CloudWatchFlags, aws: CloudWatchResponses)
    requires aws.logging.Returned? && LogGroupName(aws.logging.value).Some?
    ensures var a := CloudWatchAssessment(flags, aws);
            var f := CollectIssues(Probes(flags, aws), Labels);
            && (a.compliance == Error <==> exists i :: 0 <= i < 2 && Raises(Probes(flags, aws)[i]))
            && (a.compliance == NonCompliant <==> f.Issues? && |f.issues| > 0)
            && (a.compliance == NonCompliant ==> a.annotation == EnabledButPrefix + Join(f.issues, ", "))
            && (a.compliance == Compliant ==> a.annotation == CompliantPrefix + LogGroupName(aws.logging.value).value)
  {
    CollectIssuesAborts(Probes(flags, aws), Labels);
  }

  /** A failing Bedrock call gives ERROR with the call's message. */
  lemma LoggingCallRaisedIsError(flags: CloudWatchFlags, aws: CloudWatchResponses)
    requires aws.logging.Raised?
    ensures CloudWatchAssessment(flags, aws) == Assessment(Error, ErrorPrefix + aws.logging.message)
  {
  }

  // ---------------------------------------------------------------------
  // lambda_handler

  /** `lambda_handler`: reads `invokingEvent` (a missing key raises), evaluates
      the rule parameters (an empty map when the event has none) and builds
      the `put_evaluations` request: exactly one evaluation of the account,
      with the verdict and annotation of the evaluation and the notification
      time as its timestamp. */
  method LambdaHandler(event: RuleEvent, aws: CloudWatchResponses) returns (r: Result<Submission, Exception>)
    ensures event.invokingEvent.None? ==> r == Failure(KeyError("invokingEvent"))
    ensures r.Success? <==>
              && event.invokingEvent.Some? && ParseCloudWatchFlags(RuleParameters(event)).Some?
              && event.accountId.Some? && event.invokingEvent.value.notificationCreationTime.Some?
              && event.resultToken.Some?
    ensures r.Success? ==>
              var a := CloudWatchAssessment(ParseCloudWatchFlags(RuleParameters(event)).value, aws);
              && |r.value.evaluations| == 1
              && r.value.evaluations[0] == Evaluation(AccountResourceType, event.accountId.value,
                   a.compliance, a.annotation, event.invokingEvent.value.notificationCreationTime.value)
              && r.value.resultToken == event.resultToken.value
  {
    if event.invokingEvent.None? {
      return Failure(KeyError("invokingEvent"));
    }
    var ruleParameters := RuleParameters(event);
    var assessment := EvaluateCompliance(ruleParameters, aws);
    r := Submit(event, assessment);
  }
}
