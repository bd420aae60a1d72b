/** The AWS Config rule that checks that Bedrock model invocation logging is
    delivered to an S3 bucket configured with retention, encryption, server
    access logging, object locking and versioning. The Bedrock and S3
    responses are inputs; the rule's decision is what is modelled. */
module S3LoggingRule {
  import opened Base
  import opened Text
  import opened ConfigRule

  // ---------------------------------------------------------------------
  // S3 responses for the logging bucket

  /** A lifecycle rule, by the fields its `Expiration` sets (`None`: no `Expiration` key). */
  datatype LifecycleRule = LifecycleRule(expiration: Option<set<string>>)

  /** `get_bucket_lifecycle_configuration`; `rules` is `None` when the response has no `Rules`. */
  datatype LifecycleConfiguration = LifecycleConfiguration(rules: Option<seq<LifecycleRule>>)

  /** `get_bucket_encryption`: whether it carries `ServerSideEncryptionConfiguration`. */
  datatype BucketEncryption = BucketEncryption(hasServerSideEncryptionConfiguration: bool)

  /** `get_bucket_logging`: whether it carries `LoggingEnabled`. */
  datatype BucketLogging = BucketLogging(hasLoggingEnabled: bool)

  /** `get_object_lock_configuration`: whether it carries `ObjectLockConfiguration`. */
  datatype ObjectLock = ObjectLock(hasObjectLockConfiguration: bool)

  /** `get_bucket_versioning`: its `Status`, if any. */
  datatype BucketVersioning = BucketVersioning(status: Option<string>)

  /** Every AWS call the rule may make, with what it returns or raises. */
  datatype S3Responses = S3Responses(
    logging: Call<LoggingResponse>,
    lifecycle: Call<LifecycleConfiguration>,
    encryption: Call<BucketEncryption>,
    accessLogging: Call<BucketLogging>,
    objectLock: Call<ObjectLock>,
    versioning: Call<BucketVersioning>)

  // ---------------------------------------------------------------------
  // Flags

  datatype S3Flags = S3Flags(retention: bool, encryption: bool, accessLogging: bool,
                             objectLocking: bool, versioning: bool)

  const FlagKeys: seq<string> :=
    ["check_retention", "check_encryption", "check_access_logging", "check_object_locking", "check_versioning"]

  /** The five check flags, or `None` when one of the parameters is not a
      string (the `.lower()` call raises before the evaluation starts). */
  function ParseS3Flags(params: Params): (r: Option<S3Flags>)
    ensures r.None? <==> exists i :: 0 <= i < |FlagKeys| && ParseFlag(params, FlagKeys[i]).None?
    ensures r.Some? ==>
              && Some(r.value.retention) == ParseFlag(params, "check_retention")
              && Some(r.value.encryption) == ParseFlag(params, "check_encryption")
              && Some(r.value.accessLogging) == ParseFlag(params, "check_access_logging")
              && Some(r.value.objectLocking) == ParseFlag(params, "check_object_locking")
              && Some(r.value.versioning) == ParseFlag(params, "check_versioning")
  {
    var retention := ParseFlag(params, FlagKeys[0]);
    var encryption := ParseFlag(params, FlagKeys[1]);
    var accessLogging := ParseFlag(params, FlagKeys[2]);
    var objectLocking := ParseFlag(params, FlagKeys[3]);
    var versioning := ParseFlag(params, FlagKeys[4]);
    if retention.None? || encryption.None? || accessLogging.None? || objectLocking.None? || versioning.None?
    then None
    else Some(S3Flags(retention.value, encryption.value, accessLogging.value, objectLocking.value, versioning.value))
  }

  /** With no parameters at all, every check is switched on. */
  lemma NoParamsAllChecksOn()
    ensures ParseS3Flags(map[]) == Some(S3Flags(true, true, true, true, true))
  {
    assert Lower("true") == "true";
  }

  // ---------------------------------------------------------------------
  // Destination and the five checks

  /** The logging bucket, when S3 delivery is on: `enabled` truthy and a
      non-empty `s3BucketName`; `None` otherwise. */
  function S3Bucket(resp: LoggingResponse): (bucket: Option<string>)
    ensures bucket.Some? <==>
              && resp.loggingConfig.Some? && resp.loggingConfig.value.s3Config.Some?
              && resp.loggingConfig.value.s3Config.value.enabled == Some(true)
              && TruthyString(resp.loggingConfig.value.s3Config.value.s3BucketName)
    ensures bucket.Some? ==>
              |bucket.value| > 0 && bucket == resp.loggingConfig.value.s3Config.value.s3BucketName
  {
    var config := resp.loggingConfig.GetOr(LoggingConfig(None, None));
    var s3 := config.s3Config.GetOr(S3Config(None, None));
    var enabled := s3.enabled.GetOr(false);
    if !enabled || !TruthyString(s3.s3BucketName) then None else s3.s3BucketName
  }

  /** Python truthiness of an `Expiration` value: present and non-empty. */
  predicate HasExpiration(rule: LifecycleRule) {
    rule.expiration.Some? && |rule.expiration.value| > 0
  }

  /** `any(rule.get('Expiration') for rule in rules)`. */
  function AnyExpiration(rules: seq<LifecycleRule>): (r: bool)
    ensures r <==> exists i :: 0 <= i < |rules| && HasExpiration(rules[i])
  {
    if |rules| == 0 then false
    else HasExpiration(rules[0]) || AnyExpiration(rules[1..])
  }

  /** Retention is missing exactly when no lifecycle rule (of the listed
      ones, none when `Rules` is absent) has an expiration. */
  function RetentionMissing(lc: LifecycleConfiguration): (missing: bool)
    ensures missing <==> forall r :: r in lc.rules.GetOr([]) ==> !HasExpiration(r)
  {
    !AnyExpiration(lc.rules.GetOr([]))
  }

  /** Versioning is missing exactly when `Status` is not "Enabled" (including
      "Suspended" and an absent status). */
  function VersioningMissing(v: BucketVersioning): (missing: bool)
    ensures missing <==> v.status.None? || v.status.value != "Enabled"
  {
    v.status != Some("Enabled")
  }

  const RetentionIssue := "retention not set"
  const EncryptionIssue := "encryption not set"
  const AccessLoggingIssue := "server access logging not enabled"
  const ObjectLockIssue := "object locking not enabled"
  const VersioningIssue := "versioning not enabled"

  /** The issue labels, in the order the checks run. */
  const Labels: seq<string> := [RetentionIssue, EncryptionIssue, AccessLoggingIssue, ObjectLockIssue, VersioningIssue]

  predicate EncryptionMissing(e: BucketEncryption) { !e.hasServerSideEncryptionConfiguration }
  predicate AccessLoggingMissing(l: BucketLogging) { !l.hasLoggingEnabled }
  predicate ObjectLockMissing(o: ObjectLock) { !o.hasObjectLockConfiguration }

  /** The five checks, in the order the rule runs them. */
  function Probes(flags: S3Flags, aws: S3Responses): (ps: seq<Probe>)
    ensures |ps| == |Labels|
  {
    [ Probe(flags.retention, Lookup(aws.lifecycle, RetentionMissing)),
      Probe(flags.encryption, Lookup(aws.encryption, EncryptionMissing)),
      Probe(flags.accessLogging, Lookup(aws.accessLogging, AccessLoggingMissing)),
      Probe(flags.objectLocking, Lookup(aws.objectLock, ObjectLockMissing)),
      Probe(flags.versioning, Lookup(aws.versioning, VersioningMissing)) ]
  }

  const NotEnabledNote := "S3 logging is not enabled for Bedrock Model Invocation Logging"
  const EnabledButPrefix := "S3 logging enabled but "
  const CompliantPrefix := "S3 logging properly configured for Bedrock Model Invocation Logging. Bucket: "

  /** What the rule concludes for given flags and responses. */
  function S3Assessment(flags: S3Flags, aws: S3Responses): Assessment {
    match aws.logging
    case Raised(m) => Verdict(Aborted(m), EnabledButPrefix, "")
    case Returned(resp) =>
      match S3Bucket(resp)
      case None => Assessment(NonCompliant, NotEnabledNote)
      case Some(bucket) => Verdict(CollectIssues(Probes(flags, aws), Labels), EnabledButPrefix, CompliantPrefix + bucket)
  }

  // ---------------------------------------------------------------------
  // evaluate_compliance

  /** The checks inside the `try` block, in order: each switched-on check
      makes its AWS call, a raising call ends the run, and a missing setting
      appends the check's issue. */
  method RunChecks(flags: S3Flags, aws: S3Responses) returns (found: Findings)
    ensures found == CollectIssues(Probes(flags, aws), Labels)
  {
    ghost var ps := Probes(flags, aws);
    assert ps[0] == Probe(flags.retention, Lookup(aws.lifecycle, RetentionMissing));
    assert ps[1] == Probe(flags.encryption, Lookup(aws.encryption, EncryptionMissing));
    assert ps[2] == Probe(flags.accessLogging, Lookup(aws.accessLogging, AccessLoggingMissing));
    assert ps[3] == Probe(flags.objectLocking, Lookup(aws.objectLock, ObjectLockMissing));
    assert ps[4] == Probe(flags.versioning, Lookup(aws.versioning, VersioningMissing));
    var issues: seq<string> := [];
    assert ps[..0] == [] && Labels[..0] == [];
    CollectIssuesStep(ps, Labels, 0);
    if flags.retention {
      if aws.lifecycle.Raised? {
        AbortedPrefixAbortsAll(ps, Labels, 1);
        return Aborted(aws.lifecycle.message);
      }
      if RetentionMissing(aws.lifecycle.value) {
        issues := issues + [RetentionIssue];
      }
    }
    assert CollectIssues(ps[..1], Labels[..1]) == Issues(issues);
    CollectIssuesStep(ps, Labels, 1);
    if flags.encryption {
      if aws.encryption.Raised? {
        AbortedPrefixAbortsAll(ps, Labels, 2);
        return Aborted(aws.encryption.message);
      }
      if EncryptionMissing(aws.encryption.value) {
        issues := issues + [EncryptionIssue];
      }
    }
    assert CollectIssues(ps[..2], Labels[..2]) == Issues(issues);
    CollectIssuesStep(ps, Labels, 2);
    if flags.accessLogging {
      if aws.accessLogging.Raised? {
        AbortedPrefixAbortsAll(ps, Labels, 3);
        return Aborted(aws.accessLogging.message);
      }
      if AccessLoggingMissing(aws.accessLogging.value) {
        issues := issues + [AccessLoggingIssue];
      }
    }
    assert CollectIssues(ps[..3], Labels[..3]) == Issues(issues);
    CollectIssuesStep(ps, Labels, 3);
    if flags.objectLocking {
      if aws.objectLock.Raised? {
        AbortedPrefixAbortsAll(ps, Labels, 4);
        return Aborted(aws.objectLock.message);
      }
      if ObjectLockMissing(aws.objectLock.value) {
        issues := issues + [ObjectLockIssue];
      }
    }
    assert CollectIssues(ps[..4], Labels[..4]) == Issues(issues);
    CollectIssuesStep(ps, Labels, 4);
    assert ps[..5] == ps && Labels[..5] == Labels;
    if flags.versioning {
      if aws.versioning.Raised? {
        return Aborted(aws.versioning.message);
      }
      if VersioningMissing(aws.versioning.value) {
        issues := issues + [VersioningIssue];
      }
    }
    assert CollectIssues(ps, Labels) == Issues(issues);

    return Issues(issues);
  }

  /** `evaluate_compliance`: parses the flags (a non-string parameter raises,
      outside the try block), reads the logging configuration, stops with the
      fixed "not enabled" note when S3 delivery is off, then appends one issue
      per switched-on check that finds its setting missing; a raising AWS
      call gives ERROR. */
  method EvaluateCompliance(params: Params, aws: S3Responses) returns (r: Result<Assessment, Exception>)
    ensures r.Failure? <==> ParseS3Flags(params).None?
    ensures r.Failure? ==> r.error.AttributeError?
    ensures r.Success? ==> r.value == S3Assessment(ParseS3Flags(params).value, aws)
  {
    var checkRetention := ParseFlag(params, "check_retention");
    var checkEncryption := ParseFlag(params, "check_encryption");
    var checkAccessLogging := ParseFlag(params, "check_access_logging");
    var checkObjectLocking := ParseFlag(params, "check_object_locking");
    var checkVersioning := ParseFlag(params, "check_versioning");
    if checkRetention.None? || checkEncryption.None? || checkAccessLogging.None? ||
       checkObjectLocking.None? || checkVersioning.None? {
      return Failure(AttributeError("lower"));
    }
    var flags := S3Flags(checkRetention.value, checkEncryption.value, checkAccessLogging.value,
                         checkObjectLocking.value, checkVersioning.value);
    assert flags == ParseS3Flags(params).value;

    if aws.logging.Raised? {
      return Success(Assessment(Error, ErrorPrefix + aws.logging.message));
    }
    var bucket := S3Bucket(aws.logging.value);
    if bucket.None? {
      return Success(Assessment(NonCompliant, NotEnabledNote));
    }

    var found := RunChecks(flags, aws);
    if found.Aborted? {
      return Success(Assessment(Error, ErrorPrefix + found.message));
    }
    var issues := found.issues;
    if |issues| > 0 {
      return Success(Assessment(NonCompliant, EnabledButPrefix + Join(issues, ", ")));
    }
    return Success(Assessment(Compliant, CompliantPrefix + bucket.value));
  }

  // ---------------------------------------------------------------------
  // Properties of the decision

  lemma LabelsDistinct()
    ensures Distinct(Labels)
  {
  }

  /** When S3 delivery is off, the verdict is the fixed NON_COMPLIANT note and
      no bucket response is consulted: any other bucket responses give the same. */
  lemma NotEnabledIgnoresBucket(flags: S3Flags, aws: S3Responses, other: S3Responses)
    requires aws.logging.Returned? && S3Bucket(aws.logging.value).None?
    requires other.logging == aws.logging
    ensures S3Assessment(flags, aws) == Assessment(NonCompliant, NotEnabledNote)
    ensures S3Assessment(flags, other) == S3Assessment(flags, aws)
  {
  }

  /** The bucket's issues, when every switched-on lookup returned: each issue
      is present exactly when its flag is on and its setting is missing, and
      they appear in the fixed order retention, encryption, access logging,
      object locking, versioning. */
  lemma IssuesReported(flags: S3Flags, aws: S3Responses)
    requires CollectIssues(Probes(flags, aws), Labels).Issues?
    ensures var xs := CollectIssues(Probes(flags, aws), Labels).issues;
            && (RetentionIssue in xs <==> flags.retention && aws.lifecycle.Returned? && RetentionMissing(aws.lifecycle.value))
            && (EncryptionIssue in xs <==> flags.encryption && aws.encryption.Returned? && !aws.encryption.value.hasServerSideEncryptionConfiguration)
            && (AccessLoggingIssue in xs <==> flags.accessLogging && aws.accessLogging.Returned? && !aws.accessLogging.value.hasLoggingEnabled)
            && (ObjectLockIssue in xs <==> flags.objectLocking && aws.objectLock.Returned? && !aws.objectLock.value.hasObjectLockConfiguration)
            && (VersioningIssue in xs <==> flags.versioning && aws.versioning.Returned? && VersioningMissing(aws.versioning.value))
            && InCheckOrder(xs, Labels)
  {
    var ps := Probes(flags, aws);
    LabelsDistinct();
    CollectIssuesAborts(ps, Labels);
    IssueIffReported(ps, Labels);
    IssuesInCheckOrder(ps, Labels);
    assert !Raises(ps[0]) && !Raises(ps[1]) && !Raises(ps[2]) && !Raises(ps[3]) && !Raises(ps[4]);
    assert Labels[0] == RetentionIssue && Labels[1] == EncryptionIssue && Labels[2] == AccessLoggingIssue;
    assert Labels[3] == ObjectLockIssue && Labels[4] == VersioningIssue;
  }

  /** With S3 delivery on, the verdict is ERROR exactly when a switched-on
      lookup raised; otherwise it is NON_COMPLIANT exactly when an issue was
      found, with the issues joined by ", " after "S3 logging enabled but ",
      and COMPLIANT naming the bucket when none was. */
  lemma EnabledVerdict(flags: S3Flags, aws: S3Responses)
    requires aws.logging.Returned? && S3Bucket(aws.logging.value).Some?
    ensures var a := S3Assessment(flags, aws);
            var f := CollectIssues(Probes(flags, aws), Labels);
            && (a.compliance == Error <==> exists i :: 0 <= i < 5 && Raises(Probes(flags, aws)[i]))
            && (a.compliance == NonCompliant <==> f.Issues? && |f.issues| > 0)
            && (a.compliance == NonCompliant ==> a.annotation == EnabledButPrefix + Join(f.issues, ", "))
            && (a.compliance == Compliant ==> a.annotation == CompliantPrefix + S3Bucket(aws.logging.value).value)
  {
    CollectIssuesAborts(Probes(flags, aws), Labels);
  }

  /** A failing Bedrock call gives ERROR with the call's message. */
  lemma LoggingCallRaisedIsError(flags: S3Flags, aws: S3Responses)
    requires aws.logging.Raised?
    ensures S3Assessment(flags, aws) == Assessment(Error, ErrorPrefix + aws.logging.message)
  {
  }

  /** With S3 delivery on and every check switched off, the bucket is
      COMPLIANT whatever its configuration. */
  lemma AllChecksOffCompliant(aws: S3Responses)
    requires aws.logging.Returned? && S3Bucket(aws.logging.value).Some?
    ensures S3Assessment(S3Flags(false, false, false, false, false), aws) ==
            Assessment(Compliant, CompliantPrefix + S3Bucket(aws.logging.value).value)
  {
    var ps := Probes(S3Flags(false, false, false, false, false), aws);
    LabelsDistinct();
    NothingEnabledNoIssues(ps, Labels);
  }

  // ---------------------------------------------------------------------
  // lambda_handler

  /** `lambda_handler`: reads `invokingEvent` (a missing key raises), evaluates
      the rule parameters (an empty map when the event has none) and builds
      the `put_evaluations` request: exactly one evaluation of the account,
      with the verdict and annotation of the evaluation and the notification
      time as its timestamp. */
  method LambdaHandler(event: RuleEvent, aws: S3Responses) returns (r: Result<Submission, Exception>)
    ensures event.invokingEvent.None? ==> r == Failure(KeyError("invokingEvent"))
    ensures r.Success? <==>
              && event.invokingEvent.Some? && ParseS3Flags(RuleParameters(event)).Some?
              && event.accountId.Some? && event.invokingEvent.value.notificationCreationTime.Some?
              && event.resultToken.Some?
    ensures r.Success? ==>
              var a := S3Assessment(ParseS3Flags(RuleParameters(event)).value, aws);
              && |r.value.evaluations| == 1
              && r.value.evaluations[0] == Evaluation(AccountResourceType, event.accountId.value,
                   a.compliance, a.annotation, event.invokingEvent.value.notificationCreationTime.value)
              && r.value.resultToken == event.resultToken.value
  {
    if event.invokingEvent.None? {
      return Failure(KeyError("invokingEvent"));
    }
    var ruleParameters := RuleParameters(event);
    var assessment := EvaluateCompliance(ruleParameters, aws);
    r := Submit(event, assessment);
  }
}
