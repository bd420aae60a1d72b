/** What the two Bedrock invocation-logging AWS Config rules have in common:
    how a rule parameter becomes a check flag, the Bedrock logging response
    they both read, how the checks that are switched on produce the list of
    issues, how that list becomes a verdict and an annotation, and the single
    evaluation record each rule submits to AWS Config. */
module ConfigRule {
  import opened Base
  import opened Text

  // ---------------------------------------------------------------------
  // Rule parameters and check flags

  /** A rule parameter as decoded from the rule's JSON parameters: a string,
      or some other JSON value (number, boolean, list, object, null). */
  datatype ParamValue = Str(s: string) | NonString

  type Params = map<string, ParamValue>

  /** `params.get(key, 'true').lower() == 'true'`: a missing parameter
      switches the check on; a present one switches it on exactly when its
      lower-cased text is "true". `None` stands for the AttributeError that
      `.lower()` raises on a value that is not a string. */
  function ParseFlag(params: Params, key: string): (r: Option<bool>)
    ensures r.None? <==> key in params && params[key].NonString?
    ensures r.Some? ==> (!r.value <==> key in params && Lower(params[key].s) != "true")
  {
    var v := if key in params then params[key] else Str("true");
    match v
    case Str(s) => Some(Lower(s) == "true")
    case NonString => None
  }

  /** The comparison is case-insensitive: the lower-cased text is "true"
      exactly for the four-letter words spelling true in any mix of cases. */
  lemma LowerIsTrue(s: string)
    ensures Lower(s) == "true" <==>
            |s| == 4 && forall i :: 0 <= i < 4 ==> s[i] == "true"[i] || s[i] == "TRUE"[i]
  {
    if |s| == 4 {
      if Lower(s) == "true" {
        forall i | 0 <= i < 4 ensures s[i] == "true"[i] || s[i] == "TRUE"[i] {
          assert LowerChar(s[i]) == "true"[i];
        }
      }
      if forall i :: 0 <= i < 4 ==> s[i] == "true"[i] || s[i] == "TRUE"[i] {
        assert Lower(s) == [LowerChar(s[0]), LowerChar(s[1]), LowerChar(s[2]), LowerChar(s[3])];
      }
    }
  }

  // ---------------------------------------------------------------------
  // AWS responses

  /** The outcome of one AWS API call: the response, or the message of the
      exception it raised. */
  datatype Call<+T> = Returned(value: T) | Raised(message: string)

  /** `loggingConfig.s3Config` of Bedrock's model invocation logging configuration. */
  datatype S3Config = S3Config(enabled: Option<bool>, s3BucketName: Option<string>)

  /** `loggingConfig.cloudWatchConfig` of the same configuration. */
  datatype CloudWatchConfig = CloudWatchConfig(enabled: Option<bool>, logGroupName: Option<string>)

  datatype LoggingConfig = LoggingConfig(s3Config: Option<S3Config>, cloudWatchConfig: Option<CloudWatchConfig>)

  /** The response of `get_model_invocation_logging_configuration`. */
  datatype LoggingResponse = LoggingResponse(loggingConfig: Option<LoggingConfig>)

  /** Python truthiness of an optional string: present and non-empty. */
  predicate TruthyString(s: Option<string>) {
    s.Some? && |s.value| > 0
  }

  // ---------------------------------------------------------------------
  // Checks and the issue list

  /** One configuration check of a rule: whether its flag is on, and what its
      AWS lookup gave: `Returned(true)` when the setting is missing,
      `Returned(false)` when it is in place, `Raised(m)` when the lookup raised. */
  datatype Probe = Probe(enabled: bool, lookup: Call<bool>)

  /** A lookup whose response is judged by `missing`. */
  function Lookup<T>(c: Call<T>, missing: T -> bool): Call<bool> {
    match c
    case Returned(v) => Returned(missing(v))
    case Raised(m) => Raised(m)
  }

  /** A switched-on check whose lookup raised: it ends the evaluation. */
  predicate Raises(p: Probe) {
    p.enabled && p.lookup.Raised?
  }

  /** A switched-on check that found its setting missing: it adds its issue. */
  predicate Reports(p: Probe) {
    p.enabled && p.lookup == Returned(true)
  }

  /** What running the checks gave: the issues found, or the message of the
      exception that ended the evaluation. */
  datatype Findings = Issues(issues: seq<string>) | Aborted(message: string)

  /** One check after the ones before it: a run already aborted stays
      aborted; a check that is switched off is skipped without a lookup; a
      raising lookup aborts the run; a check that finds its setting missing
      appends its label to the issues. */
  function Step(found: Findings, probe: Probe, tag: string): Findings {
    match found
    case Aborted(m) => found
    case Issues(xs) =>
      if !probe.enabled then found
      else match probe.lookup
        case Raised(m) => Aborted(m)
        case Returned(missing) => if missing then Issues(xs + [tag]) else found
  }

  /** The checks run in order, each one a `Step`. */
  function CollectIssues(probes: seq<Probe>, labels: seq<string>): Findings
    requires |probes| == |labels|
  {
    if |probes| == 0 then Issues([])
    else
      var n := |probes| - 1;
      Step(CollectIssues(probes[..n], labels[..n]), probes[n], labels[n])
  }

  /** Running the first `k + 1` checks is running the first `k` and then one more. */
  lemma CollectIssuesStep(probes: seq<Probe>, labels: seq<string>, k: nat)
    requires |probes| == |labels| && k < |probes|
    ensures CollectIssues(probes[..k + 1], labels[..k + 1]) ==
            Step(CollectIssues(probes[..k], labels[..k]), probes[k], labels[k])
  {
    assert probes[..k + 1][..k] == probes[..k] && labels[..k + 1][..k] == labels[..k];
  }

  /** Once the first `k` checks have aborted, the whole run has. */
  lemma {:induction false} AbortedPrefixAbortsAll(probes: seq<Probe>, labels: seq<string>, k: nat)
    requires |probes| == |labels| && k <= |probes|
    requires CollectIssues(probes[..k], labels[..k]).Aborted?
    ensures CollectIssues(probes, labels) == CollectIssues(probes[..k], labels[..k])
    decreases |probes| - k
  {
    if k < |probes| {
      CollectIssuesStep(probes, labels, k);
      AbortedPrefixAbortsAll(probes, labels, k + 1);
    } else {
      assert probes[..k] == probes && labels[..k] == labels;
    }
  }

  predicate Distinct(xs: seq<string>) {
    forall i, j :: 0 <= i < j < |xs| ==> xs[i] != xs[j]
  }

  /** The run is aborted exactly when a switched-on check raises, and then
      with the message of the first one that does. */
  lemma {:induction false} CollectIssuesAborts(probes: seq<Probe>, labels: seq<string>)
    requires |probes| == |labels|
    ensures CollectIssues(probes, labels).Aborted? <==>
            exists i :: 0 <= i < |probes| && Raises(probes[i])
    ensures CollectIssues(probes, labels).Aborted? ==>
            exists i :: 0 <= i < |probes| && Raises(probes[i]) &&
              CollectIssues(probes, labels).message == probes[i].lookup.message &&
              forall j :: 0 <= j < i ==> !Raises(probes[j])
  {
    if |probes| > 0 {
      var n := |probes| - 1;
      CollectIssuesAborts(probes[..n], labels[..n]);
      assert forall i :: 0 <= i < n ==> probes[..n][i] == probes[i];
      var r := CollectIssues(probes[..n], labels[..n]);
      if r.Issues? && Raises(probes[n]) {
        forall j | 0 <= j < n ensures !Raises(probes[j]) {
          assert !Raises(probes[..n][j]);
        }
      }
    }
  }

  /** Every issue is the label of one of the checks. */
  lemma {:induction false} IssuesAreLabels(probes: seq<Probe>, labels: seq<string>)
    requires |probes| == |labels|
    ensures CollectIssues(probes, labels).Issues? ==>
            forall x :: x in CollectIssues(probes, labels).issues ==> x in labels
  {
    if |probes| > 0 {
      var n := |probes| - 1;
      IssuesAreLabels(probes[..n], labels[..n]);
    }
  }

  /** When the run completes, a check's label is among the issues exactly when
      that check is switched on and found its setting missing. */
  lemma {:induction false} IssueIffReported(probes: seq<Probe>, labels: seq<string>)
    requires |probes| == |labels| && Distinct(labels)
    ensures CollectIssues(probes, labels).Issues? ==>
            forall i :: 0 <= i < |probes| ==>
              (labels[i] in CollectIssues(probes, labels).issues <==> Reports(probes[i]))
  {
    if |probes| > 0 {
      var n := |probes| - 1;
      var ps, ls := probes[..n], labels[..n];
      IssueIffReported(ps, ls);
      IssuesAreLabels(ps, ls);
      var r := CollectIssues(ps, ls);
      if r.Issues? && CollectIssues(probes, labels).Issues? {
        assert labels[n] !in r.issues;
        forall i | 0 <= i < n
          ensures labels[i] in CollectIssues(probes, labels).issues <==> Reports(probes[i])
        {
          assert ls[i] == labels[i] && ps[i] == probes[i];
          assert labels[i] != labels[n];
        }
      }
    }
  }

  /** The issues keep the order of the checks: of two issues, the earlier
      belongs to the earlier check (so, labels being distinct, none repeats). */
  ghost predicate InCheckOrder(xs: seq<string>, labels: seq<string>) {
    forall j, k, a, b ::
      (0 <= j < k < |xs| && 0 <= a < |labels| && 0 <= b < |labels| &&
       xs[j] == labels[a] && xs[k] == labels[b]) ==> a < b
  }

  lemma {:induction false} IssuesInCheckOrder(probes: seq<Probe>, labels: seq<string>)
    requires |probes| == |labels| && Distinct(labels)
    ensures CollectIssues(probes, labels).Issues? ==>
            InCheckOrder(CollectIssues(probes, labels).issues, labels)
  {
    if |probes| > 0 {
      var n := |probes| - 1;
      var ps, ls := probes[..n], labels[..n];
      IssuesInCheckOrder(ps, ls);
      IssuesAreLabels(ps, ls);
      var r := CollectIssues(ps, ls);
      if r.Issues? && CollectIssues(probes, labels).Issues? {
        var xs := r.issues;
        var ys := CollectIssues(probes, labels).issues;
        // an issue found among the first n checks is the label of one of them
        assert forall j, a :: 0 <= j < |xs| && 0 <= a < |labels| && xs[j] == labels[a] ==> a < n && ls[a] == xs[j] by {
          forall j, a | 0 <= j < |xs| && 0 <= a < |labels| && xs[j] == labels[a] ensures a < n && ls[a] == xs[j] {
            assert xs[j] in ls;
            var a' :| 0 <= a' < n && ls[a'] == xs[j];
            assert labels[a'] == labels[a];
          }
        }
        assert ys == xs || ys == xs + [labels[n]];
        forall j, k, a, b |
          0 <= j < k < |ys| && 0 <= a < |labels| && 0 <= b < |labels| &&
          ys[j] == labels[a] && ys[k] == labels[b]
          ensures a < b
        {
          assert ys[j] == xs[j];
          if k < |xs| {
            assert ys[k] == xs[k];
            assert ls[a] == xs[j] && ls[b] == xs[k];
          } else {
            assert a < n;
            assert labels[b] == labels[n];
          }
        }
      }
    }
  }

  /** With every check switched off, no lookup is made and there is no issue. */
  lemma NothingEnabledNoIssues(probes: seq<Probe>, labels: seq<string>)
    requires |probes| == |labels| && Distinct(labels)
    requires forall i :: 0 <= i < |probes| ==> !probes[i].enabled
    ensures CollectIssues(probes, labels) == Issues([])
  {
    CollectIssuesAborts(probes, labels);
    IssuesAreLabels(probes, labels);
    IssueIffReported(probes, labels);
  }

  // ---------------------------------------------------------------------
  // Verdict and annotation

  datatype Compliance = Compliant | NonCompliant | Error {
    /** The compliance type as AWS Config spells it. */
    function Name(): string {
      match this
      case Compliant => "COMPLIANT"
      case NonCompliant => "NON_COMPLIANT"
      case Error => "ERROR"
    }
  }

  /** The pair `evaluate_compliance` returns. */
  datatype Assessment = Assessment(compliance: Compliance, annotation: string)

  const ErrorPrefix := "Error evaluating compliance: "

  /** The verdict on a completed or aborted run of the checks: ERROR with the
      exception's message after a fixed prefix; NON_COMPLIANT with the issues
      joined by ", " after `enabledBut` when there are any; COMPLIANT with
      `compliantNote` otherwise. */
  function Verdict(findings: Findings, enabledBut: string, compliantNote: string): (a: Assessment)
    ensures a.compliance == Error <==> findings.Aborted?
    ensures a.compliance == NonCompliant <==> findings.Issues? && |findings.issues| > 0
    ensures findings.Aborted? ==> a.annotation == ErrorPrefix + findings.message
    ensures a.compliance == NonCompliant ==> a.annotation == enabledBut + Join(findings.issues, ", ")
    ensures a.compliance == Compliant ==> a.annotation == compliantNote
  {
    match findings
    case Aborted(m) => Assessment(Error, ErrorPrefix + m)
    case Issues(xs) =>
      if |xs| > 0 then Assessment(NonCompliant, enabledBut + Join(xs, ", "))
      else Assessment(Compliant, compliantNote)
  }

  // ---------------------------------------------------------------------
  // The evaluation submitted to AWS Config

  /** The parsed `invokingEvent` of a Config rule invocation. */
  datatype InvokingEvent = InvokingEvent(notificationCreationTime: Option<string>)

  /** The fields of the Config rule invocation event that the handler reads;
      a `None` is a key the event does not carry. */
  datatype RuleEvent = RuleEvent(
    invokingEvent: Option<InvokingEvent>,
    ruleParameters: Option<Params>,
    accountId: Option<string>,
    resultToken: Option<string>)

  datatype Evaluation = Evaluation(
    complianceResourceType: string,
    complianceResourceId: string,
    complianceType: Compliance,
    annotation: string,
    orderingTimestamp: string)

  /** The `put_evaluations` request. */
  datatype Submission = Submission(evaluations: seq<Evaluation>, resultToken: string)

  const AccountResourceType := "AWS::::Account"

  /** The rule parameters handed to `evaluate_compliance`: an empty map when
      the event has none. */
  function RuleParameters(event: RuleEvent): Params {
    event.ruleParameters.GetOr(map[])
  }

  /** The request built once `invokingEvent` has been read and
      `evaluate_compliance` has returned or raised: exactly one evaluation of
      the account, stamped with the notification time; a missing key raises
      KeyError, in the order the handler reads them. */
  function Submit(event: RuleEvent, assessment: Result<Assessment, Exception>): (r: Result<Submission, Exception>)
    requires event.invokingEvent.Some?
    ensures r.Success? <==>
            assessment.Success? && event.accountId.Some? &&
            event.invokingEvent.value.notificationCreationTime.Some? && event.resultToken.Some?
    ensures r.Success? ==>
            && |r.value.evaluations| == 1
            && r.value.evaluations[0] == Evaluation(AccountResourceType, event.accountId.value,
                 assessment.value.compliance, assessment.value.annotation,
                 event.invokingEvent.value.notificationCreationTime.value)
            && r.value.resultToken == event.resultToken.value
    ensures assessment.Failure? ==> r == Failure(assessment.error)
    ensures assessment.Success? && event.accountId.None? ==> r == Failure(KeyError("accountId"))
    ensures assessment.Success? && event.accountId.Some? &&
            event.invokingEvent.value.notificationCreationTime.None? ==>
              r == Failure(KeyError("notificationCreationTime"))
    ensures assessment.Success? && event.accountId.Some? &&
            event.invokingEvent.value.notificationCreationTime.Some? && event.resultToken.None? ==>
              r == Failure(KeyError("resultToken"))
  {
    match assessment
    case Failure(e) => Failure(e)
    case Success(a) =>
      if event.accountId.None? then Failure(KeyError("accountId"))
      else if event.invokingEvent.value.notificationCreationTime.None? then Failure(KeyError("notificationCreationTime"))
      else if event.resultToken.None? then Failure(KeyError("resultToken"))
      else
        var evaluation := Evaluation(AccountResourceType, event.accountId.value, a.compliance, a.annotation,
                                     event.invokingEvent.value.notificationCreationTime.value);
        Success(Submission([evaluation], event.resultToken.value))
  }
}
