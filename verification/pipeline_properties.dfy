/**
 * Path properties of one pipeline run, stated on the trace `RunTrace` that
 * `Pipeline.Run` is proved to append.
 */
module PipelineProperties {
  import opened Dependencies
  import opened Pipeline

  /** The log line the test stage writes. */
  predicate IsTestStageLog(e: Event) {
    e == Info("No tests") || e == Info("Tests passed") || e == Error("Tests failed")
  }

  /** The log line the deploy stage writes. */
  predicate IsDeployStageLog(e: Event) {
    e == Error("Deployment failed") || e == Info("Deployment successful")
  }

  /** The log line each call of `sendEmail` writes. */
  predicate IsEmailLog(e: Event) {
    e == Info("Sending email") || e == Info("Email disabled")
  }

  /** The events a run appends before its notification: the test stage and,
      when reached, the deploy stage. None of them is a send or an email log. */
  function BeforeNotification(p: Project): (t: seq<Event>)
    ensures forall e :: e in t ==> !e.Sent? && !IsEmailLog(e)
  {
    TestStageTrace(p) + (if ReachesDeploy(p) then DeployStageTrace(p) else [])
  }

  /** The events a run appends after its test stage: the deploy stage when it
      is reached, then the notification. None of them is a test run or a
      test-stage log. */
  function AfterTestStage(sendEmailSummary: bool, p: Project): (t: seq<Event>)
    ensures forall e :: e in t ==> e != RanTests && !IsTestStageLog(e)
  {
    (if ReachesDeploy(p) then DeployStageTrace(p) else []) + EmailTrace(sendEmailSummary, Summary(p))
  }

  /** The run is its stages in order: the test stage, the deploy stage exactly
      when it is reached, and one notification carrying the chosen summary. */
  lemma RunTraceByStages(sendEmailSummary: bool, p: Project)
    ensures RunTrace(sendEmailSummary, p)
         == TestStageTrace(p)
          + (if ReachesDeploy(p) then DeployStageTrace(p) else [])
          + EmailTrace(sendEmailSummary, Summary(p))
  {
  }

  /** Which log lines each stage can write, and when it writes its error line. */
  lemma StageLogs(sendEmailSummary: bool, p: Project)
    ensures forall e :: e in TestStageTrace(p) && IsLog(e) ==> IsTestStageLog(e)
    ensures forall e :: e in DeployStageTrace(p) && IsLog(e) ==> IsDeployStageLog(e)
    ensures forall e :: e in EmailTrace(sendEmailSummary, Summary(p)) && IsLog(e) ==> IsEmailLog(e)
    ensures Error("Tests failed") in TestStageTrace(p) <==> TestsFailed(p)
    ensures Error("Deployment failed") in DeployStageTrace(p) <==> DeploymentFailed(p)
  {
  }

  // ----- The test stage -----

  /** Without tests, `runTests` is never called and the test stage logs
      exactly "No tests", at info, as the first event of the run. */
  lemma NoTestsSkipsTestRun(sendEmailSummary: bool, p: Project)
    requires !p.hasTests
    ensures var t := RunTrace(sendEmailSummary, p);
      && t[0] == Info("No tests")
      && Occurrences(t, Info("No tests")) == 1
      && RanTests !in t
      && Info("Tests passed") !in t
      && Error("Tests failed") !in t
  {
    var rest := AfterTestStage(sendEmailSummary, p);
    RunTraceByStages(sendEmailSummary, p);
    assert RunTrace(sendEmailSummary, p) == [] + [Info("No tests")] + rest;
    OccursOnce([], Info("No tests"), rest);
  }

  /** `runTests` is called once when the project has tests and never otherwise. */
  lemma TestsRunOnceIffPresent(sendEmailSummary: bool, p: Project)
    ensures Occurrences(RunTrace(sendEmailSummary, p), RanTests) == if p.hasTests then 1 else 0
  {
  }

  /** Exactly one test-stage log line is written per run. */
  lemma OneTestStageLog(sendEmailSummary: bool, p: Project)
    ensures var t := RunTrace(sendEmailSummary, p);
      Occurrences(t, Info("No tests")) + Occurrences(t, Info("Tests passed"))
        + Occurrences(t, Error("Tests failed")) == 1
  {
    var head: seq<Event> := if p.hasTests then [RanTests] else [];
    var verdict := if !p.hasTests then Info("No tests")
      else if p.testsOutcome == SUCCESS then Info("Tests passed") else Error("Tests failed");
    var rest := AfterTestStage(sendEmailSummary, p);
    RunTraceByStages(sendEmailSummary, p);
    assert TestStageTrace(p) == head + [verdict];
    assert RunTrace(sendEmailSummary, p) == head + [verdict] + rest;
    OneOfThree(head, verdict, rest, Info("No tests"), Info("Tests passed"), Error("Tests failed"));
  }

  // ----- The deploy stage -----

  /** After a test run whose outcome is not exactly the success marker,
      `deploy` is never called and the summary is "Tests failed". */
  lemma FailedTestsBlockDeploy(sendEmailSummary: bool, p: Project)
    requires p.hasTests && p.testsOutcome != SUCCESS
    ensures Deployed !in RunTrace(sendEmailSummary, p)
    ensures Error("Tests failed") in RunTrace(sendEmailSummary, p)
    ensures Summary(p) == "Tests failed"
  {
  }

  /** `deploy` is called exactly once when there are no tests or they
      succeeded, and never otherwise. */
  lemma DeployOnceIffEligible(sendEmailSummary: bool, p: Project)
    ensures Occurrences(RunTrace(sendEmailSummary, p), Deployed)
         == if !p.hasTests || p.testsOutcome == SUCCESS then 1 else 0
  {
    RunTraceByStages(sendEmailSummary, p);
    var tests := TestStageTrace(p);
    var email := EmailTrace(sendEmailSummary, Summary(p));
    if ReachesDeploy(p) {
      var rest := DeployStageTrace(p)[1..] + email;
      assert RunTrace(sendEmailSummary, p) == tests + [Deployed] + rest;
      OccursOnce(tests, Deployed, rest);
    }
  }

  /** Once deploy is reached, its outcome alone decides between the two deploy summaries. */
  lemma DeployOutcomeDecidesSummary(p: Project)
    requires !p.hasTests || p.testsOutcome == SUCCESS
    ensures Summary(p) == "Deployment failed" <==> p.deployOutcome != SUCCESS
    ensures Summary(p) == "Deployment completed successfully" <==> p.deployOutcome == SUCCESS
  {
  }

  /** The deploy stage writes one log line exactly when it is reached. */
  lemma OneDeployStageLogIffReached(sendEmailSummary: bool, p: Project)
    ensures var t := RunTrace(sendEmailSummary, p);
      Occurrences(t, Info("Deployment successful")) + Occurrences(t, Error("Deployment failed"))
        == if ReachesDeploy(p) then 1 else 0
  {
    var t := RunTrace(sendEmailSummary, p);
    var tests := TestStageTrace(p);
    var email := EmailTrace(sendEmailSummary, Summary(p));
    RunTraceByStages(sendEmailSummary, p);
    StageLogs(sendEmailSummary, p);
    if ReachesDeploy(p) {
      var deploy := DeployStageTrace(p);
      assert t == (tests + [Deployed]) + [deploy[1]] + email;
      OneOfTwo(tests + [Deployed], deploy[1], email, Info("Deployment successful"), Error("Deployment failed"));
    } else {
      assert t == tests + email;
      assert Info("Deployment successful") !in t && Error("Deployment failed") !in t;
    }
  }

  // ----- The notification -----

  /** Every run calls `sendEmail` exactly once, last, with the summary it chose. */
  lemma SendEmailOnce(sendEmailSummary: bool, p: Project)
    ensures var t := RunTrace(sendEmailSummary, p);
      && Occurrences(t, Info("Sending email")) + Occurrences(t, Info("Email disabled")) == 1
      && |EmailTrace(sendEmailSummary, Summary(p))| <= |t|
      && t[|t| - |EmailTrace(sendEmailSummary, Summary(p))|..]
         == EmailTrace(sendEmailSummary, Summary(p))
  {
    var t := RunTrace(sendEmailSummary, p);
    var before := BeforeNotification(p);
    var email := EmailTrace(sendEmailSummary, Summary(p));
    RunTraceByStages(sendEmailSummary, p);
    assert t == before + email;
    assert t[|before|..] == email;
    assert email == [email[0]] + email[1..];
    assert t == before + [email[0]] + email[1..];
    OneOfTwo(before, email[0], email[1..], Info("Sending email"), Info("Email disabled"));
  }

  /** With the flag off nothing is sent, "Sending email" is never logged and
      "Email disabled" ends the run. */
  lemma EmailDisabled(sendEmailSummary: bool, p: Project)
    requires !sendEmailSummary
    ensures var t := RunTrace(sendEmailSummary, p);
      && (forall e :: e in t ==> !e.Sent?)
      && Info("Sending email") !in t
      && t[|t| - 1] == Info("Email disabled")
  {
  }

  /** With the flag on, "Sending email" is logged and then the summary is sent,
      once, as the last event; nothing else is ever sent. */
  lemma EmailEnabled(sendEmailSummary: bool, p: Project)
    requires sendEmailSummary
    ensures var t := RunTrace(sendEmailSummary, p);
      && (forall e :: e in t && e.Sent? ==> e.text == Summary(p))
      && Occurrences(t, Sent(Summary(p))) == 1
      && Info("Email disabled") !in t
      && 2 <= |t| && t[|t| - 2] == Info("Sending email") && t[|t| - 1] == Sent(Summary(p))
  {
    RunTraceByStages(sendEmailSummary, p);
    SentOnceAtEnd(BeforeNotification(p), Summary(p));
  }

  /** A trace segment free of sends and email logs, followed by an enabled
      notification, sends exactly its text, once, last. */
  lemma SentOnceAtEnd(before: seq<Event>, text: string)
    requires forall e :: e in before ==> !e.Sent? && !IsEmailLog(e)
    ensures var t := before + [Info("Sending email"), Sent(text)];
      && (forall e :: e in t && e.Sent? ==> e.text == text)
      && Occurrences(t, Sent(text)) == 1
      && Info("Email disabled") !in t
      && t[|t| - 2] == Info("Sending email") && t[|t| - 1] == Sent(text)
  {
    assert before + [Info("Sending email"), Sent(text)] == (before + [Info("Sending email")]) + [Sent(text)] + [];
    OccursOnce(before + [Info("Sending email")], Sent(text), []);
  }

  // ----- Log severities -----

  /** Error-severity lines are written only for the two failures; every other
      line is at info and is one of the five fixed info lines. */
  lemma LogSeverities(sendEmailSummary: bool, p: Project)
    ensures forall e :: e in RunTrace(sendEmailSummary, p) && e.Error? ==>
      e.line == "Tests failed" || e.line == "Deployment failed"
    ensures forall e :: e in RunTrace(sendEmailSummary, p) && e.Info? ==>
      e.line in {"No tests", "Tests passed", "Deployment successful", "Sending email", "Email disabled"}
  {
  }

  /** "Tests failed" is logged at error exactly when the tests failed, and
      "Deployment failed" exactly when deploy was reached and failed. This is
      the whole-run statement: `StageLogs` says it of each stage on its own,
      and here the two are combined with which stages a run contains. */
  lemma ErrorsIffFailures(sendEmailSummary: bool, p: Project)
    ensures Error("Tests failed") in RunTrace(sendEmailSummary, p) <==> TestsFailed(p)
    ensures Error("Deployment failed") in RunTrace(sendEmailSummary, p)
        <==> ReachesDeploy(p) && DeploymentFailed(p)
  {
  }

  // ----- Ordering -----

  /** The test-stage log precedes every call of `deploy`. */
  lemma TestLogPrecedesDeploy(sendEmailSummary: bool, p: Project)
    ensures var t := RunTrace(sendEmailSummary, p);
      forall i, j :: 0 <= i < |t| && 0 <= j < |t| && IsTestStageLog(t[i]) && t[j] == Deployed ==> i < j
  {
  }

  /** The deploy-stage log precedes the email log. */
  lemma DeployLogPrecedesEmailLog(sendEmailSummary: bool, p: Project)
    ensures var t := RunTrace(sendEmailSummary, p);
      forall i, j :: 0 <= i < |t| && 0 <= j < |t| && IsDeployStageLog(t[i]) && IsEmailLog(t[j]) ==> i < j
  {
  }

  /** The email log is the last log line of the run. */
  lemma EmailLogIsLastLog(sendEmailSummary: bool, p: Project)
    ensures var t := RunTrace(sendEmailSummary, p);
      forall i, j :: 0 <= i < j < |t| && IsEmailLog(t[i]) ==> !IsLog(t[j])
  {
  }

  /** A deploy call is always preceded by a test-stage verdict that allows it:
      a failed test run never reaches deploy. */
  lemma DeployOnlyAfterNonFailingTestStage(sendEmailSummary: bool, p: Project)
    ensures var t := RunTrace(sendEmailSummary, p);
      forall j :: 0 <= j < |t| && t[j] == Deployed ==>
        exists i :: 0 <= i < j && (t[i] == Info("No tests") || t[i] == Info("Tests passed"))
    ensures Error("Tests failed") in RunTrace(sendEmailSummary, p) ==> Deployed !in RunTrace(sendEmailSummary, p)
  {
    var t := RunTrace(sendEmailSummary, p);
    var tests := TestStageTrace(p);
    var rest := AfterTestStage(sendEmailSummary, p);
    RunTraceByStages(sendEmailSummary, p);
    assert t == tests + rest;
    if ReachesDeploy(p) {
      var k := |tests| - 1;
      assert t[k] == Info("No tests") || t[k] == Info("Tests passed");
      assert Deployed !in tests;
    } else {
      assert Deployed !in rest;
    }
  }

  // ----- Inputs the run does not ask for -----

  /** An answer the run never asks for cannot change it: the tests' outcome
      when there are no tests, the deploy outcome when the tests failed. */
  lemma UnaskedOutcomesIrrelevant(sendEmailSummary: bool, p: Project, outcome: string)
    ensures !p.hasTests ==>
      RunTrace(sendEmailSummary, p) == RunTrace(sendEmailSummary, p.(testsOutcome := outcome))
    ensures TestsFailed(p) ==>
      RunTrace(sendEmailSummary, p) == RunTrace(sendEmailSummary, p.(deployOutcome := outcome))
  {
  }

  /** Four representative runs, with the notification enabled. */
  lemma ConcreteRuns(testsOutcome: string, deployOutcome: string)
    ensures RunTrace(true, Project(false, testsOutcome, "success"))
         == [Info("No tests"), Deployed, Info("Deployment successful"),
             Info("Sending email"), Sent("Deployment completed successfully")]
    ensures RunTrace(true, Project(true, "success", "success"))
         == [RanTests, Info("Tests passed"), Deployed, Info("Deployment successful"),
             Info("Sending email"), Sent("Deployment completed successfully")]
    ensures RunTrace(true, Project(true, "failure", deployOutcome))
         == [RanTests, Error("Tests failed"), Info("Sending email"), Sent("Tests failed")]
    ensures RunTrace(true, Project(true, "success", "failure"))
         == [RanTests, Info("Tests passed"), Deployed, Error("Deployment failed"),
             Info("Sending email"), Sent("Deployment failed")]
  {
  }
}
