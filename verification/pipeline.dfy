/**
 * The pipeline runner: for one project it runs the test stage, then (when the
 * tests are absent or passed) the deploy stage, and finally sends, or declines
 * to send, one summary email. Every effect is an event appended to the trace.
 *
 * The pure functions below say which events each step appends; the methods of
 * class `Pipeline` are the runner itself and are proved to append exactly those.
 */
module Pipeline {
  import opened Dependencies

  /** The marker an outcome must equal, exactly, to count as a success. */
  const SUCCESS: string := "success"

  /** The result of the runner's `haveTestsFailed`: tests exist and their
      outcome is not the success marker. */
  predicate TestsFailed(p: Project) {
    p.hasTests && p.testsOutcome != SUCCESS
  }

  /** The result of the runner's `hasDeploymentFailed`. */
  predicate DeploymentFailed(p: Project) {
    p.deployOutcome != SUCCESS
  }

  /** The deploy stage is reached when the test stage did not report failure.
      It is `!TestsFailed` under the name of the path condition it stands for,
      so that statements about the deploy stage read as the source's control
      flow (the early return at the top of `run`). */
  predicate ReachesDeploy(p: Project) {
    !TestsFailed(p)
  }

  /** The events the test stage appends. */
  function TestStageTrace(p: Project): seq<Event> {
    if !p.hasTests then [Info("No tests")]
    else if p.testsOutcome == SUCCESS then [RanTests, Info("Tests passed")]
    else [RanTests, Error("Tests failed")]
  }

  /** The events the deploy stage appends. */
  function DeployStageTrace(p: Project): seq<Event> {
    if DeploymentFailed(p) then [Deployed, Error("Deployment failed")]
    else [Deployed, Info("Deployment successful")]
  }

  /** The events one email notification appends, gated by the configuration flag. */
  function EmailTrace(sendEmailSummary: bool, text: string): seq<Event> {
    if sendEmailSummary then [Info("Sending email"), Sent(text)]
    else [Info("Email disabled")]
  }

  /** The one summary text a run chooses for its notification. */
  function Summary(p: Project): (text: string)
    ensures text == "Tests failed" || text == "Deployment failed"
         || text == "Deployment completed successfully"
    ensures text == "Tests failed" <==> TestsFailed(p)
    ensures text == "Deployment failed" <==> ReachesDeploy(p) && DeploymentFailed(p)
  {
    if TestsFailed(p) then "Tests failed"
    else if DeploymentFailed(p) then "Deployment failed"
    else "Deployment completed successfully"
  }

  /** The events one run appends, following the runner's early returns. */
  function RunTrace(sendEmailSummary: bool, p: Project): seq<Event> {
    if TestsFailed(p) then
      TestStageTrace(p) + EmailTrace(sendEmailSummary, "Tests failed")
    else if DeploymentFailed(p) then
      TestStageTrace(p) + DeployStageTrace(p) + EmailTrace(sendEmailSummary, "Deployment failed")
    else
      TestStageTrace(p) + DeployStageTrace(p)
        + EmailTrace(sendEmailSummary, "Deployment completed successfully")
  }

  /** The runner. Its configuration is fixed at construction; the logger,
      the emailer and the project it is handed record their calls in `trace`. */
  class Pipeline {
    /** The configuration's email-summary flag. */
    const sendEmailSummary: bool
    /** Every call made so far on the logger, the emailer and the projects, in order. */
    var trace: seq<Event>

    constructor (sendEmailSummary: bool)
      ensures this.sendEmailSummary == sendEmailSummary
      ensures trace == []
    {
      this.sendEmailSummary := sendEmailSummary;
      trace := [];
    }

    /** Runs one project through the test, deploy and notify steps. */
    method Run(project: Project)
      modifies this`trace
      ensures trace == old(trace) + RunTrace(sendEmailSummary, project)
    {
      var testsFailed := HaveTestsFailed(project);
      if testsFailed {
        SendEmail("Tests failed");
        return;
      }

      var deploymentFailed := HasDeploymentFailed(project);
      if deploymentFailed {
        SendEmail("Deployment failed");
        return;
      }
      SendEmail("Deployment completed successfully");
    }

    /** The test stage: runs the tests if there are any and logs the verdict. */
    method HaveTestsFailed(project: Project) returns (failed: bool)
      modifies this`trace
      ensures failed == TestsFailed(project)
      ensures trace == old(trace) + TestStageTrace(project)
    {
      if !project.hasTests {
        trace := trace + [Info("No tests")];
        return false;
      }

      trace := trace + [RanTests];
      if project.testsOutcome == SUCCESS {
        trace := trace + [Info("Tests passed")];
        return false;
      }

      trace := trace + [Error("Tests failed")];
      return true;
    }

    /** The deploy stage: deploys and logs the verdict. */
    method HasDeploymentFailed(project: Project) returns (failed: bool)
      modifies this`trace
      ensures failed == DeploymentFailed(project)
      ensures trace == old(trace) + DeployStageTrace(project)
    {
      trace := trace + [Deployed];
      if project.deployOutcome != SUCCESS {
        trace := trace + [Error("Deployment failed")];
        return true;
      }
      trace := trace + [Info("Deployment successful")];
      return false;
    }

    /** Sends `text` as the summary email when the configuration allows it. */
    method SendEmail(text: string)
      modifies this`trace
      ensures trace == old(trace) + EmailTrace(sendEmailSummary, text)
    {
      if sendEmailSummary {
        trace := trace + [Info("Sending email")];
        trace := trace + [Sent(text)];
      } else {
        trace := trace + [Info("Email disabled")];
      }
    }
  }

  /** Two runs on one runner: what the second run appends depends only on the
      configuration and its own project, never on the run before it. */
  method RunBoth(sendEmailSummary: bool, first: Project, second: Project) returns (t: seq<Event>)
    ensures t == RunTrace(sendEmailSummary, first) + RunTrace(sendEmailSummary, second)
  {
    var pipeline := new Pipeline(sendEmailSummary);
    pipeline.Run(first);
    pipeline.Run(second);
    t := pipeline.trace;
  }
}
