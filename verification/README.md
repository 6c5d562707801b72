# Pipeline runner: a Dafny model

The repository's one piece of logic is the `Pipeline` class
(`src/main/java/Pipeline.java`). For one project it runs a test stage, then a
deploy stage when the tests are absent or passed, and finally sends one summary
email, or logs that email is disabled. Its collaborators are a project
(`hasTests()`, `runTests()`, `deploy()`), a logger (`info`, `error`), an
emailer (`send`) and a configuration flag (`sendEmailSummary()`).

The model has three files:

- `dependencies.dfy` (module `Dependencies`): the collaborators from the
  outside. A `Project` is the fixed answers its three calls give during a run.
  Every call the runner makes on a collaborator is an `Event` in one ordered
  trace:
  - `Info(line)` and `Error(line)`: the logger's two severities;
  - `Sent(text)`: the emailer's `send`;
  - `RanTests` and `Deployed`: the project's `runTests()` and `deploy()`.

  `Occurrences` counts events in a trace. Small lemmas (`OccurrencesAppend`,
  `OccursOnce`, `OneOfTwo`, `OneOfThree`) count over concatenated segments.
- `pipeline.dfy` (module `Pipeline`): the runner itself.
  - Class `Pipeline` holds the configuration flag as a constant and the trace
    as a field. `Run`, `HaveTestsFailed`, `HasDeploymentFailed` and
    `SendEmail` append to the trace step by step, with the same branches and
    early returns as the Java methods.
  - Each method is proved to append exactly what a pure function says:
    `TestStageTrace`, `DeployStageTrace`, `EmailTrace` and `RunTrace`.
  - The success marker is the constant `SUCCESS = "success"`. An outcome
    counts as a success only when it equals that string exactly.
  - `Summary` is the summary text a run chooses.
- `pipeline_properties.dfy` (module `PipelineProperties`): the path properties
  of a run, proved about `RunTrace`.

## Model

| member | source | states |
|---|---|---|
| `Pipeline.Pipeline.constructor` | src/main/java/Pipeline.java:12-16 | a new runner keeps the configuration it is given and has made no call yet |
| `Pipeline.Pipeline.Run` | src/main/java/Pipeline.java:18-29 | a run appends exactly `RunTrace(flag, project)` to what was recorded before, so earlier runs do not influence it |
| `Pipeline.Pipeline.HaveTestsFailed` | src/main/java/Pipeline.java:31-44 | returns true iff the project has tests and their outcome is not exactly "success"; appends "No tests" (info), or the `runTests` call followed by "Tests passed" (info) or "Tests failed" (error) |
| `Pipeline.Pipeline.HasDeploymentFailed` | src/main/java/Pipeline.java:46-53 | calls `deploy` once; returns true iff its outcome is not exactly "success" and logs "Deployment failed" at error, otherwise logs "Deployment successful" at info |
| `Pipeline.Pipeline.SendEmail` | src/main/java/Pipeline.java:55-62 | with the flag on, logs "Sending email" and then sends the text; with it off, only logs "Email disabled" |
| `Pipeline.Summary` | src/main/java/Pipeline.java:18-29 | the chosen text is one of the three summaries; it is "Tests failed" iff the tests failed, and "Deployment failed" iff deploy was reached and failed |
| `Pipeline.RunBoth` | src/main/java/Pipeline.java:7-29 | two runs on one runner append the two runs' traces one after the other: apart from the configuration flag, the runner keeps no state between runs that changes what a run does |
| `PipelineProperties.BeforeNotification` | src/main/java/Pipeline.java:31-53 | the test and deploy stages never send email and never write an email log line |
| `PipelineProperties.AfterTestStage` | src/main/java/Pipeline.java:46-61 | after the test stage, `runTests` is never called and no test-stage log line is written |
| `PipelineProperties.RunTraceByStages` | src/main/java/Pipeline.java:18-29 | the run's trace is the test stage, then the deploy stage exactly when it is reached, then one notification carrying `Summary` |
| `PipelineProperties.StageLogs` | src/main/java/Pipeline.java:31-61 | each stage writes only its own log lines; the test stage logs "Tests failed" iff the tests failed, and the deploy stage logs "Deployment failed" iff the deploy outcome is not "success" |
| `PipelineProperties.NoTestsSkipsTestRun` | src/main/java/Pipeline.java:32-35 | without tests, `runTests` is never called, "No tests" is logged once at info as the first event, and no other test-stage line appears |
| `PipelineProperties.TestsRunOnceIffPresent` | src/main/java/Pipeline.java:31-37 | `runTests` is called once if the project has tests and zero times otherwise |
| `PipelineProperties.OneTestStageLog` | src/main/java/Pipeline.java:31-44 | exactly one of "No tests", "Tests passed" and "Tests failed" is logged, once |
| `PipelineProperties.FailedTestsBlockDeploy` | src/main/java/Pipeline.java:19-43 | when tests exist and their outcome is not exactly "success", `deploy` is never called, "Tests failed" is logged at error and the summary is "Tests failed" |
| `PipelineProperties.DeployOnceIffEligible` | src/main/java/Pipeline.java:19-47 | `deploy` is called exactly once when there are no tests or they returned "success", and zero times otherwise |
| `PipelineProperties.DeployOutcomeDecidesSummary` | src/main/java/Pipeline.java:24-52 | once deploy is reached, the summary is "Deployment failed" iff the deploy outcome is not "success", and "Deployment completed successfully" iff it is |
| `PipelineProperties.OneDeployStageLogIffReached` | src/main/java/Pipeline.java:46-53 | one deploy-stage line ("Deployment successful" or "Deployment failed") is logged when deploy is reached, none otherwise |
| `PipelineProperties.SendEmailOnce` | src/main/java/Pipeline.java:18-29 | every run calls `sendEmail` exactly once, with the chosen summary, and that call's events end the run |
| `PipelineProperties.EmailDisabled` | src/main/java/Pipeline.java:55-61 | with the flag off, nothing is sent, "Sending email" never appears, and "Email disabled" is the last event |
| `PipelineProperties.EmailEnabled` | src/main/java/Pipeline.java:55-61 | with the flag on, "Sending email" is logged and then the summary is sent exactly once as the last event; no other text is sent and "Email disabled" never appears |
| `PipelineProperties.SentOnceAtEnd` | src/main/java/Pipeline.java:56-58 | a trace segment without sends or email log lines, followed by an enabled notification, sends exactly that text, once, last |
| `PipelineProperties.LogSeverities` | src/main/java/Pipeline.java:31-61 | every error line is "Tests failed" or "Deployment failed"; every info line is one of the five fixed info lines |
| `PipelineProperties.ErrorsIffFailures` | src/main/java/Pipeline.java:37-50 | "Tests failed" is logged at error iff the tests failed; "Deployment failed" is logged at error iff deploy was reached and failed |
| `PipelineProperties.TestLogPrecedesDeploy` | src/main/java/Pipeline.java:18-47 | every test-stage log line comes before every `deploy` call |
| `PipelineProperties.DeployLogPrecedesEmailLog` | src/main/java/Pipeline.java:24-61 | every deploy-stage log line comes before the email log line |
| `PipelineProperties.EmailLogIsLastLog` | src/main/java/Pipeline.java:55-61 | no log line follows the email log line |
| `PipelineProperties.DeployOnlyAfterNonFailingTestStage` | src/main/java/Pipeline.java:19-47 | each `deploy` call is preceded by "No tests" or "Tests passed"; a run that logs "Tests failed" never deploys |
| `PipelineProperties.UnaskedOutcomesIrrelevant` | src/main/java/Pipeline.java:31-47 | the tests' outcome cannot change a run of a project without tests, and the deploy outcome cannot change a run whose tests failed |
| `PipelineProperties.ConcreteRuns` | src/main/java/Pipeline.java:18-62 | the complete traces of four runs: no tests with a successful deploy, passing tests with a successful deploy, failing tests, and passing tests with a failed deploy |

## Left out

- Implementations of `Config`, `Emailer`, `Logger` and `Project` (the
  `dependencies` package) are not part of this model. They perform the real
  I/O: running tests, deploying, mail transport and log persistence. Their
  calls are modelled only as answers (`Project`, the configuration flag) and
  as trace events.
- The logger and the emailer are separate objects in the source. The model
  records their calls in one interleaved trace, which is what the ordering
  properties need.
- The `hasTests()` and `sendEmailSummary()` calls are queries with no effect,
  so they are not trace events. Each project is assumed to give the same
  answer every time it is asked during a run.
- The configuration's answer is fixed for the runner's lifetime, not asked per
  run. The source asks `sendEmailSummary()` afresh on every `sendEmail` call,
  once per run; a configuration whose answer changes between runs, and the
  different traces it would give two runs of the same project, are not
  modelled.
- The source has no top-level handler for collaborator failures: a failure
  raised inside `run` propagates to its caller, and the model follows the
  source. Collaborator failures are not modelled, including a `null` outcome,
  which would make `equals` fail.
- Concurrent runs are not modelled. The runner's only fields are its three
  final collaborators, and a run's trace depends only on its own project and
  the configuration flag (`Pipeline.RunBoth`).
- Java string semantics beyond exact equality: outcomes and log lines are
  sequences of characters compared with `==`.
