/** What the two scorecard-backed checks share: the settings of the embedded
    scorecard runner, the request it is given, the report it returns, and the
    help text shown after an infrastructure failure. */
module Scorecard {
  import opened Base
  import opened CheckTypes

  /** Outcome of one scorecard test. */
  datatype TestState = PassState | FailState | ErrorState

  /** One named scorecard test with its outcome and log. */
  datatype ScorecardItem = ScorecardItem(name: string, state: TestState, log: string)

  /** The parsed scorecard report: its items, in order. */
  datatype ScorecardReport = ScorecardReport(items: seq<ScorecardItem>)

  /** The settings a scorecard check keeps for its runner. */
  datatype Settings = Settings(namespace: string, serviceAccount: string, kubeconfig: seq<bv8>, waitTime: string)

  /** One request to fetch a report: the runner settings, the unpacked bundle
      path, the test selector and the artifact file the report is written to. */
  datatype Request = Request(settings: Settings, imagePath: string, selector: seq<string>, resultFile: string)

  /** Runs the scorecard and reads its report back; an error is an infrastructure failure. */
  type Fetch = Request -> Result<ScorecardReport>

  /** Reduces the report items to a verdict. */
  type Reduce = seq<ScorecardItem> -> Verdict

  /** Help shown by either scorecard check once it has hit an infrastructure failure. */
  const FatalHelp := HelpText(
    "There was a fatal error while running operator-sdk scorecard tests. "
    + "Please see the preflight log for details. If necessary, set logging to be more verbose.",
    "If the logs are showing a context timeout, try setting wait time to a higher value.")

  /** Where both checks' metadata point for scorecard documentation. */
  const ScorecardDocs := "https://sdk.operatorframework.io/docs/testing-operators/scorecard/"
}
