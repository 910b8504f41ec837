/** The scorecard check that runs the OLM test suite against the bundle. */
module ScorecardOlmSuite {
  import opened Base
  import opened CheckTypes
  import opened Scorecard

  /** The artifact file the scorecard report of this check is written to. */
  const ResultFile := "operator_bundle_scorecard_OlmSuiteCheck.json"

  /** The scorecard selector naming the OLM test suite. */
  const Selector: seq<string> := ["suite=olm"]

  /** The help prefix and suffix around the artifact file name. */
  const HelpLead := "Check ScorecardOlmSuiteCheck encountered an error. Please review the "
  const HelpTail := " file in your execution artifacts for more information."

  /** The request Validate hands to the runner for `ref`. */
  function SuiteRequest(settings: Settings, ref: Reference): (r: Request)
    ensures r.selector == ["suite=olm"]
    ensures r.resultFile == "operator_bundle_scorecard_OlmSuiteCheck.json"
    ensures r.imagePath == ref.imageFsPath && r.settings == settings
  {
    Request(settings, ref.imageFsPath, Selector, ResultFile)
  }

  /** The help shown after an ordinary failed verdict. */
  function ReportHelp(): (h: HelpText)
    ensures Contains(h.message, "operator_bundle_scorecard_OlmSuiteCheck.json")
    ensures h != FatalHelp
  {
    ContainsMiddle(HelpLead, ResultFile, HelpTail);
    HelpText(HelpLead + ResultFile + HelpTail, "See scorecard output for details, artifacts/operator_bundle_scorecard_OlmSuiteCheck.json")
  }

  class ScorecardOlmSuiteCheck {
    /** Settings of the embedded scorecard runner. */
    const settings: Settings
    /** The runner: fetches the scorecard report for a request. */
    const fetch: Fetch
    /** The shared reducer from report items to a verdict. */
    const reduce: Reduce
    /** Latched by the first infrastructure failure; never cleared. */
    var fatalError: bool

    constructor (fetch: Fetch, reduce: Reduce, namespace: string, serviceAccount: string,
                 kubeconfig: seq<bv8>, waitTime: string)
      ensures settings == Settings(namespace, serviceAccount, kubeconfig, waitTime)
      ensures this.fetch == fetch && this.reduce == reduce
      ensures !fatalError
    {
      this.settings := Settings(namespace, serviceAccount, kubeconfig, waitTime);
      this.fetch := fetch;
      this.reduce := reduce;
      fatalError := false;
    }

    /** Fetches the report with this check's selector and artifact name; a
        fetch error is returned unchanged and latches the fatal flag, a
        fetched report is handed to the reducer with the flag untouched. */
    method Validate(ref: Reference) returns (v: Verdict)
      modifies this`fatalError
      ensures fetch(SuiteRequest(settings, ref)).Err? ==>
                v == Verdict(false, Some(fetch(SuiteRequest(settings, ref)).error)) && fatalError
      ensures fetch(SuiteRequest(settings, ref)).Ok? ==>
                v == reduce(fetch(SuiteRequest(settings, ref)).value.items) && fatalError == old(fatalError)
      ensures old(fatalError) ==> fatalError
    {
      var report := fetch(SuiteRequest(settings, ref));
      if report.Err? {
        fatalError := true;
        return Verdict(false, Some(Error(report.error.message)));
      }
      v := reduce(report.value.items);
    }

    /** The check's stable identifier; it reads no state. */
    function Name(): (n: string)
      ensures n == "ScorecardOlmSuiteCheck"
    {
      "ScorecardOlmSuiteCheck"
    }

    /** Static documentation; it reads no state. */
    function Metadata(): (m: CheckTypes.Metadata)
      ensures m.level == "best"
      ensures IsPrefix(ScorecardDocs, m.knowledgeBaseUrl) && IsPrefix(ScorecardDocs, m.checkUrl)
    {
      CheckTypes.Metadata(
        "Operator-sdk scorecard OLM Test Suite Check",
        "best",
        ScorecardDocs + "#overview",
        ScorecardDocs + "#olm-test-suite")
    }

    /** The fatal help exactly when the flag is latched, otherwise the help
        that points at the artifact file. */
    function Help(): (h: HelpText)
      reads this
      ensures h == FatalHelp <==> fatalError
      ensures !fatalError ==> Contains(h.message, "operator_bundle_scorecard_OlmSuiteCheck.json")
    {
      if fatalError then FatalHelp else ReportHelp()
    }
  }

  /** One instance over its lifetime: a fresh check shows the report help; once
      a fetch fails it shows the fatal help, and still does after any later
      Validate, whether that one's fetch succeeds or not. */
  method FatalHelpIsLatched(fetch: Fetch, reduce: Reduce, settings: Settings, failing: Reference, later: Reference)
    returns (before: HelpText, failed: Verdict, after: HelpText, afterLater: HelpText)
    requires fetch(SuiteRequest(settings, failing)).Err?
    ensures before == ReportHelp() && before != FatalHelp
    ensures !failed.passed && failed.err.Some?
    ensures after == FatalHelp && afterLater == FatalHelp
  {
    var check := new ScorecardOlmSuiteCheck(fetch, reduce, settings.namespace, settings.serviceAccount,
                                           settings.kubeconfig, settings.waitTime);
    before := check.Help();
    failed := check.Validate(failing);
    after := check.Help();
    var _ := check.Validate(later);
    afterLater := check.Help();
  }
}
