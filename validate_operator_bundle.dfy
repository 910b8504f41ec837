/** The check that runs `operator-sdk bundle validate` on the unpacked bundle.
    It keeps no state: its verdict is the report's own Passed flag, and the
    errors and warnings of the report are only logged. */
module ValidateOperatorBundle {
  import opened Base
  import opened CheckTypes

  /** The error every logged validation error is recorded under. */
  const ErrorCause := "validate operator bundle error"
  /** The prefix of every logged validation warning. */
  const WarningPrefix := "warning: "
  /** The prefix of the error returned when the validator itself fails. */
  const ExecErrorPrefix := "error while executing operator-sdk bundle validate: "

  /** One validator output: its errors and warnings, each as its display string. */
  datatype Output = Output(errors: seq<string>, warnings: seq<string>)

  /** The validator's report: the overall flag and the outputs, in order. */
  datatype BundleReport = BundleReport(passed: bool, results: seq<Output>)

  /** A log line: an error-severity entry with its cause, or an info entry. */
  datatype LogEntry = ErrorEntry(cause: string, message: string) | InfoEntry(message: string)

  /** Runs the external bundle validator on a bundle directory. */
  type BundleValidator = string -> Result<BundleReport>

  /** The entries logged for a list of errors, in order. */
  function ErrorEntries(errs: seq<string>): seq<LogEntry>
  {
    if errs == [] then [] else ErrorEntries(errs[..|errs| - 1]) + [ErrorEntry(ErrorCause, errs[|errs| - 1])]
  }

  /** The entries logged for a list of warnings, in order. */
  function WarningEntries(warns: seq<string>): seq<LogEntry>
  {
    if warns == [] then [] else WarningEntries(warns[..|warns| - 1]) + [InfoEntry(WarningPrefix + warns[|warns| - 1])]
  }

  /** The entries logged for one output: all its errors, then all its warnings. */
  function OutputLog(o: Output): seq<LogEntry>
  {
    ErrorEntries(o.errors) + WarningEntries(o.warnings)
  }

  /** The entries logged for a list of outputs, output by output. */
  function ReportLog(rs: seq<Output>): seq<LogEntry>
  {
    if rs == [] then [] else ReportLog(rs[..|rs| - 1]) + OutputLog(rs[|rs| - 1])
  }

  /** The number of errors over all outputs. */
  function TotalErrors(rs: seq<Output>): nat
  {
    if rs == [] then 0 else TotalErrors(rs[..|rs| - 1]) + |rs[|rs| - 1].errors|
  }

  /** The number of warnings over all outputs. */
  function TotalWarnings(rs: seq<Output>): nat
  {
    if rs == [] then 0 else TotalWarnings(rs[..|rs| - 1]) + |rs[|rs| - 1].warnings|
  }

  /** The number of error-severity entries in a log. */
  function CountErrorEntries(log: seq<LogEntry>): nat
  {
    if log == [] then 0 else CountErrorEntries(log[..|log| - 1]) + (if log[|log| - 1].ErrorEntry? then 1 else 0)
  }

  /** The i-th error of a list is logged as the i-th entry, at error severity. */
  lemma {:induction false} ErrorEntriesAt(errs: seq<string>)
    ensures |ErrorEntries(errs)| == |errs|
    ensures forall i :: 0 <= i < |errs| ==> ErrorEntries(errs)[i] == ErrorEntry(ErrorCause, errs[i])
  {
    if errs != [] {
      ErrorEntriesAt(errs[..|errs| - 1]);
    }
  }

  /** The i-th warning of a list is logged as the i-th entry, at info severity,
      behind the warning prefix. */
  lemma {:induction false} WarningEntriesAt(warns: seq<string>)
    ensures |WarningEntries(warns)| == |warns|
    ensures forall i :: 0 <= i < |warns| ==> WarningEntries(warns)[i] == InfoEntry(WarningPrefix + warns[i])
  {
    if warns != [] {
      WarningEntriesAt(warns[..|warns| - 1]);
    }
  }

  /** Counting entries distributes over concatenated logs. */
  lemma {:induction false} CountErrorEntriesAppend(a: seq<LogEntry>, b: seq<LogEntry>)
    ensures CountErrorEntries(a + b) == CountErrorEntries(a) + CountErrorEntries(b)
  {
    if b != [] {
      assert (a + b)[..|a + b| - 1] == a + b[..|b| - 1];
      CountErrorEntriesAppend(a, b[..|b| - 1]);
    } else {
      assert a + b == a;
    }
  }

  /** One output logs one error-severity entry per error and one info entry per warning. */
  lemma {:induction false} OutputLogCounts(o: Output)
    ensures |OutputLog(o)| == |o.errors| + |o.warnings|
    ensures CountErrorEntries(OutputLog(o)) == |o.errors|
  {
    ErrorEntriesAt(o.errors);
    WarningEntriesAt(o.warnings);
    CountErrorEntriesAppend(ErrorEntries(o.errors), WarningEntries(o.warnings));
    ErrorCountOfErrors(o.errors);
    ErrorCountOfWarnings(o.warnings);
  }

  /** Every entry made for an error is at error severity. */
  lemma {:induction false} ErrorCountOfErrors(errs: seq<string>)
    ensures CountErrorEntries(ErrorEntries(errs)) == |errs|
  {
    if errs != [] {
      var init := ErrorEntries(errs[..|errs| - 1]);
      var last := [ErrorEntry(ErrorCause, errs[|errs| - 1])];
      CountErrorEntriesAppend(init, last);
      ErrorCountOfErrors(errs[..|errs| - 1]);
      assert CountErrorEntries(last) == 1 by {
        assert last[..0] == [];
      }
    }
  }

  /** No entry made for a warning is at error severity. */
  lemma {:induction false} ErrorCountOfWarnings(warns: seq<string>)
    ensures CountErrorEntries(WarningEntries(warns)) == 0
  {
    if warns != [] {
      var init := WarningEntries(warns[..|warns| - 1]);
      var last := [InfoEntry(WarningPrefix + warns[|warns| - 1])];
      CountErrorEntriesAppend(init, last);
      ErrorCountOfWarnings(warns[..|warns| - 1]);
      assert CountErrorEntries(last) == 0 by {
        assert last[..0] == [];
      }
    }
  }

  /** The log has one entry per error and warning of the report; exactly the
      errors are logged at error severity, so the warnings are the rest. */
  lemma {:induction false} ReportLogCounts(rs: seq<Output>)
    ensures |ReportLog(rs)| == TotalErrors(rs) + TotalWarnings(rs)
    ensures CountErrorEntries(ReportLog(rs)) == TotalErrors(rs)
  {
    if rs != [] {
      ReportLogCounts(rs[..|rs| - 1]);
      OutputLogCounts(rs[|rs| - 1]);
      CountErrorEntriesAppend(ReportLog(rs[..|rs| - 1]), OutputLog(rs[|rs| - 1]));
    }
  }

  /** Outputs are logged in order: the log of two runs of outputs is the log
      of the first followed by the log of the second. */
  lemma {:induction false} ReportLogAppend(a: seq<Output>, b: seq<Output>)
    ensures ReportLog(a + b) == ReportLog(a) + ReportLog(b)
  {
    if b == [] {
      assert a + b == a;
    } else {
      assert (a + b)[..|a + b| - 1] == a + b[..|b| - 1];
      ReportLogAppend(a, b[..|b| - 1]);
    }
  }

  /** Every error-severity entry carries the fixed cause, and every info
      entry is a warning behind the warning prefix. */
  lemma {:induction false} ReportLogShape(rs: seq<Output>)
    ensures forall e :: e in ReportLog(rs) && e.ErrorEntry? ==> e.cause == ErrorCause
    ensures forall e :: e in ReportLog(rs) && e.InfoEntry? ==> IsPrefix(WarningPrefix, e.message)
  {
    if rs != [] {
      ReportLogShape(rs[..|rs| - 1]);
      var o := rs[|rs| - 1];
      ErrorEntriesAt(o.errors);
      WarningEntriesAt(o.warnings);
      forall e | e in OutputLog(o)
        ensures e.ErrorEntry? ==> e.cause == ErrorCause
        ensures e.InfoEntry? ==> IsPrefix(WarningPrefix, e.message)
      {
        if e in ErrorEntries(o.errors) {
          var i :| 0 <= i < |o.errors| && ErrorEntries(o.errors)[i] == e;
        } else {
          assert e in WarningEntries(o.warnings);
          var i :| 0 <= i < |o.warnings| && WarningEntries(o.warnings)[i] == e;
          assert (WarningPrefix + o.warnings[i])[..|WarningPrefix|] == WarningPrefix;
        }
      }
    }
  }

  /** Logging one more error extends the error entries by one. */
  lemma ErrorEntriesStep(errs: seq<string>, j: nat)
    requires j < |errs|
    ensures ErrorEntries(errs[..j + 1]) == ErrorEntries(errs[..j]) + [ErrorEntry(ErrorCause, errs[j])]
  {
    assert errs[..j + 1][..j] == errs[..j];
  }

  /** Logging one more warning extends the warning entries by one. */
  lemma WarningEntriesStep(warns: seq<string>, k: nat)
    requires k < |warns|
    ensures WarningEntries(warns[..k + 1]) == WarningEntries(warns[..k]) + [InfoEntry(WarningPrefix + warns[k])]
  {
    assert warns[..k + 1][..k] == warns[..k];
  }

  /** Walking one more output extends the report log by that output's log. */
  lemma ReportLogStep(rs: seq<Output>, i: nat)
    requires i < |rs|
    ensures ReportLog(rs[..i + 1]) == ReportLog(rs[..i]) + OutputLog(rs[i])
  {
    assert rs[..i + 1][..i] == rs[..i];
  }

  /** Reduces a report to a verdict: the report's Passed flag, never an error.
      When the report did not pass or has outputs, every output's errors and
      then its warnings are logged, output by output. */
  method ValidateReport(report: BundleReport) returns (v: Verdict, log: seq<LogEntry>)
    ensures v == Verdict(report.passed, None)
    ensures log == ReportLog(report.results)
    ensures report.passed && report.results == [] ==> log == []
  {
    log := [];
    if !report.passed || |report.results| > 0 {
      var results := report.results;
      for i := 0 to |results|
        invariant log == ReportLog(results[..i])
      {
        ghost var done := log;
        var output := results[i];
        for j := 0 to |output.errors|
          invariant log == done + ErrorEntries(output.errors[..j])
        {
          ErrorEntriesStep(output.errors, j);
          log := log + [ErrorEntry(ErrorCause, output.errors[j])];
        }
        assert output.errors[..|output.errors|] == output.errors;
        ghost var withErrors := log;
        for k := 0 to |output.warnings|
          invariant log == withErrors + WarningEntries(output.warnings[..k])
        {
          WarningEntriesStep(output.warnings, k);
          log := log + [InfoEntry(WarningPrefix + output.warnings[k])];
        }
        assert output.warnings[..|output.warnings|] == output.warnings;
        ReportLogStep(results, i);
      }
      assert results[..|results|] == results;
    }
    v := Verdict(report.passed, None);
  }

  /** Runs the validator on the bundle directory; its failure is returned as a
      failed verdict with a wrapped error and nothing logged, its report is
      reduced by ValidateReport. */
  method Validate(ref: Reference, validator: BundleValidator) returns (v: Verdict, log: seq<LogEntry>)
    ensures validator(ref.imageFsPath).Err? ==>
              v == Verdict(false, Some(Error(ExecErrorPrefix + validator(ref.imageFsPath).error.message)))
              && log == []
    ensures validator(ref.imageFsPath).Ok? ==>
              v == Verdict(validator(ref.imageFsPath).value.passed, None)
              && log == ReportLog(validator(ref.imageFsPath).value.results)
    ensures !v.passed || v.err == None
    ensures v.err.Some? ==> IsPrefix("error while executing operator-sdk bundle validate: ", v.err.value.message)
  {
    var report := validator(ref.imageFsPath);
    if report.Err? {
      return Verdict(false, Some(Error(ExecErrorPrefix + report.error.message))), [];
    }
    v, log := ValidateReport(report.value);
  }

  /** The check's stable identifier. */
  function Name(): (n: string)
    ensures n == "ValidateOperatorBundle"
  {
    "ValidateOperatorBundle"
  }

  /** Static documentation. */
  function Metadata(): (m: CheckTypes.Metadata)
    ensures m.level == "best"
    ensures m.knowledgeBaseUrl == m.checkUrl
  {
    var docs := "https://sdk.operatorframework.io/docs/olm-integration/tutorial-bundle/";
    CheckTypes.Metadata(
      "Validating Bundle image that checks if it can validate the content and format of the operator bundle",
      "best", docs, docs)
  }

  /** The one help text of this check, pointing at the preflight log. */
  function Help(): (h: HelpText)
    ensures Contains(h.message, "preflight.log")
  {
    var lead := "Check ValidateOperatorBundle encountered an error. Please review the ";
    var tail := " file for more information.";
    ContainsMiddle(lead, "preflight.log", tail);
    HelpText(lead + "preflight.log" + tail,
      "Valid bundles are defined by bundle spec, so make sure that this bundle conforms to that spec. "
      + "More Information: https://github.com/operator-framework/operator-registry/blob/master/docs/design/operator-bundle.md")
  }
}
