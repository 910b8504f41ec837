# Operator certification checks, modelled in Dafny

This project models the check layer of an operator-certification plugin. Each
check takes an image reference and turns a report from an external tool into a
verdict, which is a Go `(bool, error)` pair: `(false, nil)` means the bundle
failed the check, and a non-nil error means the check itself could not run.
The model covers four pieces of the source:

- **The two scorecard checks.** These are Basic-Spec (`scorecard_basic_check_spec.dfy`) and
  OLM-Suite (`scorecard_olm_suite.dfy`). Each is a class with one mutable field,
  `fatalError`. `Validate` fetches the scorecard report with a fixed selector and a
  fixed artifact file name. A failed fetch latches `fatalError`. A fetched report goes
  to the shared reducer. `Help` shows one of two texts, chosen by the flag. Nothing
  ever clears the flag.
  The pieces the two classes share (runner settings, request, report, fatal help
  text) are in `scorecard.dfy`.
- **The bundle-validate check** (`validate_operator_bundle.dfy`). It is stateless. Its verdict
  is the report's `Passed` flag. It walks the report's outputs in order and logs
  every error at error severity, then every warning at info severity behind
  `"warning: "`. The log is a returned sequence of entries, so its order and
  counts can be stated.
- **The catalog digest lookup** (`pyxis.dfy`). It has two precondition checks
  (an empty digest list, a transport that is not the standard HTTP client). It copies
  the digests into the query variables and issues one GraphQL query. It then turns
  each returned row into a `CertImage` that sets only three fields. It also has the
  two URL builders and the client constructor.

Collaborators whose code is not part of this model are function-valued parameters:

- the scorecard runner (`getDataToValidate` over the `operatorSdk` interface): `Scorecard.Fetch`;
- the shared scorecard reducer (`scorecardCheck.validate`): `Scorecard.Reduce`;
- `bundle.Validate`: `ValidateOperatorBundle.BundleValidator`;
- the GraphQL server's answers: `Pyxis.GraphqlResponder`. Queries reach it through the
  `Pyxis.GraphqlTransport` class, whose ghost `sent` log records every query issued.

Both scorecard check classes take the runner and the reducer as constructor
arguments, in place of the `operatorSdk` value they store. The runner is
modelled as deterministic: one instance always gets the same answer for the
same request, so a fetch that failed on an instance fails again if retried
with the same reference. No proved property depends on this. The shared reducer
`scorecardCheck.validate` is kept uninterpreted, so no rule such as "every item
must pass" is assumed of it.
A Go `error` is modelled as the text it renders (`Base.Error`).

Two behaviours of the program are worth stating outright:

- The bundle verdict is `report.Passed` alone
  (internal/check/validate_operator_bundle.go:51). Non-empty outputs only produce
  log entries; they never turn a passing report into a failure.
- The scorecard verdict on a fetched report is whatever the uninterpreted
  reducer returns, its error included.

The find_images response's own `error` block (status and detail) is decoded but
never inspected. A response that carries an error and no rows gives an empty
list and no error. `FindImagesByDigest`'s contract shows this: the
result depends only on the response's rows.

## Model

| member | source | states |
|---|---|---|
| `ScorecardBasicSpec.SuiteRequest` | internal/check/scorecard_basic_check_spec.go:41-42 | the runner is always asked for selector `["test=basic-check-spec-test"]` and artifact `operator_bundle_scorecard_BasicSpecCheck.json`, on the reference's unpacked path with the check's own settings |
| `ScorecardBasicSpec.ReportHelp` | internal/check/scorecard_basic_check_spec.go:72-75 | the non-fatal help message names the artifact file, and this help differs from the fatal one |
| `ScorecardBasicSpec.ScorecardBasicSpecCheck.constructor` | internal/check/scorecard_basic_check_spec.go:24-35 | the namespace, service account, kubeconfig and wait time are kept as the runner settings; the new check starts non-fatal |
| `ScorecardBasicSpec.ScorecardBasicSpecCheck.Validate` | internal/check/scorecard_basic_check_spec.go:37-49 | a failed fetch gives `(false, that error)` and latches `fatalError`; a fetched report gives exactly the reducer's verdict on its items and leaves the flag as it was; the flag never goes from true to false |
| `ScorecardBasicSpec.ScorecardBasicSpecCheck.Name` | internal/check/scorecard_basic_check_spec.go:51-53 | the identifier is `"ScorecardBasicSpecCheck"`; the function reads no state, so no `Validate` can change it |
| `ScorecardBasicSpec.ScorecardBasicSpecCheck.Metadata` | internal/check/scorecard_basic_check_spec.go:55-62 | level `"best"`, both links into the scorecard documentation; reads no state |
| `ScorecardBasicSpec.ScorecardBasicSpecCheck.Help` | internal/check/scorecard_basic_check_spec.go:64-76 | the help is the fatal text if and only if the flag is latched; otherwise its message names the artifact file |
| `ScorecardBasicSpec.FatalHelpIsLatched` | internal/check/scorecard_basic_check_spec.go:43-71 | over one instance's life: a new check shows the non-fatal help; after a failing fetch `Validate` returns `(false, error)` and `Help` is fatal, and it stays fatal after any later `Validate`, even a successful one |
| `ScorecardOlmSuite.SuiteRequest` | internal/check/scorecard_olm_suite.go:41-42 | the runner is always asked for selector `["suite=olm"]` and artifact `operator_bundle_scorecard_OlmSuiteCheck.json`, on the reference's unpacked path with the check's own settings |
| `ScorecardOlmSuite.ReportHelp` | internal/check/scorecard_olm_suite.go:72-75 | the non-fatal help message names the artifact file, and this help differs from the fatal one |
| `ScorecardOlmSuite.ScorecardOlmSuiteCheck.constructor` | internal/check/scorecard_olm_suite.go:24-35 | the runner settings are kept; the new check starts non-fatal |
| `ScorecardOlmSuite.ScorecardOlmSuiteCheck.Validate` | internal/check/scorecard_olm_suite.go:37-49 | a failed fetch gives `(false, that error)` and latches `fatalError`; a fetched report gives exactly the reducer's verdict and leaves the flag as it was; the flag is monotone |
| `ScorecardOlmSuite.ScorecardOlmSuiteCheck.Name` | internal/check/scorecard_olm_suite.go:51-53 | the identifier is `"ScorecardOlmSuiteCheck"`, independent of state |
| `ScorecardOlmSuite.ScorecardOlmSuiteCheck.Metadata` | internal/check/scorecard_olm_suite.go:55-62 | level `"best"`, both links into the scorecard documentation, independent of state |
| `ScorecardOlmSuite.ScorecardOlmSuiteCheck.Help` | internal/check/scorecard_olm_suite.go:64-76 | fatal text if and only if the flag is latched; otherwise the message names the artifact file |
| `ScorecardOlmSuite.FatalHelpIsLatched` | internal/check/scorecard_olm_suite.go:43-71 | a new check shows the non-fatal help; after a failing fetch the help is fatal and stays so after any later `Validate` |
| `ValidateOperatorBundle.ValidateReport` | internal/check/validate_operator_bundle.go:38-52 | the verdict is exactly `(report.Passed, nil)`; the log is the walk of all outputs in order (errors, then warnings); a passing report with no outputs logs nothing |
| `ValidateOperatorBundle.Validate` | internal/check/validate_operator_bundle.go:25-32 | a validator failure gives `false` with an error that starts `"error while executing operator-sdk bundle validate: "` followed by the cause, and no log; otherwise the report's verdict and log; a passing verdict never carries an error |
| `ValidateOperatorBundle.ErrorEntriesAt` | internal/check/validate_operator_bundle.go:43-45 | the i-th error of an output is the i-th entry of its error run, at error severity, under the fixed cause |
| `ValidateOperatorBundle.WarningEntriesAt` | internal/check/validate_operator_bundle.go:46-48 | the i-th warning of an output is logged at info severity as `"warning: "` followed by its text |
| `ValidateOperatorBundle.OutputLogCounts` | internal/check/validate_operator_bundle.go:43-48 | one output logs one entry per error and one per warning, and exactly its errors are at error severity |
| `ValidateOperatorBundle.ReportLogCounts` | internal/check/validate_operator_bundle.go:42-49 | the log has as many entries as the report has errors and warnings together, and the error-severity entries are exactly the errors |
| `ValidateOperatorBundle.ReportLogAppend` | internal/check/validate_operator_bundle.go:42-49 | outputs are logged in order: the log of two runs of outputs is the first run's log followed by the second's |
| `ValidateOperatorBundle.ReportLogShape` | internal/check/validate_operator_bundle.go:44-47 | every error entry carries the cause `"validate operator bundle error"`; every info entry starts with `"warning: "` |
| `ValidateOperatorBundle.Name` | internal/check/validate_operator_bundle.go:54-56 | the identifier is `"ValidateOperatorBundle"`; the check has no state |
| `ValidateOperatorBundle.Metadata` | internal/check/validate_operator_bundle.go:58-65 | level `"best"`; the knowledge-base and check links are the same page |
| `ValidateOperatorBundle.Help` | internal/check/validate_operator_bundle.go:67-72 | the single help text points at `preflight.log` |
| `Pyxis.NewPyxisClient` | internal/pyxis/pyxis.go:35-42 | each of the four arguments lands in its own field, although the host is passed first and stored last |
| `Pyxis.GetPyxisURL` | internal/pyxis/pyxis.go:27-29 | the URL is `https://`, then the host verbatim, then `/v1/` and the path |
| `Pyxis.GetPyxisGraphqlURL` | internal/pyxis/pyxis.go:31-33 | the URL is `https://`, then the host verbatim, then `/graphql/` |
| `Pyxis.PyxisURLInjective` | internal/pyxis/pyxis.go:27-29 | on one client, equal REST URLs come from equal paths |
| `Pyxis.GraphqlURLIsNotRestURL` | internal/pyxis/pyxis.go:27-33 | the GraphQL endpoint never coincides with any REST URL of the same client |
| `Pyxis.Project` | internal/pyxis/pyxis.go:156-160 | a row becomes a record with its id, certified flag and digest, and every other field at its zero value |
| `Pyxis.GraphqlTransport.Query` | internal/pyxis/pyxis.go:149 | one round trip: the answer is the server's answer to this request, and the request is appended to the client's log of sent queries |
| `Pyxis.FindImagesByDigest` | internal/pyxis/pyxis.go:110-164 | an empty digest list gives `"no digests specified"` and leaves the transport's query log unchanged; then a non-standard transport gives `"client could not be used as http.Client"` and again sends nothing; otherwise the log grows by exactly one query, which goes to the GraphQL endpoint and carries all the digests in their order; a query error comes back wrapped as `"error while executing find_images query: "` plus the cause; on success the result has one record per row, in row order, each the projection of its row |

## Left out

- Context handling, cancellation and timeouts are not modelled. The checks only pass the context on to collaborators, and those are parameters here.
- The diagnostic logging of the scorecard checks (internal/check/scorecard_basic_check_spec.go:38-39) is not modelled. The bundle check's logger is modelled as the returned log.
- The structured image handle in `image.Reference` is not modelled. No core operation reads it.
- The scorecard runner, the reducer, `bundle.Validate` and the GraphQL server are not part of this model. They are uninterpreted function parameters.
- The runner's wait-time budget and the report parsing belong to the runner. They are not part of this model.
- `CertImage`'s nested fields (parsed data, repositories, freshness grades) are not modelled. The lookup always leaves them nil. The `Architecture` default tag is not modelled either, because a Go struct literal does not apply it.
- The plugin registration, CLI flags, engine stub and result submission are host-runtime glue. They are not part of this model.
