/** The values every check exchanges with its caller. */
module CheckTypes {
  import opened Base

  /** The image under test: its URI and the directory it was unpacked into.
      The structured image handle of the source is not modelled. */
  datatype Reference = Reference(imageUri: string, imageFsPath: string)

  /** Static documentation of a check. */
  datatype Metadata = Metadata(description: string, level: string, knowledgeBaseUrl: string, checkUrl: string)

  /** Remediation text shown for a failed check. */
  datatype HelpText = HelpText(message: string, suggestion: string)

  /** The `(bool, error)` pair returned by a check's Validate: a verdict, and an
      error only when the check itself could not run. */
  datatype Verdict = Verdict(passed: bool, err: Option<Error>)
}
