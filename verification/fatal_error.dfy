/** How the command line reports a fatal error (`FatalError.type`). */
module FatalErrors {
  datatype ErrorType = Abort | Bug | AbortSilent | BugSilent
}
