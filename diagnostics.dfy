/** The analysis engine's sinks the resolver writes to: the lookup-failure
    callback (reportMissingClass) and the error log (AnalysisContext.logError). */
module Diagnostics {
  import opened Descriptors

  /** The messages the resolver logs. */
  datatype LogEntry =
    | CycleFound(onStack: seq<ClassDescriptor>)   // "Cycle found in type nicknames: " + onStack
    | ErrorResolving(d: ClassDescriptor)          // "Error resolving " + d
    | ClassCastLogged(d: ClassDescriptor)         // "ClassCastException " + d

  class AnalysisContext {
    /** Classes reported to the lookup-failure callback, in order. */
    var missingClasses: seq<ClassDescriptor>
    /** Errors logged, in order. */
    var errors: seq<LogEntry>

    constructor ()
      ensures missingClasses == [] && errors == []
    {
      missingClasses := [];
      errors := [];
    }

    method ReportMissingClass(d: ClassDescriptor)
      modifies this
      ensures missingClasses == old(missingClasses) + [d] && errors == old(errors)
    {
      missingClasses := missingClasses + [d];
    }

    method LogError(e: LogEntry)
      modifies this
      ensures errors == old(errors) + [e] && missingClasses == old(missingClasses)
    {
      errors := errors + [e];
    }
  }
}
