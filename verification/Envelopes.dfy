/** The terminal disposition envelope of a tool result: packages/agent/src/types.ts. */
module Envelopes {
  import opened Strings

  datatype Disposition = Completed | Failed | Blocked | Aborted | TimedOut | Skipped

  datatype Envelope = Envelope(
    synthetic: bool,
    disposition: Disposition,
    reason: Option<string>,
    timeoutMs: Option<real>,
    executionStarted: bool)

  predicate IsToolResultEnvelope(e: Envelope) {
    && (e.timeoutMs.Some? ==> e.timeoutMs.value > 0.0)
    && match e.disposition
       case Completed => !e.synthetic && e.executionStarted && e.timeoutMs.None?
       case Failed => (e.executionStarted || e.synthetic) && e.timeoutMs.None?
       case Blocked => e.synthetic && !e.executionStarted && e.timeoutMs.None?
       case Skipped => e.synthetic && !e.executionStarted && e.timeoutMs.None?
       case Aborted => e.synthetic && e.timeoutMs.None?
       case TimedOut => e.synthetic && e.executionStarted && e.timeoutMs.Some?
  }

  /** None stands for the TypeError on an invalid combination. */
  function CreateToolResultEnvelope(input: Envelope): Option<Envelope> {
    if IsToolResultEnvelope(input) then Some(input) else None
  }
}
