/** The two final states, `Success` and `Failed`. Running them does nothing and there is
    nothing to roll back. */
module TerminalStates {
  import opened Wrappers
  import opened ProcessContext

  /** `Success`, or `Failed` carrying the reason the process failed (possibly none). */
  datatype Terminal = Success | Failed(reason: Option<FailedReason>)

  function Name(t: Terminal): (name: string)
    ensures t.Success? <==> name == "Success"
    ensures t.Failed? <==> name == "Failed"
  {
    match t
    case Success => "Success"
    case Failed(_) => "Failed"
  }

  predicate IsFinal(t: Terminal)
  {
    true
  }

  /** `Run`: an empty result, and the context as it was. */
  function Run(t: Terminal, c: Context): (s: Step)
    ensures s.context == c && s.calls == []
    ensures s.result.failed.None? && s.result.rollbackData.NoRollbackData?
  {
    Step(c, EmptyRunResult, [])
  }

  /** Running a final state again changes nothing, however often it is run. */
  lemma RunIsIdempotent(t: Terminal, c: Context)
    ensures Run(t, Run(t, c).context) == Run(t, c)
  {
  }
}
