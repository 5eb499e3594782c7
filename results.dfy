/** The result record that every handler returns and the conversation
    controller reads (actions.py, main.py). Only the keys the controller
    consults are fields; the rest of a handler's dictionary is not modelled. */
module Results {
  import opened Wrappers

  datatype ActionResult = ActionResult(
    success: bool,
    summary: Option<string>,
    error: Option<string>,
    requiresConfirmation: bool,
    originalCommand: Option<string>,
    stopRequested: bool)
  {
    /** Python's truthiness of `result.get('summary')`. */
    predicate HasSummary() {
      summary.Some? && summary.value != []
    }
  }

  /** The answer of an operating-system collaborator (system information,
      screenshot, volume, process listing): a result dictionary that never
      carries the conversation keys `requires_confirmation` or `stop_requested`. */
  datatype Report = Report(success: bool, summary: Option<string>, error: Option<string>) {
    function AsAction(): (r: ActionResult)
      ensures r.success == success && r.summary == summary && r.error == error
      ensures !r.requiresConfirmation && !r.stopRequested
    {
      ActionResult(success, summary, error, false, None, false)
    }
  }

  /** `{'success': True, 'summary': s}`. */
  function Succeeded(s: string): (r: ActionResult)
    ensures r.success && r.summary == Some(s)
    ensures !r.requiresConfirmation && !r.stopRequested
  {
    ActionResult(true, Some(s), None, false, None, false)
  }

  /** `{'success': False, 'summary': s}`. */
  function Failed(s: string): (r: ActionResult)
    ensures !r.success && r.summary == Some(s)
    ensures !r.requiresConfirmation && !r.stopRequested
  {
    ActionResult(false, Some(s), None, false, None, false)
  }

  /** `{'success': False, 'error': e, 'summary': s}`. */
  function FailedWith(e: string, s: string): (r: ActionResult)
    ensures !r.success && r.summary == Some(s) && r.error == Some(e)
    ensures !r.requiresConfirmation && !r.stopRequested
  {
    ActionResult(false, Some(s), Some(e), false, None, false)
  }
}
