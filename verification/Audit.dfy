/** The audit log of a run as a word of event kinds. */
module Audit {
  import opened Domain

  datatype Kind =
    | Validation | Collection | Retrieval | Checks | DecisionMade | Recommended
    | Pause | ApprovalNote | Retry(attempt: nat) | Effect | Verification | Closure | Stop

  function KindOf(e: Event): seq<Kind> {
    match e
    case RequestValidated => [Validation]
    case RecordsCollected(_) => [Collection]
    case PoliciesRetrieved(_) => [Retrieval]
    case ChecksEvaluated(_) => [Checks]
    case DecisionEvaluated(_, _) => [DecisionMade]
    case RecommendationBound(_) => [Recommended]
    case PausedBeforeEffect(_, _) => [Pause]
    case ApprovalRecorded(_, _) => [ApprovalNote]
    case ToolFailureClassified(attempt, _) => [Retry(attempt)]
    case ReceiptCommitted(_, _, _) => [Effect]
    case OutcomeChecked(_) => [Verification]
    case RunClosed => [Closure]
    case RunStopped(_) => [Stop]
    case ReplayRequested(_) => []
  }

  /** The workflow's own events, in order; the service's replay notes are left out. */
  function Kinds(log: seq<Event>): seq<Kind> {
    if log == [] then [] else Kinds(log[..|log| - 1]) + KindOf(log[|log| - 1])
  }

  const TRUNK: seq<Kind> := [Validation, Collection, Retrieval, Checks, DecisionMade, Recommended]
  const RESUMED: seq<Kind> := TRUNK + [Pause, Pause]
  const APPROVED: seq<Kind> := RESUMED + [ApprovalNote]

  /** The first n attempts, each failed. */
  function Retries(n: nat): seq<Kind> {
    if n == 0 then [] else Retries(n - 1) + [Retry(n)]
  }
}
