/** The life cycle of a job, and the table that JobStore.SetStatus enforces. */
module JobStates {

  /** The operations that create a job. */
  datatype Operation = SubmitTranscript | AssessQuery

  datatype JobState =
    | Received
    | Validating
    | NeedsClarification
    | Queued
    | Processing
    | Completed
    | Failed
    | Cancelled

  /** ALLOWED_TRANSITIONS */
  predicate Allowed(s: JobState, t: JobState) {
    match s
    case Received => t.Validating? || t.Failed?
    case Validating => t.Queued? || t.NeedsClarification? || t.Failed?
    case NeedsClarification => t.Queued? || t.Cancelled? || t.Failed?
    case Queued => t.Processing? || t.Cancelled?
    case Processing => t.Completed? || t.Failed? || t.NeedsClarification?
    case Completed => false
    case Failed => false
    case Cancelled => false
  }

  /** Move by move: a job fails from every state but QUEUED that is not final, and is cancelled only before it is dispatched. */
  lemma TableExactly(s: JobState, t: JobState)
    ensures Allowed(s, t) <==>
            (s, t) in {(Received, Validating), (Received, Failed),
                       (Validating, Queued), (Validating, NeedsClarification), (Validating, Failed),
                       (NeedsClarification, Queued), (NeedsClarification, Cancelled), (NeedsClarification, Failed),
                       (Queued, Processing), (Queued, Cancelled),
                       (Processing, Completed), (Processing, Failed), (Processing, NeedsClarification)}
  {
  }

  /** The guard of set_status: a listed move, or no move at all. */
  predicate MayMove(current: JobState, next: JobState) {
    Allowed(current, next) || next == current
  }
}
