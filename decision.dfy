/**
 * The review decision on an applicant, shared by the applicant review page
 * and the applicant card: pending until the recruiter accepts or rejects.
 */
module Decision {

  datatype Status = Pending | Accepted | Rejected

  /** What the recruiter can press. Scheduling only shows a confirmation. */
  datatype Action = Accept | Reject | Schedule | UndoRejection

  /** The status after a press: accept and reject set their status whatever it was; undo returns to pending. */
  function Step(s: Status, a: Action): (t: Status)
    ensures a == Accept ==> t == Accepted
    ensures a == Reject ==> t == Rejected
    ensures a == Schedule ==> t == s
    ensures a == UndoRejection ==> t == Pending
  {
    match a
    case Accept => Accepted
    case Reject => Rejected
    case Schedule => s
    case UndoRejection => Pending
  }

  /** Accepting or rejecting twice is the same as once. */
  lemma StepIdempotent(s: Status, a: Action)
    ensures Step(Step(s, a), a) == Step(s, a)
  {
  }
}
