/**
 * The recruiter's review page for one applicant: a header badge for the
 * decision, a Schedule Interview button that is always shown, and an
 * actions card that depends on the decision.
 */
module ApplicantReview {
  import opened Decision

  /** The buttons the page shows for a decision (header and actions card together). */
  function Offered(s: Status): (r: set<Action>)
    ensures Schedule in r
    ensures (Accept in r) == (s == Pending) && (Reject in r) == (s == Pending)
    ensures (UndoRejection in r) == (s == Rejected)
  {
    match s
    case Pending => {Accept, Reject, Schedule}
    case Accepted => {Schedule}
    case Rejected => {Schedule, UndoRejection}
  }

  /** The header badge's text and variant. */
  datatype StatusBadge = StatusBadge(caption: string, variant: string)

  function Badge(s: Status): StatusBadge {
    match s
    case Pending => StatusBadge("Under Review", "outline")
    case Accepted => StatusBadge("Accepted", "success")
    case Rejected => StatusBadge("Rejected", "destructive")
  }

  /** Each decision has its own badge. */
  lemma BadgeDistinct(a: Status, b: Status)
    ensures Badge(a) == Badge(b) <==> a == b
  {
    if a != b {
      assert |Badge(a).caption| != |Badge(b).caption| || |Badge(a).variant| != |Badge(b).variant|;
    }
  }

  /**
   * Through the buttons the page offers, an accepted applicant stays
   * accepted, and a rejection can always be undone to pending, from which
   * both decisions are offered again.
   */
  lemma OfferedTransitions(s: Status, a: Action)
    requires a in Offered(s)
    ensures s == Accepted ==> Step(s, a) == Accepted
    ensures s == Rejected ==> Step(s, a) in {Rejected, Pending}
    ensures s == Pending && a != Schedule ==> Step(s, a) != Pending
  {
  }

  class Review {
    var status: Status

    constructor ()
      ensures status == Pending
    {
      status := Pending;
    }

    method HandleAccept()
      modifies this`status
      ensures status == Step(old(status), Accept)
    {
      status := Accepted;
    }

    method HandleReject()
      modifies this`status
      ensures status == Step(old(status), Reject)
    {
      status := Rejected;
    }

    /** "Undo Rejection". */
    method UndoRejection()
      modifies this`status
      ensures status == Step(old(status), Action.UndoRejection)
    {
      status := Pending;
    }
  }
}
