/**
 * The recruiter's card for one applicant: a decision badge, the skill-match
 * bar, the soft-skill grades and a footer whose buttons depend on the
 * decision.
 */
module ApplicantCard {
  import opened Decision

  /** The footer's actions: none once rejected. */
  function Offered(s: Status): (r: set<Action>)
    ensures (Accept in r) == (s == Pending) && (Reject in r) == (s == Pending)
    ensures (Schedule in r) == (s == Accepted)
    ensures UndoRejection !in r
    ensures s == Rejected <==> r == {}
  {
    match s
    case Pending => {Accept, Reject}
    case Accepted => {Schedule}
    case Rejected => {}
  }

  /** `View Profile` is linked in both footers, pending and accepted. */
  predicate ViewProfileShown(s: Status) {
    s == Pending || s == Accepted
  }

  /** The profile link is shown exactly when the footer offers some action. */
  lemma ViewProfileWithActions(s: Status)
    ensures ViewProfileShown(s) <==> Offered(s) != {}
  {
    if s == Pending {
      assert Accept in Offered(s);
    } else if s == Accepted {
      assert Schedule in Offered(s);
    }
  }

  /** Once decided, no offered action changes the decision, and from pending every offered action decides. */
  lemma DecisionIsFinal(s: Status, a: Action)
    requires a in Offered(s)
    ensures s != Pending ==> Step(s, a) == s
    ensures s == Pending ==> Step(s, a) != Pending
  {
  }

  /** The nine grades and their text colours. */
  const Grades: map<string, string> := map[
    "A+" := "text-green-600", "A" := "text-green-600", "A-" := "text-green-500",
    "B+" := "text-blue-600", "B" := "text-blue-500", "B-" := "text-blue-400",
    "C+" := "text-yellow-600", "C" := "text-yellow-500", "C-" := "text-orange-500"]

  const Gray: string := "text-gray-600"

  /** `getGradeColor`: the listed colour, gray for anything else. */
  function GradeColor(grade: string): (c: string)
    ensures grade in Grades ==> c == Grades[grade]
    ensures grade !in Grades ==> c == Gray
  {
    if grade in Grades then Grades[grade] else Gray
  }

  /** No listed grade is gray, so the colour is gray exactly for unlisted grades. */
  lemma GrayIffUnlisted(grade: string)
    ensures GradeColor(grade) == Gray <==> grade !in Grades
  {
    if grade in Grades {
      var c := Grades[grade];
      assert c[5] != 'g' || c[7] != 'a';
    }
  }

  class Card {
    var status: Status

    constructor ()
      ensures status == Pending
    {
      status := Pending;
    }

    method HandleAccept()
      modifies this`status
      ensures status == Step(old(status), Accept)
    {
      status := Accepted;
    }

    method HandleReject()
      modifies this`status
      ensures status == Step(old(status), Reject)
    {
      status := Rejected;
    }
  }
}
