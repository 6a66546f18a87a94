/** The interview types both round editors offer, and the badge colour of each. */
module InterviewTypes {
  import opened Wrappers

  datatype InterviewType = Technical | Behavioral | Assessment | Final

  /**
   * `getTypeColor`: the badge class of a round's type; a missing type
   * (`undefined`) falls to the gray default.
   */
  function TypeColor(t: Option<InterviewType>): string {
    match t
    case Some(Technical) => "bg-blue-100 text-blue-800"
    case Some(Behavioral) => "bg-green-100 text-green-800"
    case Some(Assessment) => "bg-purple-100 text-purple-800"
    case Some(Final) => "bg-orange-100 text-orange-800"
    case None => "bg-gray-100 text-gray-800"
  }

  /** Each type, and the missing type, gets a badge of its own. */
  lemma TypeColorDistinct(a: Option<InterviewType>, b: Option<InterviewType>)
    ensures TypeColor(a) == TypeColor(b) <==> a == b
  {
    if a != b {
      assert TypeColor(a)[3] != TypeColor(b)[3] || TypeColor(a)[5] != TypeColor(b)[5];
    }
  }
}
