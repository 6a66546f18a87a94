/**
 * The applicant's card for one skill: an "Evaluate Skill" button that, after
 * a delay, draws a strength rating and shows it with a band text and colour.
 */
module SkillCard {
  import opened Wrappers

  /**
   * `Math.floor(Math.random() * 31) + 65` with the random draw given as the
   * fraction `num / den` of the unit interval.
   */
  function Rating(num: nat, den: nat): (r: int)
    requires num < den
    ensures 65 <= r <= 95
    ensures (r - 65) * den <= num * 31 < (r - 64) * den
  {
    num * 31 / den + 65
  }

  /** Every rating from 65 to 95 is drawn by some value of the random fraction. */
  lemma RatingReachesAll(r: int)
    requires 65 <= r <= 95
    ensures Rating(r - 65, 31) == r
  {
  }

  function RatingText(rating: int): string {
    if rating >= 90 then "Expert"
    else if rating >= 80 then "Advanced"
    else if rating >= 70 then "Intermediate"
    else "Beginner"
  }

  function RatingColor(rating: int): string {
    if rating >= 90 then "bg-green-500"
    else if rating >= 80 then "bg-blue-500"
    else if rating >= 70 then "bg-yellow-500"
    else "bg-orange-400"
  }

  /** The text and the colour name the same band: one determines the other. */
  lemma TextAndColorAgree(a: int, b: int)
    ensures RatingText(a) == RatingText(b) <==> RatingColor(a) == RatingColor(b)
  {
    var ta, tb := RatingText(a), RatingText(b);
    var ca, cb := RatingColor(a), RatingColor(b);
    if ta != tb {
      assert |ta| != |tb| || ta[0] != tb[0];
      assert |ca| != |cb| || ca[3] != cb[3];
    }
  }

  class Card {
    var isEvaluating: bool
    var skillRating: Option<int>
    var isEvaluated: bool

    constructor ()
      ensures !isEvaluating && skillRating == None && !isEvaluated
    {
      isEvaluating, skillRating, isEvaluated := false, None, false;
    }

    /** The footer with the evaluate button is shown until the skill is evaluated, and is disabled while evaluating. */
    predicate EvaluateEnabled()
      reads this
    {
      !isEvaluated && !isEvaluating
    }

    /** `isEvaluated && skillRating && …`: the rating panel is shown for a set, non-zero rating. */
    predicate RatingShown()
      reads this
    {
      isEvaluated && skillRating.Some? && skillRating.value != 0
    }

    method HandleEvaluate()
      requires EvaluateEnabled()
      modifies this`isEvaluating
      ensures isEvaluating
    {
      isEvaluating := true;
    }

    /** The delayed callback, with the random fraction as `num / den`. */
    method EvaluationTimerFires(num: nat, den: nat)
      requires isEvaluating && num < den
      modifies this
      ensures skillRating == Some(Rating(num, den))
      ensures !isEvaluating && isEvaluated
      ensures RatingShown() && !EvaluateEnabled()
    {
      skillRating := Some(Rating(num, den));
      isEvaluating := false;
      isEvaluated := true;
    }
  }
}
