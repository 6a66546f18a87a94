/** The colour scale both the job card and the applicant card give a match score. */
module MatchColors {

  /** `getMatchColor`: bands from 90, 75 and 60 up. */
  function MatchColor(score: int): string {
    if score >= 90 then "bg-green-500"
    else if score >= 75 then "bg-blue-500"
    else if score >= 60 then "bg-yellow-500"
    else "bg-orange-400"
  }

  /** The band a score falls in, from 0 (below 60) to 3 (90 and more). */
  function MatchBand(score: int): (b: nat)
    ensures b <= 3
    ensures b == 3 <==> score >= 90
    ensures b == 0 <==> score < 60
  {
    if score >= 90 then 3 else if score >= 75 then 2 else if score >= 60 then 1 else 0
  }

  /** Two scores share a colour iff they share a band, and bands grow with the score. */
  lemma MatchColorBands(a: int, b: int)
    ensures MatchColor(a) == MatchColor(b) <==> MatchBand(a) == MatchBand(b)
    ensures a <= b ==> MatchBand(a) <= MatchBand(b)
  {
    if MatchBand(a) != MatchBand(b) {
      assert |MatchColor(a)| != |MatchColor(b)| || MatchColor(a)[3] != MatchColor(b)[3];
    }
  }
}
