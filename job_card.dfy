/**
 * The applicant's card for one job listing: a match badge, at most three
 * skill badges and a "+N more" badge for the rest.
 */
module JobCard {
  import opened Wrappers
  import Decimal
  import MatchColors

  /** `skills.slice(0, 3)`: the first three skills, or all of them when there are fewer. */
  function ShownSkills(skills: seq<string>): (r: seq<string>)
    ensures r <= skills
    ensures |r| == if |skills| < 3 then |skills| else 3
  {
    if |skills| < 3 then skills else skills[..3]
  }

  /** The text of the "+N more" badge, present only when skills are cut off. */
  function MoreBadge(skills: seq<string>): (r: Option<string>)
    ensures r.Some? <==> |skills| > 3
  {
    if |skills| > 3 then Some("+" + Decimal.ToDecimal(|skills| - 3) + " more") else None
  }

  /** The number in the "+N more" badge is exactly the number of skills not shown. */
  lemma MoreBadgeCountsHidden(skills: seq<string>)
    requires |skills| > 3
    ensures var t := MoreBadge(skills).value;
      && |t| > 6 && t[0] == '+' && t[|t| - 5..] == " more"
      && Decimal.ParseInt(t[1..|t| - 5]) == Some(|skills| - |ShownSkills(skills)|)
  {
    var n := Decimal.ToDecimal(|skills| - 3);
    var t := MoreBadge(skills).value;
    assert t == "+" + n + " more";
    assert t[1..|t| - 5] == n;
    Decimal.ParseIntToDecimal(|skills| - 3);
  }

  /** What the match slot of the card renders. */
  datatype Slot = NoBadge | BareText(text: string) | MatchBadge(score: int, color: string)

  /**
   * `{matchScore && <Badge…/>}` as written: `undefined` renders nothing, but
   * a score of 0 is itself the value of the `&&` and React renders it as the
   * text "0".
   */
  function MatchSlotAsWritten(matchScore: Option<int>): Slot {
    match matchScore
    case None => NoBadge
    case Some(n) => if n == 0 then BareText("0") else MatchBadge(n, MatchColors.MatchColor(n))
  }

  /** A job with a match score of 0 shows a stray "0" next to its title. */
  lemma ZeroScoreRendersText()
    ensures MatchSlotAsWritten(Some(0)) == BareText("0")
  {
  }

  /** The guard as intended: a badge for a given non-zero score, nothing otherwise. */
  function MatchSlot(matchScore: Option<int>): (r: Slot)
    ensures !r.BareText?
    ensures r.MatchBadge? <==> matchScore.Some? && matchScore.value != 0
    ensures r.MatchBadge? ==> r.score == matchScore.value && r.color == MatchColors.MatchColor(r.score)
  {
    if matchScore.Some? && matchScore.value != 0 then
      MatchBadge(matchScore.value, MatchColors.MatchColor(matchScore.value))
    else NoBadge
  }

  /** Apart from a score of 0, the corrected guard renders what the written one does. */
  lemma MatchSlotAgrees(matchScore: Option<int>)
    ensures matchScore != Some(0) <==> MatchSlot(matchScore) == MatchSlotAsWritten(matchScore)
  {
  }

  /** The parts of a card that depend on its data. */
  datatype View = View(matchSlot: Slot, skillBadges: seq<string>, more: Option<string>)

  /** The card as written, with the `&&` guard of the match slot. */
  function CardViewAsWritten(matchScore: Option<int>, skills: seq<string>): View {
    View(MatchSlotAsWritten(matchScore), ShownSkills(skills), MoreBadge(skills))
  }

  /** The card with the corrected guard of the match slot. */
  function CardView(matchScore: Option<int>, skills: seq<string>): View {
    View(MatchSlot(matchScore), ShownSkills(skills), MoreBadge(skills))
  }

  /**
   * The card as written shows a bare number exactly for a score of 0, and
   * otherwise shows what the corrected card shows.
   */
  lemma CardViewAsWrittenShape(matchScore: Option<int>, skills: seq<string>)
    ensures CardViewAsWritten(matchScore, skills).matchSlot.BareText? <==> matchScore == Some(0)
    ensures matchScore != Some(0) <==> CardViewAsWritten(matchScore, skills) == CardView(matchScore, skills)
  {
    MatchSlotAgrees(matchScore);
  }

  /**
   * The card with the corrected guard never shows a bare number, shows at
   * most three skill badges, and shows them all unless the "+N more" badge
   * accounts for the rest.
   */
  lemma CardViewShape(matchScore: Option<int>, skills: seq<string>)
    ensures var v := CardView(matchScore, skills);
      && !v.matchSlot.BareText?
      && |v.skillBadges| <= 3
      && (v.more.None? ==> v.skillBadges == skills)
  {
  }
}
