/**
 * The applicant's skill assessment: a stepper over the assessed skills that
 * ends on a results page with a score per skill, the rounded mean score,
 * and colour bands for the scores.
 */
module SkillAssessment {
  import opened Wrappers

  datatype Skill = Skill(name: string, questions: nat, timeLimit: nat, difficulty: string)

  datatype Result = Result(skill: string, score: int)

  const Skills: seq<Skill> := [
    Skill("React", 10, 15, "Intermediate"),
    Skill("JavaScript", 8, 12, "Advanced"),
    Skill("CSS", 6, 10, "Beginner"),
    Skill("Node.js", 7, 13, "Intermediate")
  ]

  /** The scores the results page reports (strengths and weaknesses are display text). */
  const Results: seq<Result> := [Result("React", 78), Result("JavaScript", 78), Result("CSS", 65), Result("Node.js", 72)]

  function SumScores(rs: seq<Result>): int
    decreases |rs|
  {
    if rs == [] then 0 else rs[0].score + SumScores(rs[1..])
  }

  /**
   * `Math.round(sum / length)`: the integer nearest to the mean, halves
   * rounded up; no results give NaN (None).
   */
  function OverallScore(rs: seq<Result>): (r: Option<int>)
    ensures r.None? <==> rs == []
    ensures r.Some? ==>
      2 * |rs| * r.value <= 2 * SumScores(rs) + |rs| < 2 * |rs| * r.value + 2 * |rs|
  {
    if rs == [] then None else Some((2 * SumScores(rs) + |rs|) / (2 * |rs|))
  }

  /** The nearest-integer property pins the score down: no other integer satisfies it. */
  lemma OverallScoreUnique(rs: seq<Result>, k: int)
    requires rs != []
    requires 2 * |rs| * k <= 2 * SumScores(rs) + |rs| < 2 * |rs| * k + 2 * |rs|
    ensures OverallScore(rs) == Some(k)
  {
    FloorUnique(2 * |rs|, 2 * SumScores(rs) + |rs|, OverallScore(rs).value, k);
  }

  /** Two integers whose multiples by `d` both bracket `x` within `d` are equal. */
  lemma FloorUnique(d: int, x: int, m: int, k: int)
    requires d > 0
    requires d * m <= x < d * m + d
    requires d * k <= x < d * k + d
    ensures m == k
  {
    if m < k {
      MulMonotone(d, m + 1, k);
    } else if k < m {
      MulMonotone(d, k + 1, m);
    }
  }

  lemma MulMonotone(c: int, a: int, b: int)
    requires c > 0 && a <= b
    ensures c * a <= c * b
  {
  }

  /** The page's results average 73.25, shown as 73. */
  lemma PageOverallScore()
    ensures SumScores(Results) == 293
    ensures OverallScore(Results) == Some(73)
  {
    assert Results[1..][1..][1..][1..] == [];
  }

  /** `results.find(r => r.skill === name)`: the first result for the skill. */
  function FindResult(rs: seq<Result>, name: string): (r: Option<Result>)
    ensures r.Some? ==> r.value in rs && r.value.skill == name
    ensures r.Some? ==> exists i :: 0 <= i < |rs| && rs[i] == r.value && forall j :: 0 <= j < i ==> rs[j].skill != name
    ensures r.None? ==> forall i :: 0 <= i < |rs| ==> rs[i].skill != name
    decreases |rs|
  {
    if rs == [] then None else if rs[0].skill == name then Some(rs[0]) else FindResult(rs[1..], name)
  }

  /** The course dialog opens when the React result exists and is below 50. */
  predicate CourseDialogDue(rs: seq<Result>) {
    var r := FindResult(rs, "React");
    r.Some? && r.value.score < 50
  }

  /** With the page's results (React scored 78) the course dialog never opens. */
  lemma CourseDialogNeverDue()
    ensures !CourseDialogDue(Results)
  {
    assert FindResult(Results, "React") == Some(Result("React", 78));
  }

  /** The four score bands, from 80, 60 and 40 up. */
  datatype Band = Strong | Good | Fair | Weak

  function BandOf(score: int): (b: Band)
    ensures b == Strong <==> score >= 80
    ensures b == Good <==> 60 <= score < 80
    ensures b == Fair <==> 40 <= score < 60
    ensures b == Weak <==> score < 40
  {
    if score >= 80 then Strong else if score >= 60 then Good else if score >= 40 then Fair else Weak
  }

  /** `getScoreColor`. */
  function ScoreColor(score: int): string {
    if score >= 80 then "text-green-600"
    else if score >= 60 then "text-blue-600"
    else if score >= 40 then "text-yellow-600"
    else "text-red-600"
  }

  /** `getProgressColor`. */
  function ProgressColor(score: int): string {
    if score >= 80 then "bg-green-500"
    else if score >= 60 then "bg-blue-500"
    else if score >= 40 then "bg-yellow-500"
    else "bg-red-500"
  }

  /**
   * The score text and the progress bar use the same bands: two scores get
   * the same text colour iff they get the same bar colour iff they are in
   * the same band.
   */
  lemma ColoursFollowBands(a: int, b: int)
    ensures ScoreColor(a) == ScoreColor(b) <==> BandOf(a) == BandOf(b)
    ensures ProgressColor(a) == ProgressColor(b) <==> BandOf(a) == BandOf(b)
  {
    if BandOf(a) != BandOf(b) {
      assert |ScoreColor(a)| != |ScoreColor(b)|;
      assert |ProgressColor(a)| != |ProgressColor(b)|;
    }
  }

  /** The results page's verdict on the overall score: only two thresholds, 80 and 60. */
  function PerformanceText(score: int): string {
    if score >= 80 then "Excellent performance!" else if score >= 60 then "Good performance!" else "Room for improvement"
  }

  /** The verdict agrees with the bands above 60 and merges the two bands below. */
  lemma PerformanceFollowsBands(score: int)
    ensures PerformanceText(score) == "Excellent performance!" <==> BandOf(score) == Strong
    ensures PerformanceText(score) == "Good performance!" <==> BandOf(score) == Good
    ensures PerformanceText(score) == "Room for improvement" <==> BandOf(score) in {Fair, Weak}
  {
  }

  class Assessment {
    var assessmentStarted: bool
    var currentSkill: nat
    var showResults: bool
    var showCourseDialog: bool
    var evaluationComplete: bool
    /** The results the page reports. */
    const results: seq<Result>

    /** The current skill is one of the assessed skills. */
    ghost predicate Valid()
      reads this
    {
      currentSkill < |Skills|
    }

    constructor ()
      ensures Valid()
      ensures results == Results
      ensures !assessmentStarted && currentSkill == 0 && !showResults && !showCourseDialog && !evaluationComplete
    {
      results := Results;
      assessmentStarted, currentSkill := false, 0;
      showResults, showCourseDialog, evaluationComplete := false, false, false;
    }

    method HandleStartAssessment()
      modifies this`assessmentStarted
      ensures assessmentStarted
    {
      assessmentStarted := true;
    }

    /**
     * `handleNextSkill`: before the last skill, moves to the next one;
     * on the last, shows the results, marks the evaluation complete and
     * opens the course dialog when it is due.
     */
    method HandleNextSkill()
      requires Valid()
      modifies this`currentSkill, this`showResults, this`evaluationComplete, this`showCourseDialog
      ensures Valid()
      ensures old(currentSkill) < |Skills| - 1 ==>
        currentSkill == old(currentSkill) + 1 && showResults == old(showResults)
        && evaluationComplete == old(evaluationComplete) && showCourseDialog == old(showCourseDialog)
      ensures old(currentSkill) == |Skills| - 1 ==>
        currentSkill == old(currentSkill) && showResults && evaluationComplete
        && showCourseDialog == (old(showCourseDialog) || CourseDialogDue(results))
      ensures !showCourseDialog ==> !old(showCourseDialog)
    {
      if currentSkill < |Skills| - 1 {
        currentSkill := currentSkill + 1;
      } else {
        showResults := true;
        evaluationComplete := true;
        if CourseDialogDue(results) {
          showCourseDialog := true;
        }
      }
    }

    /** The course dialog's close button. */
    method CloseCourseDialog()
      modifies this`showCourseDialog
      ensures !showCourseDialog
    {
      showCourseDialog := false;
    }
  }
}
