/**
 * The assessment editor of an interview round: a list of skills from which
 * an assessment is generated, or a list of hand-written questions with their
 * expected answers. Every change of a list is reported to the parent form
 * (`onSkillsChange` / `onQuestionsChange`); a method's `reported` result is
 * the list it passes, `None` when it passes nothing.
 */
module AssessmentConfiguration {
  import opened Wrappers
  import opened Text
  import opened Seqs
  import opened TagList

  datatype Question = Question(id: string, question: string, answer: string)

  function QuestionId(q: Question): string {
    q.id
  }

  /** Both texts are filled in (not blank once trimmed). */
  predicate QuestionComplete(question: string, answer: string) {
    !IsBlank(question) && !IsBlank(answer)
  }

  /** The question `addQuestion` records: both texts trimmed, under the given id. */
  function MakeQuestion(id: string, question: string, answer: string): (q: Question)
    requires QuestionComplete(question, answer)
    ensures q.id == id
    ensures q.question == Trim(question) && q.answer == Trim(answer)
    ensures !IsBlank(q.question) && !IsBlank(q.answer)
    ensures Trim(q.question) == q.question && Trim(q.answer) == q.answer
  {
    TrimmedNotBlank(question);
    TrimmedNotBlank(answer);
    TrimIdempotent(question);
    TrimIdempotent(answer);
    Question(id, Trim(question), Trim(answer))
  }

  /**
   * The list after `addQuestion`: the old list with the new question
   * appended when both texts are filled in, nothing otherwise.
   */
  function WithQuestion(qs: seq<Question>, id: string, question: string, answer: string): (r: Option<seq<Question>>)
    ensures r.Some? <==> QuestionComplete(question, answer)
    ensures r.Some? ==> r.value == qs + [MakeQuestion(id, question, answer)]
  {
    if QuestionComplete(question, answer) then Some(qs + [MakeQuestion(id, question, answer)]) else None
  }

  /** Removing a question that was just added under a fresh id restores the list. */
  lemma AddThenRemoveQuestion(qs: seq<Question>, q: Question)
    requires forall i :: 0 <= i < |qs| ==> qs[i].id != q.id
    ensures WithoutKey(qs + [q], QuestionId, q.id) == qs
  {
    WithoutKeyAppended(qs, QuestionId, q);
  }

  class Editor {
    var skills: seq<string>
    var newSkill: string
    var questions: seq<Question>
    var newQuestion: string
    var newAnswer: string

    /** The lists start as the given initial ones, the inputs empty. */
    constructor (initialSkills: seq<string>, initialQuestions: seq<Question>)
      ensures skills == initialSkills && questions == initialQuestions
      ensures newSkill == "" && newQuestion == "" && newAnswer == ""
    {
      skills, questions := initialSkills, initialQuestions;
      newSkill, newQuestion, newAnswer := "", "", "";
    }

    /**
     * `addSkill`: an accepted input is appended trimmed, reported, and the
     * input cleared; otherwise nothing changes and nothing is reported. A
     * clean skill list stays clean.
     */
    method AddSkill() returns (reported: Option<seq<string>>)
      modifies this`skills, this`newSkill
      ensures skills == AddTrimmed(old(skills), old(newSkill))
      ensures Accepts(old(skills), old(newSkill)) ==> reported == Some(skills) && newSkill == ""
      ensures !Accepts(old(skills), old(newSkill)) ==> reported == None && newSkill == old(newSkill)
      ensures Clean(old(skills)) ==> Clean(skills)
    {
      if Accepts(skills, newSkill) {
        skills := AddTrimmed(skills, newSkill);
        newSkill := "";
        reported := Some(skills);
      } else {
        reported := None;
      }
    }

    /** `removeSkill`: every equal entry goes, the rest keep their order; the result is reported. */
    method RemoveSkill(skill: string) returns (reported: seq<string>)
      modifies this`skills
      ensures skills == Without(old(skills), skill) && reported == skills
      ensures Clean(old(skills)) ==> Clean(skills)
    {
      if Clean(skills) {
        RemoveKeepsClean(skills, skill);
      }
      skills := Without(skills, skill);
      reported := skills;
    }

    /**
     * `addQuestion` with the id the clock supplies: when both texts are filled
     * in, the trimmed pair is appended and reported and both inputs are
     * cleared; otherwise nothing changes.
     */
    method AddQuestion(id: string) returns (reported: Option<seq<Question>>)
      modifies this`questions, this`newQuestion, this`newAnswer
      ensures reported == WithQuestion(old(questions), id, old(newQuestion), old(newAnswer))
      ensures reported.Some? ==> questions == reported.value && newQuestion == "" && newAnswer == ""
      ensures reported.None? ==>
        questions == old(questions) && newQuestion == old(newQuestion) && newAnswer == old(newAnswer)
    {
      reported := WithQuestion(questions, id, newQuestion, newAnswer);
      if reported.Some? {
        questions := reported.value;
        newQuestion, newAnswer := "", "";
      }
    }

    /** `removeQuestion`: the questions with that id go, the rest keep their order; the result is reported. */
    method RemoveQuestion(id: string) returns (reported: seq<Question>)
      modifies this`questions
      ensures questions == WithoutKey(old(questions), QuestionId, id) && reported == questions
    {
      questions := WithoutKey(questions, QuestionId, id);
      reported := questions;
    }
  }
}
