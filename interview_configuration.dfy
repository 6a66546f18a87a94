/**
 * The interview-process step of job posting: the recruiter fills a round
 * form, adds the round (after the required-field and assessment checks),
 * removes rounds by id, and completes the step with the list of rounds.
 */
module InterviewConfiguration {
  import opened Wrappers
  import opened Seqs
  import opened InterviewTypes
  import opened AssessmentConfiguration

  datatype InterviewRound = InterviewRound(
    id: string, title: string, interviewer: string, venue: string,
    interviewType: InterviewType, duration: string, description: string,
    useAIAssessment: bool, assessmentSkills: seq<string>, assessmentQuestions: seq<Question>)

  function RoundId(r: InterviewRound): string {
    r.id
  }

  /** The round form (`newRound`); every field has a value from the start. */
  datatype RoundDraft = RoundDraft(
    title: string, interviewer: string, venue: string, interviewType: InterviewType,
    duration: string, description: string, useAIAssessment: bool,
    assessmentSkills: seq<string>, assessmentQuestions: seq<Question>)

  const EmptyDraft := RoundDraft("", "", "", Technical, "", "", false, [], [])

  /** The text inputs of the round form. */
  datatype DraftField = Title | Interviewer | Venue | Duration | Description

  /** Why `addRound` refuses a form. */
  datatype AddError = MissingRequired | MissingSkills | MissingQuestions

  /** Title, interviewer, venue and duration are all filled in. */
  predicate RequiredFilled(d: RoundDraft) {
    d.title != "" && d.interviewer != "" && d.venue != "" && d.duration != ""
  }

  /**
   * The checks of `addRound`, in their order: the required fields first;
   * then, for an assessment round only, at least one skill when the
   * assessment is generated and at least one question when it is not.
   */
  function Validate(d: RoundDraft): (e: Option<AddError>)
    ensures e == Some(MissingRequired) <==> !RequiredFilled(d)
    ensures e == Some(MissingSkills) <==>
      RequiredFilled(d) && d.interviewType == Assessment && d.useAIAssessment && d.assessmentSkills == []
    ensures e == Some(MissingQuestions) <==>
      RequiredFilled(d) && d.interviewType == Assessment && !d.useAIAssessment && d.assessmentQuestions == []
    ensures d.interviewType != Assessment ==> (e == None <==> RequiredFilled(d))
  {
    if !RequiredFilled(d) then Some(MissingRequired)
    else if d.interviewType == Assessment && d.useAIAssessment && d.assessmentSkills == [] then Some(MissingSkills)
    else if d.interviewType == Assessment && !d.useAIAssessment && d.assessmentQuestions == [] then Some(MissingQuestions)
    else None
  }

  /** The round recorded from an accepted form under the given id. */
  function RoundOf(d: RoundDraft, id: string): InterviewRound {
    InterviewRound(id, d.title, d.interviewer, d.venue, d.interviewType, d.duration, d.description,
                   d.useAIAssessment, d.assessmentSkills, d.assessmentQuestions)
  }

  /**
   * A round added from a form that only had its required fields filled in
   * carries an empty description, a disabled generated assessment and empty
   * skill and question lists.
   */
  lemma RoundOfDefaults(title: string, interviewer: string, venue: string, duration: string, t: InterviewType, id: string)
    requires title != "" && interviewer != "" && venue != "" && duration != "" && t != Assessment
    ensures Validate(EmptyDraft.(title := title, interviewer := interviewer, venue := venue, duration := duration, interviewType := t)) == None
    ensures var r := RoundOf(EmptyDraft.(title := title, interviewer := interviewer, venue := venue, duration := duration, interviewType := t), id);
      r.description == "" && !r.useAIAssessment && r.assessmentSkills == [] && r.assessmentQuestions == []
  {
  }

  /** Removing a round just added under a fresh id restores the list. */
  lemma AddThenRemoveRound(rounds: seq<InterviewRound>, d: RoundDraft, id: string)
    requires forall i :: 0 <= i < |rounds| ==> rounds[i].id != id
    ensures WithoutKey(rounds + [RoundOf(d, id)], RoundId, id) == rounds
  {
    WithoutKeyAppended(rounds, RoundId, RoundOf(d, id));
  }

  class Configuration {
    var rounds: seq<InterviewRound>
    var isAddingRound: bool
    var newRound: RoundDraft

    constructor ()
      ensures rounds == [] && !isAddingRound && newRound == EmptyDraft
    {
      rounds, isAddingRound, newRound := [], false, EmptyDraft;
    }

    /**
     * `addRound` with the id the clock supplies: a refused form changes
     * nothing and the reason is returned; an accepted one appends exactly one
     * round at the end, resets the form and closes it.
     */
    method AddRound(id: string) returns (error: Option<AddError>)
      modifies this
      ensures error == Validate(old(newRound))
      ensures error.Some? ==>
        rounds == old(rounds) && newRound == old(newRound) && isAddingRound == old(isAddingRound)
      ensures error.None? ==>
        rounds == old(rounds) + [RoundOf(old(newRound), id)] && newRound == EmptyDraft && !isAddingRound
    {
      error := Validate(newRound);
      if error.None? {
        rounds := rounds + [RoundOf(newRound, id)];
        newRound := EmptyDraft;
        isAddingRound := false;
      }
    }

    /** `removeRound`: the rounds with that id go, the others keep their order. */
    method RemoveRound(id: string)
      modifies this`rounds
      ensures rounds == WithoutKey(old(rounds), RoundId, id)
    {
      rounds := WithoutKey(rounds, RoundId, id);
    }

    /** `handleComplete`: hands over the rounds only when there is at least one. */
    method HandleComplete() returns (completed: Option<seq<InterviewRound>>)
      ensures completed.Some? <==> rounds != []
      ensures completed.Some? ==> completed.value == rounds
    {
      if rounds == [] {
        return None;
      }
      return Some(rounds);
    }

    /** "Add Round" opens the form, its Cancel button closes it. */
    method SetAddingRound(open: bool)
      modifies this`isAddingRound
      ensures isAddingRound == open
    {
      isAddingRound := open;
    }

    /** A text input of the form: `setNewRound({ ...newRound, <field>: value })`. */
    method SetText(field: DraftField, value: string)
      modifies this`newRound
      ensures newRound == match field
        case Title => old(newRound).(title := value)
        case Interviewer => old(newRound).(interviewer := value)
        case Venue => old(newRound).(venue := value)
        case Duration => old(newRound).(duration := value)
        case Description => old(newRound).(description := value)
    {
      match field
      case Title => newRound := newRound.(title := value);
      case Interviewer => newRound := newRound.(interviewer := value);
      case Venue => newRound := newRound.(venue := value);
      case Duration => newRound := newRound.(duration := value);
      case Description => newRound := newRound.(description := value);
    }

    /** The type select; the assessment lists are kept when the type changes. */
    method SetType(t: InterviewType)
      modifies this`newRound
      ensures newRound == old(newRound).(interviewType := t)
    {
      newRound := newRound.(interviewType := t);
    }

    /** The "generate the assessment" check box. */
    method SetUseAIAssessment(on: bool)
      modifies this`newRound
      ensures newRound == old(newRound).(useAIAssessment := on)
    {
      newRound := newRound.(useAIAssessment := on);
    }

    /** The assessment editor reports a new skill list. */
    method OnSkillsChange(skills: seq<string>)
      modifies this`newRound
      ensures newRound == old(newRound).(assessmentSkills := skills)
    {
      newRound := newRound.(assessmentSkills := skills);
    }

    /** The assessment editor reports a new question list. */
    method OnQuestionsChange(questions: seq<Question>)
      modifies this`newRound
      ensures newRound == old(newRound).(assessmentQuestions := questions)
    {
      newRound := newRound.(assessmentQuestions := questions);
    }
  }
}
