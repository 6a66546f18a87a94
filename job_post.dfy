/**
 * The job-posting form: the job's text fields (checked by a schema of
 * minimum lengths before submission), and a list of required skills, each
 * with a level, whose names are kept distinct ignoring case.
 */
module JobPost {
  import opened Text
  import opened Seqs

  datatype SkillLevel = Beginner | Intermediate | Expert

  datatype Skill = Skill(name: string, level: SkillLevel)

  /** The form's values. */
  datatype JobForm = JobForm(
    title: string, department: string, location: string, employmentType: string,
    salary: string, description: string, responsibilities: string,
    qualifications: string, benefits: string, newSkill: string)

  /** `defaultValues` (also what `form.reset()` restores). */
  const DefaultForm := JobForm("", "", "", "full-time", "", "", "", "", "", "")

  /** The schema: each required field has its minimum length; salary, benefits and the skill input are free. */
  predicate JobFormValid(f: JobForm) {
    && |f.title| >= 3
    && |f.department| >= 1 && |f.location| >= 1 && |f.employmentType| >= 1
    && |f.description| >= 10 && |f.responsibilities| >= 10 && |f.qualifications| >= 10
  }

  /** Validity does not depend on the salary, the benefits or the skill input. */
  lemma ValidityIgnoresOptional(f: JobForm, salary: string, benefits: string, newSkill: string)
    ensures JobFormValid(f.(salary := salary, benefits := benefits, newSkill := newSkill)) == JobFormValid(f)
  {
  }

  /** The default form is not submittable: its title is empty. */
  lemma DefaultFormInvalid()
    ensures !JobFormValid(DefaultForm)
  {
  }

  /** The skill badge's colour classes. */
  function SkillBadgeColor(level: SkillLevel): string {
    match level
    case Beginner => "bg-green-100 text-green-800 hover:bg-green-100"
    case Intermediate => "bg-blue-100 text-blue-800 hover:bg-blue-100"
    case Expert => "bg-yellow-100 text-yellow-800 hover:bg-yellow-100"
  }

  /** Each level has its own colour. */
  lemma SkillBadgeColorDistinct(a: SkillLevel, b: SkillLevel)
    ensures SkillBadgeColor(a) == SkillBadgeColor(b) <==> a == b
  {
    if a != b {
      assert |SkillBadgeColor(a)| != |SkillBadgeColor(b)|;
    }
  }

  /** Some listed skill has this name, ignoring case. */
  predicate HasNameIgnoringCase(skills: seq<Skill>, name: string) {
    exists i :: 0 <= i < |skills| && Lower(skills[i].name) == Lower(name)
  }

  /** No two listed skills have names equal ignoring case. */
  predicate NoCaseDuplicates(skills: seq<Skill>) {
    forall i, j :: 0 <= i < j < |skills| ==> Lower(skills[i].name) != Lower(skills[j].name)
  }

  /** `addSkill` takes effect: the input is not empty and no listed name equals it ignoring case. */
  predicate AcceptsSkill(skills: seq<Skill>, input: string) {
    input != "" && !HasNameIgnoringCase(skills, input)
  }

  /**
   * The list after `addSkill`: the old list stays a prefix; an accepted input
   * is appended as entered (not trimmed) with the selected level, and the
   * names stay distinct ignoring case.
   */
  function WithSkill(skills: seq<Skill>, input: string, level: SkillLevel): (r: seq<Skill>)
    ensures skills <= r
    ensures |r| == |skills| + (if AcceptsSkill(skills, input) then 1 else 0)
    ensures AcceptsSkill(skills, input) ==> r[|skills|] == Skill(input, level)
    ensures NoCaseDuplicates(skills) ==> NoCaseDuplicates(r)
    ensures input != "" ==> HasNameIgnoringCase(r, input)
  {
    if AcceptsSkill(skills, input) then
      var r := skills + [Skill(input, level)];
      assert r[|skills|].name == input;
      assert forall i :: 0 <= i < |skills| ==> r[i] == skills[i];
      r
    else
      skills
  }

  /** A skill is added at most once, however its name is cased. */
  lemma WithSkillCaseInsensitive(skills: seq<Skill>, input: string, again: string, level: SkillLevel, level2: SkillLevel)
    requires Lower(again) == Lower(input) && input != ""
    ensures WithSkill(WithSkill(skills, input, level), again, level2) == WithSkill(skills, input, level)
  {
    var r := WithSkill(skills, input, level);
    var i :| 0 <= i < |r| && Lower(r[i].name) == Lower(input);
    assert Lower(r[i].name) == Lower(again);
  }

  /** Removing a skill by index keeps the others' relative order, so names stay distinct. */
  lemma SpliceKeepsNoCaseDuplicates(skills: seq<Skill>, index: int)
    requires NoCaseDuplicates(skills)
    ensures NoCaseDuplicates(SpliceOne(skills, index))
  {
    var r := SpliceOne(skills, index);
    var k := if index < 0 then (if |skills| + index < 0 then 0 else |skills| + index) else index;
    if k < |skills| {
      assert r == skills[..k] + skills[k + 1..];
      forall i, j | 0 <= i < j < |r| ensures Lower(r[i].name) != Lower(r[j].name) {
        var i' := if i < k then i else i + 1;
        var j' := if j < k then j else j + 1;
        assert r[i] == skills[i'] && r[j] == skills[j'];
      }
    }
  }

  /** What `onSubmit` did. */
  datatype SubmitOutcome = Invalid | NoSkills | Posted(job: JobForm, requiredSkills: seq<Skill>)

  class Page {
    var form: JobForm
    var skills: seq<Skill>
    var newSkillLevel: SkillLevel

    constructor ()
      ensures form == DefaultForm && skills == [] && newSkillLevel == Intermediate
    {
      form, skills, newSkillLevel := DefaultForm, [], Intermediate;
    }

    /**
     * `addSkill`: the list becomes WithSkill of the entered name and the
     * selected level; the input is cleared only when the skill was added.
     */
    method AddSkill()
      modifies this`skills, this`form
      ensures skills == WithSkill(old(skills), old(form).newSkill, newSkillLevel)
      ensures AcceptsSkill(old(skills), old(form).newSkill) ==> form == old(form).(newSkill := "")
      ensures !AcceptsSkill(old(skills), old(form).newSkill) ==> form == old(form)
      ensures NoCaseDuplicates(old(skills)) ==> NoCaseDuplicates(skills)
    {
      if AcceptsSkill(skills, form.newSkill) {
        skills := WithSkill(skills, form.newSkill, newSkillLevel);
        form := form.(newSkill := "");
      }
    }

    /** `removeSkill(index)`: `splice(index, 1)` on a copy of the list. */
    method RemoveSkill(index: int)
      modifies this`skills
      ensures skills == SpliceOne(old(skills), index)
      ensures NoCaseDuplicates(old(skills)) ==> NoCaseDuplicates(skills)
    {
      if NoCaseDuplicates(skills) {
        SpliceKeepsNoCaseDuplicates(skills, index);
      }
      skills := SpliceOne(skills, index);
    }

    /**
     * Submitting: a form the schema rejects never reaches `onSubmit`; an
     * empty skill list is refused; in both cases nothing changes. Otherwise
     * the job is posted with its skills, the form is reset to its defaults
     * and the skill list emptied.
     */
    method Submit() returns (outcome: SubmitOutcome)
      modifies this`form, this`skills
      ensures !JobFormValid(old(form)) ==> outcome == Invalid && form == old(form) && skills == old(skills)
      ensures JobFormValid(old(form)) && old(skills) == [] ==> outcome == NoSkills && form == old(form) && skills == old(skills)
      ensures JobFormValid(old(form)) && old(skills) != [] ==>
        outcome == Posted(old(form), old(skills)) && form == DefaultForm && skills == []
    {
      if !JobFormValid(form) {
        return Invalid;
      }
      if skills == [] {
        return NoSkills;
      }
      outcome := Posted(form, skills);
      form := DefaultForm;
      skills := [];
    }
  }
}
