/**
 * The applicant's profile page: contact details, a skill list, education
 * and experience, a completion percentage, and a simulated resume upload
 * that, after two timers, adds "extracted" entries to the profile. Timers
 * are modelled as the methods that run when they fire; the browser prompt
 * that asks for a new skill is the `entered` argument (None when cancelled).
 */
module Profile {
  import opened Wrappers
  import opened Seqs

  datatype Education = Education(degree: string, school: string, year: string)

  datatype Experience = Experience(
    title: string, company: string, location: string,
    startDate: string, endDate: string, description: string)

  datatype ProfileData = ProfileData(
    name: string, email: string, phone: string, location: string, title: string,
    summary: string, skills: seq<string>, education: seq<Education>, experience: seq<Experience>)

  /** The profile's text fields that have an input box. */
  datatype TextField = Name | Title | Email | Phone | Location | Summary

  /** The profile the page starts with. */
  const InitialProfile := ProfileData(
    "Jane Smith", "jane.smith@example.com", "555-123-4567", "San Francisco, CA",
    "Senior Frontend Developer",
    "Experienced frontend developer with over 5 years of experience building responsive web applications using modern JavaScript frameworks.",
    ["React", "TypeScript", "JavaScript", "HTML", "CSS", "Tailwind CSS", "Node.js", "Git"],
    [Education("Bachelor of Science in Computer Science", "University of California, Berkeley", "2015 - 2019")],
    [Experience("Frontend Developer", "WebTech Solutions", "San Francisco, CA", "2020-02", "Present",
                "Led development of the company's main SaaS product, improving performance by 35% and implementing new features that increased user retention."),
     Experience("Junior Developer", "Tech Startups Inc.", "San Francisco, CA", "2019-05", "2020-01",
                "Worked on various frontend projects using React and collaborated with designers to implement responsive UI components.")])

  const InitialProgress := 65
  const ExtractedProgress := 85

  /** The skills the simulated extraction adds, in order. */
  const ExtractedSkills: seq<string> := ["GraphQL", "Redux", "Jest", "Webpack"]

  const ExtractedExperience := Experience(
    "Senior Frontend Developer", "InnovateX", "Remote", "2022-03", "Present",
    "Lead a team of 5 developers building enterprise SaaS applications with React, TypeScript, and GraphQL. Implemented CI/CD pipelines that reduced deployment time by 45%.")

  const ExtractedEducation := Education("Frontend Development Certification", "Frontend Masters", "2020")

  /**
   * The profile written when extraction finishes, from the profile `p` it
   * starts from: the extracted skills after the old ones, the new job before
   * the old ones, the certificate after the old education; nothing else
   * changes.
   */
  function Extracted(p: ProfileData): (r: ProfileData)
    ensures |r.skills| == |p.skills| + 4 && |r.experience| == |p.experience| + 1 && |r.education| == |p.education| + 1
    ensures r.skills[..|p.skills|] == p.skills && r.skills[|p.skills|..] == ExtractedSkills
    ensures r.experience[0] == ExtractedExperience && r.experience[1..] == p.experience
    ensures r.education[..|p.education|] == p.education && r.education[|p.education|..] == [ExtractedEducation]
    ensures r.(skills := p.skills, experience := p.experience, education := p.education) == p
  {
    p.(skills := p.skills + ExtractedSkills,
       experience := [ExtractedExperience] + p.experience,
       education := p.education + [ExtractedEducation])
  }

  /** Extraction has no duplicate check: a skill already listed ends up listed twice. */
  lemma ExtractedMayDuplicate(p: ProfileData, s: string)
    requires s in ExtractedSkills && s in p.skills
    ensures multiset(Extracted(p).skills)[s] >= 2
  {
    var r := Extracted(p).skills;
    assert r == p.skills + ExtractedSkills;
    assert multiset(r) == multiset(p.skills) + multiset(ExtractedSkills);
  }

  /** `addSkill` takes effect: the prompt was answered, not empty, and the skill is not listed (exact match). */
  predicate AcceptsSkill(skills: seq<string>, entered: Option<string>) {
    entered.Some? && entered.value != "" && entered.value !in skills
  }

  /** The skill list after `addSkill`: the old list is a prefix and only an accepted answer is added. */
  function WithSkill(skills: seq<string>, entered: Option<string>): (r: seq<string>)
    ensures skills <= r
    ensures |r| == |skills| + (if AcceptsSkill(skills, entered) then 1 else 0)
    ensures forall x :: x in r <==> x in skills || (AcceptsSkill(skills, entered) && x == entered.value)
    ensures NoDuplicates(skills) ==> NoDuplicates(r)
  {
    if AcceptsSkill(skills, entered) then
      assert NoDuplicates(skills) ==> NoDuplicates(skills + [entered.value]) by {
        if NoDuplicates(skills) {
          NoDuplicatesAppend(skills, entered.value);
        }
      }
      skills + [entered.value]
    else
      skills
  }

  /** Removing a skill just added restores the list. */
  lemma AddThenRemoveSkill(skills: seq<string>, entered: Option<string>)
    requires AcceptsSkill(skills, entered)
    ensures Without(WithSkill(skills, entered), entered.value) == skills
  {
    WithoutAppended(skills, entered.value);
  }

  class Page {
    var isUploading: bool
    var isAutoFilling: bool
    var profileProgress: int
    var profile: ProfileData
    /** The profile the pending extraction timer captured when the upload began. */
    var captured: ProfileData

    /** The two upload phases never overlap. */
    ghost predicate Valid()
      reads this
    {
      !(isUploading && isAutoFilling)
    }

    constructor ()
      ensures Valid()
      ensures !isUploading && !isAutoFilling && profileProgress == InitialProgress && profile == InitialProfile
    {
      isUploading, isAutoFilling := false, false;
      profileProgress := InitialProgress;
      profile, captured := InitialProfile, InitialProfile;
    }

    /** A text field's input box: `setProfile({ ...profile, <field>: value })`. */
    method SetField(field: TextField, value: string)
      modifies this`profile
      ensures profile == match field
        case Name => old(profile).(name := value)
        case Title => old(profile).(title := value)
        case Email => old(profile).(email := value)
        case Phone => old(profile).(phone := value)
        case Location => old(profile).(location := value)
        case Summary => old(profile).(summary := value)
    {
      match field
      case Name => profile := profile.(name := value);
      case Title => profile := profile.(title := value);
      case Email => profile := profile.(email := value);
      case Phone => profile := profile.(phone := value);
      case Location => profile := profile.(location := value);
      case Summary => profile := profile.(summary := value);
    }

    /** `addSkill` with the prompt's answer; every other field of the profile is kept. */
    method AddSkill(entered: Option<string>)
      modifies this`profile
      ensures profile == old(profile).(skills := WithSkill(old(profile).skills, entered))
    {
      if AcceptsSkill(profile.skills, entered) {
        profile := profile.(skills := WithSkill(profile.skills, entered));
      }
    }

    /** `removeSkill`: every equal entry goes, the rest keep their order; nothing else changes. */
    method RemoveSkill(skill: string)
      modifies this`profile
      ensures profile == old(profile).(skills := Without(old(profile).skills, skill))
      ensures NoDuplicates(old(profile).skills) ==> NoDuplicates(profile.skills)
    {
      if NoDuplicates(profile.skills) {
        SubseqNoDuplicates(Without(profile.skills, skill), profile.skills);
      }
      profile := profile.(skills := Without(profile.skills, skill));
    }

    /** `handleUploadResume` (offered only while no upload is running): the timer captures the current profile. */
    method StartUpload()
      requires Valid() && !isUploading && !isAutoFilling
      modifies this`isUploading, this`captured
      ensures Valid() && isUploading && captured == profile
    {
      isUploading := true;
      captured := profile;
    }

    /** The upload timer fires: uploading ends, auto-filling begins. */
    method UploadTimerFires()
      requires Valid() && isUploading
      modifies this`isUploading, this`isAutoFilling
      ensures Valid() && !isUploading && isAutoFilling
    {
      isUploading, isAutoFilling := false, true;
    }

    /**
     * The extraction timer fires: auto-filling ends, progress becomes 85 and
     * the profile becomes the extraction of the CAPTURED profile, so edits
     * made since the upload began are overwritten.
     */
    method AutoFillTimerFires()
      requires Valid() && isAutoFilling
      modifies this`isAutoFilling, this`profileProgress, this`profile
      ensures Valid() && !isAutoFilling
      ensures profileProgress == ExtractedProgress && profile == Extracted(captured)
    {
      isAutoFilling := false;
      profileProgress := ExtractedProgress;
      profile := Extracted(captured);
    }
  }

  /**
   * A skill added while the resume is being processed is lost when the
   * extraction finishes: the started upload captured the profile without it.
   */
  lemma SkillAddedDuringUploadIsLost(before: ProfileData, s: string)
    requires s != "" && s !in before.skills && s !in ExtractedSkills
    ensures s in WithSkill(before.skills, Some(s))
    ensures s !in Extracted(before).skills
  {
  }
}
