/**
 * The recruiter's company profile: a form of company texts checked by a
 * schema of minimum lengths, and two tag lists (company values and awards)
 * kept free of duplicates and of blank entries.
 */
module CompanyProfile {
  import opened Seqs
  import opened TagList

  datatype CompanyForm = CompanyForm(
    companyName: string, overview: string, mission: string, vision: string,
    targetMarket: string, keyAchievements: string, headquarters: string,
    branchOffices: string, globalPresence: string, workingStyle: string,
    teamDynamic: string, leadershipApproach: string)

  /** `defaultValues`: every field empty. */
  const DefaultForm := CompanyForm("", "", "", "", "", "", "", "", "", "", "", "")

  /** The schema's minimum lengths; branch offices and global presence are optional. */
  predicate CompanyProfileValid(f: CompanyForm) {
    && |f.companyName| >= 2
    && |f.targetMarket| >= 5 && |f.headquarters| >= 5 && |f.workingStyle| >= 5
    && |f.overview| >= 10 && |f.mission| >= 10 && |f.vision| >= 10
    && |f.keyAchievements| >= 10 && |f.teamDynamic| >= 10 && |f.leadershipApproach| >= 10
  }

  /** Validity does not depend on the optional location fields. */
  lemma ValidityIgnoresOptional(f: CompanyForm, branchOffices: string, globalPresence: string)
    ensures CompanyProfileValid(f.(branchOffices := branchOffices, globalPresence := globalPresence))
         == CompanyProfileValid(f)
  {
  }

  /** The default form is not submittable. */
  lemma DefaultFormInvalid()
    ensures !CompanyProfileValid(DefaultForm)
  {
  }

  class Page {
    var form: CompanyForm
    var values: seq<string>
    var awards: seq<string>
    var newValue: string
    var newAward: string

    /** Neither tag list holds a duplicate or a blank entry. */
    ghost predicate Valid()
      reads this
    {
      Clean(values) && Clean(awards)
    }

    constructor ()
      ensures Valid()
      ensures form == DefaultForm && values == [] && awards == [] && newValue == "" && newAward == ""
    {
      form, values, awards, newValue, newAward := DefaultForm, [], [], "", "";
    }

    /** `addValue`: an accepted input is appended trimmed and the input cleared; otherwise nothing changes. */
    method AddValue()
      requires Valid()
      modifies this`values, this`newValue
      ensures Valid()
      ensures values == AddTrimmed(old(values), old(newValue))
      ensures newValue == if Accepts(old(values), old(newValue)) then "" else old(newValue)
    {
      if Accepts(values, newValue) {
        values := AddTrimmed(values, newValue);
        newValue := "";
      }
    }

    /** `removeValue`: every equal entry goes, the rest keep their order. */
    method RemoveValue(value: string)
      requires Valid()
      modifies this`values
      ensures Valid()
      ensures values == Without(old(values), value)
    {
      RemoveKeepsClean(values, value);
      values := Without(values, value);
    }

    /** `addAward`: the same contract as AddValue, on the awards. */
    method AddAward()
      requires Valid()
      modifies this`awards, this`newAward
      ensures Valid()
      ensures awards == AddTrimmed(old(awards), old(newAward))
      ensures newAward == if Accepts(old(awards), old(newAward)) then "" else old(newAward)
    {
      if Accepts(awards, newAward) {
        awards := AddTrimmed(awards, newAward);
        newAward := "";
      }
    }

    /** `removeAward`: every equal entry goes, the rest keep their order. */
    method RemoveAward(award: string)
      requires Valid()
      modifies this`awards
      ensures Valid()
      ensures awards == Without(old(awards), award)
    {
      RemoveKeepsClean(awards, award);
      awards := Without(awards, award);
    }
  }
}
