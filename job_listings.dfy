/**
 * The applicant's job search: a list of job postings narrowed by a search
 * term (matched against title, company and skills, ignoring case) and by the
 * job-type and location selects ("all" disables a select).
 */
module JobListings {
  import opened Text
  import opened Seqs

  datatype Job = Job(
    id: string, title: string, company: string, location: string,
    employmentType: string, postedDate: string, matchScore: int, skills: seq<string>)

  /** The postings the page lists. */
  const Jobs: seq<Job> := [
    Job("1", "Senior Frontend Developer", "TechCorp Inc.", "San Francisco, CA (Remote)", "Full-time",
        "2025-05-15", 92, ["React", "TypeScript", "Tailwind CSS", "GraphQL"]),
    Job("2", "UX/UI Designer", "Design Studios Co.", "New York, NY", "Full-time",
        "2025-05-16", 85, ["Figma", "Adobe XD", "UI Design", "User Research"]),
    Job("3", "DevOps Engineer", "Cloud Systems", "Remote", "Contract",
        "2025-05-14", 78, ["AWS", "Docker", "Kubernetes", "CI/CD"]),
    Job("4", "Backend Developer", "Data Solutions", "Austin, TX", "Part-time",
        "2025-05-12", 70, ["Node.js", "Python", "MongoDB", "SQL"])
  ]

  /** The values the job-type and location selects offer. */
  const JobTypeOptions: seq<string> := ["all", "Full-time", "Part-time", "Contract", "Internship"]
  const LocationOptions: seq<string> := ["all", "Remote", "San Francisco", "New York", "Austin"]

  /** The search term appears, ignoring case, in the title, the company or some skill. */
  predicate MatchesSearch(job: Job, searchTerm: string) {
    MentionsIgnoringCase(job.title, searchTerm) || MentionsIgnoringCase(job.company, searchTerm)
    || SomeMentions(job.skills, searchTerm)
  }

  /** "all", or a case-sensitive substring of the field. */
  predicate MatchesSelect(field: string, selected: string) {
    selected == "all" || Contains(field, selected)
  }

  /** The job passes all three conditions. */
  predicate Shown(job: Job, searchTerm: string, jobType: string, location: string) {
    MatchesSearch(job, searchTerm) && MatchesSelect(job.employmentType, jobType) && MatchesSelect(job.location, location)
  }

  /**
   * `filteredJobs`: the jobs that pass, in their order, each as often as in
   * the input; the jobs that fail are gone.
   */
  function FilteredJobs(jobs: seq<Job>, searchTerm: string, jobType: string, location: string): (r: seq<Job>)
    ensures Subseq(r, jobs)
    ensures forall i :: 0 <= i < |r| ==> Shown(r[i], searchTerm, jobType, location)
    ensures forall j :: multiset(r)[j] == if Shown(j, searchTerm, jobType, location) then multiset(jobs)[j] else 0
  {
    var p := (j: Job) => Shown(j, searchTerm, jobType, location);
    FilterSpec(jobs, p);
    Filter(jobs, p)
  }

  /** A job is listed exactly when it is one of the jobs and passes. */
  lemma FilteredJobsMembership(jobs: seq<Job>, searchTerm: string, jobType: string, location: string, j: Job)
    ensures j in FilteredJobs(jobs, searchTerm, jobType, location) <==> j in jobs && Shown(j, searchTerm, jobType, location)
  {
    var r := FilteredJobs(jobs, searchTerm, jobType, location);
    assert j in r <==> multiset(r)[j] > 0;
    assert j in jobs <==> multiset(jobs)[j] > 0;
  }

  /** An empty search with both selects on "all" lists every job, in order. */
  lemma NoFilterShowsAll(jobs: seq<Job>)
    ensures FilteredJobs(jobs, "", "all", "all") == jobs
  {
    var p := (j: Job) => Shown(j, "", "all", "all");
    forall i | 0 <= i < |jobs| ensures p(jobs[i]) {
      EmptyTermMentioned(jobs[i].title);
    }
    FilterKeepsAll(jobs, p);
  }

  /** "San Francisco, CA (Remote)" includes "Remote", at index 19. */
  lemma RemoteInSanFrancisco()
    ensures Contains("San Francisco, CA (Remote)", "Remote")
  {
    var hay := "San Francisco, CA (Remote)";
    assert hay[19..25] == "Remote";
    assert OccursAt(hay, "Remote", 19);
    ContainsAt(hay, "Remote");
  }

  /**
   * Every location the select offers lists some posting; "Remote" lists
   * both the remote job and the San Francisco one marked "(Remote)".
   */
  lemma LocationOptionsSelectJobs()
    ensures forall i :: 1 <= i < |LocationOptions| ==>
      exists j :: 0 <= j < |Jobs| && MatchesSelect(Jobs[j].location, LocationOptions[i])
    ensures MatchesSelect(Jobs[0].location, "Remote") && MatchesSelect(Jobs[2].location, "Remote")
  {
    RemoteInSanFrancisco();
    assert Jobs[0].location == "San Francisco, CA (Remote)";
    forall i | 1 <= i < |LocationOptions|
      ensures exists j :: 0 <= j < |Jobs| && MatchesSelect(Jobs[j].location, LocationOptions[i])
    {
      var j := if i == 1 then 2 else if i == 4 then 3 else i - 2;
      assert LocationOptions[i] <= Jobs[j].location;
      assert MatchesSelect(Jobs[j].location, LocationOptions[i]);
    }
    assert MatchesSelect(Jobs[0].location, "Remote");
  }

  /**
   * The job types the select offers list some posting, except "Internship",
   * which no posting has: with it the page lists nothing.
   */
  lemma JobTypeOptionsSelectJobs()
    ensures forall i :: 1 <= i < |JobTypeOptions| - 1 ==>
      exists j :: 0 <= j < |Jobs| && MatchesSelect(Jobs[j].employmentType, JobTypeOptions[i])
    ensures forall j :: 0 <= j < |Jobs| ==> !MatchesSelect(Jobs[j].employmentType, "Internship")
    ensures FilteredJobs(Jobs, "", "Internship", "all") == []
  {
    forall i | 1 <= i < |JobTypeOptions| - 1
      ensures exists j :: 0 <= j < |Jobs| && MatchesSelect(Jobs[j].employmentType, JobTypeOptions[i])
    {
      var j := if i == 1 then 0 else if i == 2 then 3 else 2;
      assert JobTypeOptions[i] <= Jobs[j].employmentType;
    }
    forall j | 0 <= j < |Jobs| ensures !MatchesSelect(Jobs[j].employmentType, "Internship") {
      ContainsAt(Jobs[j].employmentType, "Internship");
    }
    var r := FilteredJobs(Jobs, "", "Internship", "all");
    if r != [] {
      FilteredJobsMembership(Jobs, "", "Internship", "all", r[0]);
      assert false;
    }
  }

  class Page {
    var searchTerm: string
    var jobType: string
    var location: string

    constructor ()
      ensures searchTerm == "" && jobType == "all" && location == "all"
    {
      searchTerm, jobType, location := "", "all", "all";
    }

    /** "Reset Filters": the empty search and both selects on "all" (so, by NoFilterShowsAll, every job is listed). */
    method Reset()
      modifies this
      ensures searchTerm == "" && jobType == "all" && location == "all"
    {
      searchTerm, jobType, location := "", "all", "all";
    }
  }
}
