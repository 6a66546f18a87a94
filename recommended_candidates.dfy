/**
 * The recruiter's list of recommended candidates: narrowed by a search term
 * (name, title or top skills, ignoring case) and by the job they match, with
 * a set of candidates already invited to interview.
 */
module RecommendedCandidates {
  import opened Text
  import opened Seqs

  datatype Candidate = Candidate(
    id: string, name: string, title: string, location: string, photo: string,
    matchScore: int, topSkills: seq<string>, jobMatch: string)

  /** The search term appears, ignoring case, in the name, the title or some top skill. */
  predicate MatchesSearch(c: Candidate, searchTerm: string) {
    MentionsIgnoringCase(c.name, searchTerm) || MentionsIgnoringCase(c.title, searchTerm)
    || SomeMentions(c.topSkills, searchTerm)
  }

  /** The job filter is "all" or exactly the job the candidate matches. */
  predicate MatchesJob(c: Candidate, jobFilter: string) {
    jobFilter == "all" || c.jobMatch == jobFilter
  }

  predicate Shown(c: Candidate, searchTerm: string, jobFilter: string) {
    MatchesSearch(c, searchTerm) && MatchesJob(c, jobFilter)
  }

  /**
   * `filteredCandidates`: the candidates that pass, in their order, each as
   * often as in the input; the others are gone.
   */
  function FilteredCandidates(candidates: seq<Candidate>, searchTerm: string, jobFilter: string): (r: seq<Candidate>)
    ensures Subseq(r, candidates)
    ensures forall i :: 0 <= i < |r| ==> Shown(r[i], searchTerm, jobFilter)
    ensures forall c :: multiset(r)[c] == if Shown(c, searchTerm, jobFilter) then multiset(candidates)[c] else 0
  {
    var p := (c: Candidate) => Shown(c, searchTerm, jobFilter);
    FilterSpec(candidates, p);
    Filter(candidates, p)
  }

  /** A candidate is listed exactly when it is one of the candidates and passes. */
  lemma FilteredCandidatesMembership(candidates: seq<Candidate>, searchTerm: string, jobFilter: string, c: Candidate)
    ensures c in FilteredCandidates(candidates, searchTerm, jobFilter) <==> c in candidates && Shown(c, searchTerm, jobFilter)
  {
    var r := FilteredCandidates(candidates, searchTerm, jobFilter);
    assert c in r <==> multiset(r)[c] > 0;
    assert c in candidates <==> multiset(candidates)[c] > 0;
  }

  /** An empty search with the job filter on "all" lists every candidate, in order. */
  lemma NoFilterShowsAll(candidates: seq<Candidate>)
    ensures FilteredCandidates(candidates, "", "all") == candidates
  {
    var p := (c: Candidate) => Shown(c, "", "all");
    forall i | 0 <= i < |candidates| ensures p(candidates[i]) {
      EmptyTermMentioned(candidates[i].name);
    }
    FilterKeepsAll(candidates, p);
  }

  /** The invite button is enabled only for candidates not yet invited. */
  predicate InviteOffered(invited: set<string>, id: string) {
    id !in invited
  }

  class Page {
    var searchTerm: string
    var jobFilter: string
    var invitedCandidates: set<string>

    constructor ()
      ensures searchTerm == "" && jobFilter == "all" && invitedCandidates == {}
    {
      searchTerm, jobFilter, invitedCandidates := "", "all", {};
    }

    /**
     * `handleSendInvitation`: exactly the given id joins the invited set
     * (sending twice changes nothing the second time), after which the
     * invitation is no longer offered for it.
     */
    method SendInvitation(candidateId: string)
      modifies this`invitedCandidates
      ensures invitedCandidates == old(invitedCandidates) + {candidateId}
      ensures candidateId in old(invitedCandidates) ==> invitedCandidates == old(invitedCandidates)
      ensures !InviteOffered(invitedCandidates, candidateId)
      ensures forall id :: id != candidateId ==> (InviteOffered(invitedCandidates, id) <==> InviteOffered(old(invitedCandidates), id))
    {
      invitedCandidates := invitedCandidates + {candidateId};
    }

    /** "Reset Filters": the empty search and the job filter on "all". */
    method Reset()
      modifies this`searchTerm, this`jobFilter
      ensures searchTerm == "" && jobFilter == "all"
    {
      searchTerm, jobFilter := "", "all";
    }
  }
}
