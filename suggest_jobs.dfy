/** Job suggestions for the Run Job input (utils/suggestJobs.ts): a guard on
    the configured project, then filtering and labelling of the fetched
    job list. */
module SuggestJobs {
  import opened Wrappers
  import opened Text

  /** The fields of `RundeckJob` (rundeck/types.ts) the suggestions read. */
  datatype RundeckJob = RundeckJob(id: string, name: string, group: string)

  datatype Suggestion = Suggestion(labelText: string, value: string)

  /** The filter callback: the lower-cased name or the lower-cased group
      contains the lower-cased phrase. */
  predicate JobMatches(j: RundeckJob, phrase: string) {
    Includes(Lower(j.name), Lower(phrase)) || Includes(Lower(j.group), Lower(phrase))
  }

  /** `group/name` when the group is non-empty, else the name; the value is
      the job id. */
  function JobSuggestion(j: RundeckJob): Suggestion {
    Suggestion(if j.group != "" then j.group + "/" + j.name else j.name, j.id)
  }

  /** `suggestJobs` given the configured project and the job list the API
      returned for it (or the fetch failure). The list is only consulted
      when a project is configured. */
  function SuggestJobs(project: Option<string>, fetched: Result<seq<RundeckJob>, string>, searchPhrase: Option<string>): (r: seq<Suggestion>)
    ensures !Truthy(project) || fetched.Failure? ==> r == []
    ensures fetched.Success? ==> |r| <= |fetched.value|
    ensures fetched.Success? ==> exists kept :: IsSubsequence(kept, fetched.value) && r == Map(kept, JobSuggestion)
    ensures Truthy(project) && fetched.Success? && !Truthy(searchPhrase) ==>
      |r| == |fetched.value| && forall i :: 0 <= i < |r| ==> r[i] == JobSuggestion(fetched.value[i])
    ensures Truthy(project) && fetched.Success? && Truthy(searchPhrase) ==>
      forall j :: j in fetched.value ==> (JobMatches(j, searchPhrase.value) ==> JobSuggestion(j) in r)
    ensures Truthy(project) && fetched.Success? && Truthy(searchPhrase) ==>
      exists kept :: IsSubsequence(kept, fetched.value) && r == Map(kept, JobSuggestion)
        && forall j :: multiset(kept)[j] == if JobMatches(j, searchPhrase.value) then multiset(fetched.value)[j] else 0
    ensures fetched.Success? ==>
      forall s :: s in r ==>
        exists j :: j in fetched.value && s == JobSuggestion(j) && (Truthy(searchPhrase) ==> JobMatches(j, searchPhrase.value))
  {
    if !Truthy(project) then
      var none: seq<RundeckJob> := [];
      assert Map(none, JobSuggestion) == [] && (fetched.Success? ==> IsSubsequence(none, fetched.value));
      []
    else match fetched
      case Failure(_) => []
      case Success(jobs) =>
        var filtered := if Truthy(searchPhrase)
          then Filter(jobs, j => JobMatches(j, searchPhrase.value))
          else jobs;
        assert IsSubsequence(filtered, jobs) by { if !Truthy(searchPhrase) { SubsequenceRefl(jobs); } }
        Map(filtered, JobSuggestion)
  }

  /** Labels of grouped jobs carry the group as a path prefix, and the
      value identifies the job. */
  lemma JobLabels(j: RundeckJob)
    ensures j.group != "" ==> JobSuggestion(j).labelText == j.group + "/" + j.name
    ensures j.group == "" ==> JobSuggestion(j).labelText == j.name
    ensures JobSuggestion(j).value == j.id
  {
  }

  /** The search ignores the case of ASCII letters in the phrase. */
  lemma {:induction false} JobSearchIgnoresCase(j: RundeckJob, phrase: string)
    ensures JobMatches(j, phrase) == JobMatches(j, Lower(phrase))
  {
    LowerIdempotent(phrase);
  }
}
