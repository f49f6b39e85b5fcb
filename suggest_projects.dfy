/** Project suggestions for the block configuration (utils/suggestProjects.ts):
    filtering and labelling of the project list the API returned. */
module SuggestProjects {
  import opened Wrappers
  import opened Text

  /** The fields of `RundeckProject` (rundeck/types.ts) the suggestions read. */
  datatype RundeckProject = RundeckProject(name: string, labelText: string)

  datatype Suggestion = Suggestion(labelText: string, value: string)

  /** The filter callback: the lower-cased name contains the lower-cased
      phrase, or the label is non-empty and its lower-cased form does. */
  predicate ProjectMatches(p: RundeckProject, phrase: string) {
    Includes(Lower(p.name), Lower(phrase))
    || (p.labelText != "" && Includes(Lower(p.labelText), Lower(phrase)))
  }

  /** `project.label || project.name` as the label, the name as the value. */
  function ProjectSuggestion(p: RundeckProject): Suggestion {
    Suggestion(if p.labelText != "" then p.labelText else p.name, p.name)
  }

  /** `suggestProjects` once the project list has been fetched (or the
      fetch failed): every project when no phrase is given, otherwise the
      matching ones, in their order, each labelled; any error gives []. */
  function SuggestProjects(fetched: Result<seq<RundeckProject>, string>, searchPhrase: Option<string>): (r: seq<Suggestion>)
    ensures fetched.Failure? ==> r == []
    ensures fetched.Success? ==> |r| <= |fetched.value|
    ensures fetched.Success? ==> exists kept :: IsSubsequence(kept, fetched.value) && r == Map(kept, ProjectSuggestion)
    ensures fetched.Success? && !Truthy(searchPhrase) ==>
      |r| == |fetched.value| && forall i :: 0 <= i < |r| ==> r[i] == ProjectSuggestion(fetched.value[i])
    ensures fetched.Success? && Truthy(searchPhrase) ==>
      forall p :: p in fetched.value ==> (ProjectMatches(p, searchPhrase.value) ==> ProjectSuggestion(p) in r)
    ensures fetched.Success? && Truthy(searchPhrase) ==>
      exists kept :: IsSubsequence(kept, fetched.value) && r == Map(kept, ProjectSuggestion)
        && forall p :: multiset(kept)[p] == if ProjectMatches(p, searchPhrase.value) then multiset(fetched.value)[p] else 0
    ensures fetched.Success? ==>
      forall s :: s in r ==>
        exists p :: p in fetched.value && s == ProjectSuggestion(p) && (Truthy(searchPhrase) ==> ProjectMatches(p, searchPhrase.value))
  {
    match fetched
    case Failure(_) => []
    case Success(projects) =>
      var filtered := if Truthy(searchPhrase)
        then Filter(projects, p => ProjectMatches(p, searchPhrase.value))
        else projects;
      assert IsSubsequence(filtered, projects) by { if !Truthy(searchPhrase) { SubsequenceRefl(projects); } }
      Map(filtered, ProjectSuggestion)
  }

  /** The search ignores the case of ASCII letters in the phrase. */
  lemma {:induction false} ProjectSearchIgnoresCase(p: RundeckProject, phrase: string)
    ensures ProjectMatches(p, phrase) == ProjectMatches(p, Lower(phrase))
  {
    LowerIdempotent(phrase);
  }
}
