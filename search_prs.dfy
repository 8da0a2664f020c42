/**
 * The pull-request-only search (src/github/search_prs.py). Its query rule, its
 * request parameters and its listing are those of the combined search with
 * the kind fixed to `"pr"`; the lemmas here tie the two together.
 */
module SearchPrs {
  import opened Wrappers
  import opened Text
  import opened SearchItems

  /** `build_query`: rewrite `is:issue` to `is:pr`, append ` is:pr` when no PR qualifier is there. */
  function BuildQuery(query: string): (r: string)
    ensures Contains(r, Pr) || Contains(r, PullRequest)
    ensures !Contains(r, Issue)
    ensures r == query + " is:pr" <==> !Contains(query, Issue) && !Contains(query, Pr) && !Contains(query, PullRequest)
    ensures Contains(query, Issue) ==> r == ReplaceAll(query, Issue, Pr)
    ensures !Contains(query, Issue) && (Contains(query, Pr) || Contains(query, PullRequest)) ==> r == query
  {
    if Contains(query, Issue) then
      NoIssueAfterReplace(query);
      ReplaceIntroduces(query, Issue, Pr);
      ReplaceShrinks(query, Issue, Pr);
      ReplaceAll(query, Issue, Pr)
    else if !Contains(query, Pr) && !Contains(query, PullRequest) then
      AppendedPrQualifier(query);
      query + " is:pr"
    else query
  }

  /** The PR tool's rule is the combined tool's rule for any kind but `"issue"`. */
  lemma BuildQueryAgrees(query: string)
    ensures BuildQuery(query) == SearchItems.BuildQuery(query, "pr")
  {
  }

  /** A normalised query is left alone. */
  lemma BuildQueryIdempotent(query: string)
    ensures BuildQuery(BuildQuery(query)) == BuildQuery(query)
  {
    var r := BuildQuery(query);
    assert !Contains(r, Issue) && (Contains(r, Pr) || Contains(r, PullRequest));
  }

  /** `format_pr_results`: the combined listing for `"pr"`, where a merged pull request shows `MERGED`. */
  method FormatPrResults(response: SearchResponse) returns (r: Result<string, UnpackError>)
    ensures r == JoinedReport(response, "pr")
    ensures response.items == [] ==> r == Ok(FoundLine(response.totalCount, "pr") + "\n" + "No results to display.")
  {
    r := FormatItemResults(response, "pr");
  }

  /** `search_prs_workflow`, with `fetch` for the HTTP call to the search endpoint. */
  method SearchPrsWorkflow(query: string, sortBy: string, fetch: map<string, string> -> SearchResponse)
    returns (r: Result<string, UnpackError>)
    ensures r == JoinedReport(fetch(SearchParams(BuildQuery(query), sortBy)), "pr")
  {
    var searchQuery := BuildQuery(query);
    var response := fetch(SearchParams(searchQuery, sortBy));
    r := FormatPrResults(response);
  }
}
