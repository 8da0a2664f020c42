/**
 * The issue-only search (src/github/search_issues.py). Its query rule, its
 * request parameters and its listing are those of the combined search with
 * the kind fixed to `"issue"`; the lemmas here tie the two together.
 */
module SearchIssues {
  import opened Wrappers
  import opened Text
  import opened SearchItems

  /** `build_query`: leave a pull-request query alone, append ` is:issue` when it is missing. */
  function BuildQuery(query: string): (r: string)
    ensures StartsWith(r, query)
    ensures r == query || r == query + " is:issue"
    ensures r == query + " is:issue" <==> !Contains(query, Pr) && !Contains(query, PullRequest) && !Contains(query, Issue)
    ensures Contains(query, Pr) || Contains(query, PullRequest) ==> r == query
  {
    if Contains(query, Pr) || Contains(query, PullRequest) then query
    else if !Contains(query, Issue) then query + " is:issue"
    else query
  }

  /** The issue tool's rule is the combined tool's rule for `"issue"`. */
  lemma BuildQueryAgrees(query: string)
    ensures BuildQuery(query) == SearchItems.BuildQuery(query, "issue")
  {
  }

  /** Normalising twice is normalising once. */
  lemma BuildQueryIdempotent(query: string)
    ensures BuildQuery(BuildQuery(query)) == BuildQuery(query)
  {
    BuildQueryAgrees(query);
    BuildQueryAgrees(BuildQuery(query));
    IssueQueryIdempotent(query);
  }

  /** `format_issue_results`: the combined listing for `"issue"`, whose states are never `MERGED`. */
  method FormatIssueResults(response: SearchResponse) returns (r: Result<string, UnpackError>)
    ensures r == JoinedReport(response, "issue")
    ensures response.items == [] ==> r == Ok(FoundLine(response.totalCount, "issue") + "\n" + "No results to display.")
  {
    r := FormatItemResults(response, "issue");
  }

  /** `search_issues_workflow`, with `fetch` for the HTTP call to the search endpoint. */
  method SearchIssuesWorkflow(query: string, sortBy: string, fetch: map<string, string> -> SearchResponse)
    returns (r: Result<string, UnpackError>)
    ensures r == JoinedReport(fetch(SearchParams(BuildQuery(query), sortBy)), "issue")
  {
    var searchQuery := BuildQuery(query);
    var response := fetch(SearchParams(searchQuery, sortBy));
    r := FormatIssueResults(response);
  }
}
