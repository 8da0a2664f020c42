/**
 * The combined issue and pull-request search (src/github/search_items.py): the
 * qualifier normalisation of the query, the request parameters, and the text
 * listing of the results. The issue-only and PR-only tools use the same pieces.
 */
module SearchItems {
  import opened Wrappers
  import opened Seqs
  import opened Text
  import opened Blocks

  const BestMatch := "best_match"

  const Issue := "is:issue"
  const Pr := "is:pr"
  const PullRequest := "is:pull-request"

  /**
   * The issue branch of `build_query`: a query that asks for pull requests is
   * left alone, one without `is:issue` gets it appended.
   */
  function IssueQuery(query: string): (r: string)
    ensures StartsWith(r, query)
    ensures r == query || r == query + " is:issue"
    ensures r != query <==> !Contains(query, Pr) && !Contains(query, PullRequest) && !Contains(query, Issue)
  {
    if Contains(query, Pr) || Contains(query, PullRequest) then query
    else if !Contains(query, Issue) then query + " is:issue"
    else query
  }

  /**
   * The pull-request branch of `build_query`: `is:issue` is rewritten to `is:pr`
   * everywhere, and a query naming neither PR qualifier gets ` is:pr` appended.
   * The result always asks for pull requests and never for issues.
   */
  function PrQuery(query: string): (r: string)
    ensures Contains(r, Pr) || Contains(r, PullRequest)
    ensures !Contains(r, Issue)
    ensures r == query + " is:pr" <==> !Contains(query, Issue) && !Contains(query, Pr) && !Contains(query, PullRequest)
    ensures !Contains(query, Issue) && r != query + " is:pr" ==> r == query
  {
    if Contains(query, Issue) then
      NoIssueAfterReplace(query);
      ReplaceIntroduces(query, Issue, Pr);
      ReplaceShrinks(query, Issue, Pr);
      ReplaceAll(query, Issue, Pr)
    else if !Contains(query, Pr) && !Contains(query, PullRequest) then
      AppendedPrQualifier(query);
      query + " is:pr"
    else
      query
  }

  lemma AppendedPrQualifier(query: string)
    requires !Contains(query, Issue)
    ensures Contains(query + " is:pr", Pr) && !Contains(query + " is:pr", Issue)
  {
    ContainsAt(" is:pr", Pr, 1);
    ContainsInRight(query, " is:pr", Pr);
    ContainsConcat(query, " is:pr", Issue);
    ContainsLength(" is:pr", Issue);
  }

  /** `build_query(query, type)`: the issue branch for `"issue"`, the PR branch for anything else. */
  function BuildQuery(query: string, kind: string): string
  {
    if kind == "issue" then IssueQuery(query) else PrQuery(query)
  }

  /** Normalising a normalised query changes nothing, for both kinds. */
  lemma BuildQueryIdempotent(query: string, kind: string)
    ensures BuildQuery(BuildQuery(query, kind), kind) == BuildQuery(query, kind)
  {
    if kind == "issue" {
      IssueQueryIdempotent(query);
    }
  }

  lemma IssueQueryIdempotent(query: string)
    ensures IssueQuery(IssueQuery(query)) == IssueQuery(query)
  {
    var r := IssueQuery(query);
    if r != query {
      var tail := " is:issue";
      assert r == query + tail;
      TailNamesNoPr();
      SpaceNotInPr();
      assert tail[0] == ' ';
      ContainsConcat(query, tail, Pr);
      ContainsConcat(query, tail, PullRequest);
      TailNamesIssue();
      ContainsInRight(query, tail, Issue);
    }
  }

  lemma TailNamesIssue()
    ensures Contains(" is:issue", Issue)
  {
    ContainsAt(" is:issue", Issue, 1);
  }

  lemma TailNamesNoPr()
    ensures !Contains(" is:issue", Pr) && !Contains(" is:issue", PullRequest)
  {
    assert Pr[3] == 'p' && PullRequest[3] == 'p';
    assert 'p' !in " is:issue";
    ContainsChars(" is:issue", Pr, 'p');
    ContainsChars(" is:issue", PullRequest, 'p');
  }

  lemma SpaceNotInPr()
    ensures ' ' !in Pr && ' ' !in PullRequest
  {
  }

  /** Rewriting with a shorter replacement never lengthens the text, and shortens it when it rewrites. */
  lemma {:induction false} ReplaceShrinks(s: string, pat: string, repl: string)
    requires |repl| < |pat|
    ensures |ReplaceAll(s, pat, repl)| <= |s|
    ensures Contains(s, pat) ==> |ReplaceAll(s, pat, repl)| < |s|
    decreases |s|
  {
    ContainsLength(s, pat);
    if |s| >= |pat| {
      if s[..|pat|] == pat {
        ReplaceShrinks(s[|pat|..], pat, repl);
      } else {
        ReplaceShrinks(s[1..], pat, repl);
        assert Contains(s, pat) ==> Contains(s[1..], pat);
      }
    }
  }

  /** A text starting with a character other than `i` holds `is:issue` exactly where its tail does. */
  lemma ConsNoIssueStart(c: char, x: string)
    requires c != 'i'
    ensures Contains([c] + x, Issue) <==> Contains(x, Issue)
  {
    assert ([c] + x)[1..] == x;
    assert Issue[0] == 'i';
    assert |[c] + x| >= |Issue| ==> ([c] + x)[..|Issue|][0] == c;
  }

  /** A rewritten text that starts like the tail of `is:issue` came from one that does. */
  lemma {:induction false} SuffixKept(t: string, j: nat)
    requires 1 <= j <= |Issue|
    ensures StartsWith(ReplaceAll(t, Issue, Pr), Issue[j..]) ==> StartsWith(t, Issue[j..])
    decreases |t|
  {
    var q := Issue[j..];
    if j < |Issue| && |t| >= |Issue| {
      if t[..|Issue|] == Issue {
        ReplacedAtHead(t);
        PrNotIssueTail(ReplaceAll(t[|Issue|..], Issue, Pr), j);
      } else {
        var rest := ReplaceAll(t[1..], Issue, Pr);
        ReplacedPastHead(t);
        SuffixKept(t[1..], j + 1);
        IssueTailStep(j);
        StartsWithCons(t[0], rest, q);
        StartsWithCons(t[0], t[1..], q);
        assert t == [t[0]] + t[1..];
      }
    }
  }

  lemma ReplacedAtHead(t: string)
    requires |t| >= |Issue| && t[..|Issue|] == Issue
    ensures ReplaceAll(t, Issue, Pr) == Pr + ReplaceAll(t[|Issue|..], Issue, Pr)
  {
  }

  lemma ReplacedPastHead(t: string)
    requires |t| >= |Issue| && t[..|Issue|] != Issue
    ensures ReplaceAll(t, Issue, Pr) == [t[0]] + ReplaceAll(t[1..], Issue, Pr)
  {
  }

  lemma IssueTailStep(j: nat)
    requires 1 <= j < |Issue|
    ensures Issue[j..][1..] == Issue[j + 1..]
  {
  }

  /** `is:pr` does not start like any proper tail of `is:issue`. */
  lemma PrNotIssueTail(rest: string, j: nat)
    requires 1 <= j < |Issue|
    ensures !StartsWith(Pr + rest, Issue[j..])
  {
    var r := Pr + rest;
    if j == 3 {
      assert r[2] == ':' && Issue[j..][2] == 's';
    } else {
      assert r[0] == 'i' && Issue[j..][0] != 'i';
    }
  }

  /** `query.replace("is:issue", "is:pr")` leaves no `is:issue` behind, even across the seams. */
  lemma {:induction false} NoIssueAfterReplace(s: string)
    ensures !Contains(ReplaceAll(s, Issue, Pr), Issue)
    decreases |s|
  {
    if |s| < |Issue| {
      ContainsLength(s, Issue);
    } else if s[..|Issue|] == Issue {
      NoIssueAfterReplace(s[|Issue|..]);
      RewrittenHead(ReplaceAll(s[|Issue|..], Issue, Pr));
    } else {
      NoIssueAfterReplace(s[1..]);
      SuffixKept(s[1..], 1);
      KeptHead(s);
    }
  }

  /** `is:pr` in front of a text without `is:issue` does not make one. */
  lemma RewrittenHead(rest: string)
    requires !Contains(rest, Issue)
    ensures !Contains(Pr + rest, Issue)
  {
    var r := Pr + rest;
    Absent(rest, Issue);
    assert r[0] == 'i' && r[1] == 's' && r[2] == ':' && r[3] == 'p' && r[4] == 'r';
    assert Issue[0] == 'i' && Issue[3] == 'i';
    forall i: nat
      ensures !OccursAt(r, Issue, i)
    {
      if i + |Issue| <= |r| {
        if i < |Pr| {
          assert r[i..i + |Issue|][0] == r[i] && r[i..i + |Issue|][3] == r[i + 3];
        } else {
          assert !OccursAt(rest, Issue, i - |Pr|);
          assert r[i..i + |Issue|] == rest[i - |Pr|..i - |Pr| + |Issue|];
        }
      }
    }
    NoPosition(r, Issue);
  }

  /** A text not starting with `is:issue`, its first character kept in front of the rewritten rest. */
  lemma KeptHead(s: string)
    requires |s| >= |Issue| && s[..|Issue|] != Issue
    requires !Contains(ReplaceAll(s[1..], Issue, Pr), Issue)
    requires StartsWith(ReplaceAll(s[1..], Issue, Pr), Issue[1..]) ==> StartsWith(s[1..], Issue[1..])
    ensures !Contains(ReplaceAll(s, Issue, Pr), Issue)
  {
    var rest := ReplaceAll(s[1..], Issue, Pr);
    var r := ReplaceAll(s, Issue, Pr);
    assert r == [s[0]] + rest && r[1..] == rest;
    assert !StartsWith(r, Issue);
  }

  /** The query parameters `fetch_items` sends; `sort` only for an explicit ordering. */
  function SearchParams(query: string, sortBy: string): (params: map<string, string>)
    ensures params.Keys == {"q", "per_page", "order"} + (if sortBy != BestMatch then {"sort"} else {})
    ensures params["q"] == query && params["per_page"] == "20" && params["order"] == "desc"
    ensures "sort" in params <==> sortBy != BestMatch
    ensures "sort" in params ==> params["sort"] == sortBy
  {
    var params := map["q" := query, "per_page" := "20", "order" := "desc"];
    if sortBy != BestMatch then params["sort" := sortBy] else params
  }

  /** One search hit, with the fields the formatter reads. */
  datatype Item = Item(
    repositoryUrl: string,
    state: string,
    title: string,
    number: int,
    login: string,
    comments: int,
    labels: seq<string>,
    htmlUrl: string,
    mergedAt: Option<string>)

  /** `raw_response["total_count"]` and `raw_response.get("items", [])`. */
  datatype SearchResponse = SearchResponse(totalCount: int, items: seq<Item>)

  /** The exception the formatter raises for a repository URL it cannot take apart. */
  datatype UnpackError =
    | NoReposSegment(url: string)      // `split("/repos/")[1]` has no second piece
    | NotOwnerRepo(repoName: string)   // `owner, repo = repo_name.split("/")` does not find two pieces

  /** `pull_request.merged_at` is truthy: present and not empty. */
  predicate Merged(item: Item)
  {
    item.mergedAt.Some? && item.mergedAt.value != ""
  }

  /** The state shown: `MERGED` for a merged pull request of a `"pr"` search, the upper-cased state otherwise. */
  function ItemState(item: Item, kind: string): (r: string)
    ensures kind == "pr" && Merged(item) ==> r == "MERGED"
    ensures !(kind == "pr" && Merged(item)) ==> r == Upper(item.state)
  {
    if kind == "pr" && Merged(item) then "MERGED" else Upper(item.state)
  }

  /** The `owner/repo` part of a repository API URL. */
  datatype RepoName = RepoName(full: string, owner: string, repo: string)

  const ReposMarker := "/repos/"

  /**
   * `repo_url.split("/repos/")[1]` and `owner, repo = repo_name.split("/")`:
   * fails when the URL has no `/repos/` or the name is not exactly `owner/repo`.
   */
  function RepoOf(url: string): (r: Result<RepoName, UnpackError>)
    ensures r.Err? && r.error.NoReposSegment? <==> !Contains(url, ReposMarker)
    ensures !Contains(url, ReposMarker) ==> r == Err(NoReposSegment(url))
    ensures |SplitOn(url, ReposMarker)| >= 2 ==>
      && (r.Err? <==> |Split(SplitOn(url, ReposMarker)[1], '/')| != 2)
      && (r.Err? ==> r.error == NotOwnerRepo(SplitOn(url, ReposMarker)[1]))
      && (r.Ok? ==> r.value.full == SplitOn(url, ReposMarker)[1])
      && (r.Ok? ==> Split(r.value.full, '/') == [r.value.owner, r.value.repo])
    ensures r.Ok? ==> r.value.full == r.value.owner + "/" + r.value.repo
    ensures r.Ok? ==> '/' !in r.value.owner && '/' !in r.value.repo
  {
    var pieces := SplitOn(url, ReposMarker);
    SplitOnCount(url, ReposMarker);
    if |pieces| < 2 then Err(NoReposSegment(url))
    else
      var parts := Split(pieces[1], '/');
      SplitJoin(pieces[1], '/');
      if |parts| != 2 then Err(NotOwnerRepo(pieces[1]))
      else
        assert Join(parts, "/") == parts[0] + "/" + Join(parts[1..], "/");
        assert parts[1..] == [parts[1]];
        Ok(RepoName(pieces[1], parts[0], parts[1]))
  }

  /** `"issues"` for an issue search, `"pull requests"` for anything else. */
  function ResourceName(kind: string): string
  {
    if kind == "issue" then "issues" else "pull requests"
  }

  function FoundLine(total: int, kind: string): string
  {
    "Found " + GroupedInt(total) + " " + ResourceName(kind) + " matching your query.\n"
  }

  const IssueHint := "   [get_issue: "
  const PrHint := "   [get_pr: "

  /** The tool the hint names, by search kind. */
  function HintTag(kind: string): string
  {
    if kind == "issue" then IssueHint else PrHint
  }

  /** The call arguments of the hint. */
  function HintArgs(kind: string, name: RepoName, number: int): string
  {
    var at := "owner=\"" + name.owner + "\" repo=\"" + name.repo + "\" ";
    if kind == "issue" then at + "issue_number=" + IntToString(number) + "]"
    else at + "pull_number=" + IntToString(number) + "]"
  }

  /** The follow-up hint: `get_issue` for an issue search, `get_pr` for anything else. */
  function Hint(kind: string, name: RepoName, number: int): (r: string)
    ensures StartsWith(r, IssueHint) <==> kind == "issue"
    ensures StartsWith(r, PrHint) <==> kind != "issue"
  {
    HintPrefixes(HintArgs(kind, name, number));
    HintTag(kind) + HintArgs(kind, name, number)
  }

  /** Each hint starts with its own tool name and not with the other's. */
  lemma HintPrefixes(rest: string)
    ensures StartsWith(IssueHint + rest, IssueHint) && !StartsWith(IssueHint + rest, PrHint)
    ensures StartsWith(PrHint + rest, PrHint) && !StartsWith(PrHint + rest, IssueHint)
  {
    assert (IssueHint + rest)[..|IssueHint|] == IssueHint;
    assert (PrHint + rest)[..|PrHint|] == PrHint;
    assert (IssueHint + rest)[8] == IssueHint[8] == 'i';
    assert (PrHint + rest)[8] == PrHint[8] == 'p';
  }

  function Headline(idx: nat, item: Item, kind: string): string
  {
    NatToString(idx) + ". [" + ItemState(item, kind) + "] " + item.title
  }

  function RepoLine(name: RepoName, number: int): string
  {
    "   Repo: " + name.full + " | #" + IntToString(number)
  }

  function AuthorLine(item: Item): string
  {
    "   Author: " + item.login + " | Comments: " + IntToString(item.comments)
  }

  /** A labels line only when the joined label names are not empty. */
  function LabelsLines(labels: string): seq<string>
  {
    if labels != "" then ["   Labels: " + labels] else []
  }

  function UrlLine(url: string): string
  {
    "   URL: " + url
  }

  /** The lines for one hit, numbered `idx`. */
  function ItemLines(idx: nat, item: Item, kind: string, name: RepoName): seq<string>
  {
    [Headline(idx, item, kind), RepoLine(name, item.number), AuthorLine(item)]
    + LabelsLines(Join(item.labels, ", "))
    + [UrlLine(item.htmlUrl), Hint(kind, name, item.number), ""]
  }

  /** The `/repos/` split of `item["repository_url"]`, written inline in the item loop. */
  function RepoOfItem(item: Item): Result<RepoName, UnpackError>
  {
    RepoOf(item.repositoryUrl)
  }

  /** The block of lines of one hit, for the search kind. */
  function LinesOf(kind: string): (nat, Item, RepoName) -> seq<string>
  {
    (idx: nat, item: Item, name: RepoName) => ItemLines(idx, item, kind, name)
  }

  /** The hits from position `i` on, numbered from `i + 1`; the first URL that cannot be taken apart aborts. */
  function ItemsBody(items: seq<Item>, i: nat, kind: string): Result<seq<string>, UnpackError>
  {
    TryBlocks(items, i, RepoOfItem, LinesOf(kind))
  }

  /** The lines `format_item_results` joins with newlines. */
  function ItemsReport(response: SearchResponse, kind: string): Result<seq<string>, UnpackError>
  {
    var found := FoundLine(response.totalCount, kind);
    if response.items == [] then Ok([found, "No results to display."])
    else
      Prepend([found, "Top Results:\n"], ItemsBody(response.items, 0, kind))
  }

  function JoinedReport(response: SearchResponse, kind: string): Result<string, UnpackError>
  {
    match ItemsReport(response, kind)
    case Ok(lines) => Ok(Join(lines, "\n"))
    case Err(e) => Err(e)
  }

  /** The formatter fails exactly when some hit's repository URL cannot be taken apart. */
  lemma ItemsBodyFails(items: seq<Item>, i: nat, kind: string)
    ensures ItemsBody(items, i, kind).Err? <==> exists k :: i <= k < |items| && RepoOf(items[k].repositoryUrl).Err?
  {
    TryBlocksFails(items, i, RepoOfItem, LinesOf(kind));
    assert forall k :: i <= k < |items| ==> RepoOfItem(items[k]) == RepoOf(items[k].repositoryUrl);
  }

  lemma ItemLinesHaveHint(idx: nat, item: Item, kind: string, name: RepoName)
    ensures Hint(kind, name, item.number) in ItemLines(idx, item, kind, name)
  {
    var lines := ItemLines(idx, item, kind, name);
    assert lines[|lines| - 2] == Hint(kind, name, item.number);
  }

  /** Every hit's repository URL was taken apart, and its hint line is in the body. */
  lemma HintListed(items: seq<Item>, i: nat, kind: string, k: nat)
    requires ItemsBody(items, i, kind).Ok? && i <= k < |items|
    ensures RepoOf(items[k].repositoryUrl).Ok?
    ensures Hint(kind, RepoOf(items[k].repositoryUrl).value, items[k].number) in ItemsBody(items, i, kind).value
  {
    BlockListed(items, i, RepoOfItem, LinesOf(kind), k);
    var name := RepoOfItem(items[k]).value;
    ItemLinesHaveHint(k + 1, items[k], kind, name);
    assert LinesOf(kind)(k + 1, items[k], name) == ItemLines(k + 1, items[k], kind, name);
  }

  /** No hits: the count line and `No results to display.`, nothing else. */
  lemma NoResults(response: SearchResponse, kind: string)
    requires response.items == []
    ensures JoinedReport(response, kind) == Ok(FoundLine(response.totalCount, kind) + "\n" + "No results to display.")
  {
    var lines := [FoundLine(response.totalCount, kind), "No results to display."];
    assert ItemsReport(response, kind) == Ok(lines);
    assert lines[1..] == ["No results to display."];
    assert Join(lines, "\n") == lines[0] + "\n" + Join(lines[1..], "\n");
  }

  /** The lines for one hit, as the loop of `format_item_results` appends them. */
  method AppendItem(lines: seq<string>, idx: nat, item: Item, kind: string, name: RepoName) returns (out: seq<string>)
    ensures out == lines + ItemLines(idx, item, kind, name)
  {
    var state := Upper(item.state);
    if kind == "pr" && item.mergedAt.Some? && item.mergedAt.value != "" {
      state := "MERGED";
    }
    assert state == ItemState(item, kind);
    var head := [NatToString(idx) + ". [" + state + "] " + item.title, RepoLine(name, item.number), AuthorLine(item)];
    var labels := Join(item.labels, ", ");
    var labelsLine: seq<string> := [];
    if labels != "" {
      labelsLine := ["   Labels: " + labels];
    }
    out := lines + (head + labelsLine + [UrlLine(item.htmlUrl), Hint(kind, name, item.number), ""]);
  }

  /** The `for idx, item in enumerate(items, 1)` loop: the hits after the lines already written. */
  method AppendItems(lines0: seq<string>, items: seq<Item>, kind: string) returns (r: Result<seq<string>, UnpackError>)
    ensures r == Prepend(lines0, ItemsBody(items, 0, kind))
  {
    var lines := lines0;
    var i := 0;
    while i < |items|
      invariant 0 <= i <= |items|
      invariant Prepend(lines0, ItemsBody(items, 0, kind)) == Prepend(lines, ItemsBody(items, i, kind))
    {
      var step := AppendHit(lines, items, i, kind);
      if step.Err? {
        return Err(step.error);
      }
      lines := step.value;
      i := i + 1;
    }
    assert lines + [] == lines;
    r := Ok(lines);
  }

  /** One turn of the loop: the hit's repository URL is taken apart, then its lines are appended. */
  method AppendHit(lines: seq<string>, items: seq<Item>, i: nat, kind: string) returns (r: Result<seq<string>, UnpackError>)
    requires i < |items|
    ensures r.Err? ==> ItemsBody(items, i, kind) == Err(r.error)
    ensures r.Ok? ==> Prepend(lines, ItemsBody(items, i, kind)) == Prepend(r.value, ItemsBody(items, i + 1, kind))
  {
    var item := items[i];
    var name := RepoOf(item.repositoryUrl);
    if name.Err? {
      TryBlocksFirstError(items, i, RepoOfItem, LinesOf(kind));
      return Err(name.error);
    }
    TryBlocksStep(lines, items, i, RepoOfItem, LinesOf(kind));
    var out := AppendItem(lines, i + 1, item, kind, name.value);
    r := Ok(out);
  }

  /** `format_item_results(raw_response, type)`. */
  method FormatItemResults(response: SearchResponse, kind: string) returns (r: Result<string, UnpackError>)
    ensures r == JoinedReport(response, kind)
    ensures response.items == [] ==> r == Ok(FoundLine(response.totalCount, kind) + "\n" + "No results to display.")
    ensures r.Err? <==> exists k :: 0 <= k < |response.items| && RepoOf(response.items[k].repositoryUrl).Err?
  {
    var found := FoundLine(response.totalCount, kind);
    if response.items == [] {
      var lines := [found, "No results to display."];
      assert ItemsReport(response, kind) == Ok(lines);
      NoResults(response, kind);
      return Ok(Join(lines, "\n"));
    }
    ItemsBodyFails(response.items, 0, kind);
    var all := AppendItems([found, "Top Results:\n"], response.items, kind);
    if all.Err? {
      return Err(all.error);
    }
    r := Ok(Join(all.value, "\n"));
  }

  /**
   * `search_items_workflow`: the normalised query and the sort rule go to the
   * search endpoint (`fetch` stands for the HTTP call), and its answer is formatted.
   */
  method SearchItemsWorkflow(query: string, kind: string, sortBy: string, fetch: map<string, string> -> SearchResponse)
    returns (r: Result<string, UnpackError>)
    ensures r == JoinedReport(fetch(SearchParams(BuildQuery(query, kind), sortBy)), kind)
  {
    var searchQuery := BuildQuery(query, kind);
    var response := fetch(SearchParams(searchQuery, sortBy));
    r := FormatItemResults(response, kind);
  }
}
