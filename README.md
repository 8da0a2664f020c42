# github-MCP tree and search layer in Dafny

This project models the rule-carrying core of the GitHub MCP tool server: the
tools that list, filter and grep a repository tree, and the tools that normalise
search queries and render the answers of GitHub's search, pull request and
discussion endpoints as text. Every network call (REST or GraphQL) is an input
or an oracle function parameter. Python's regular expressions are an abstract
`Regex` value with a `compiles` and a `search` predicate.

Each core source file is one module:

- `RepoTree` models `src/github/get_repo_tree.py`. It covers the depth filter, the split into directories and files, the stable sort by depth, the 50-per-kind listing, the two truncation warnings, the pattern search and the tree-SHA decision.
- `LegacyRepoTree` models `src/get_repo_tree.py`, the older revision. Over its character budget, that revision falls back to depth 1.
- `RepoFiles` models `src/github/search_repo_files.py`: the glob file filter and its listing.
- `GrepFile` and `GrepRepo` model `src/github/grep_file.py` and `src/github/grep_repo.py`.
- `SearchItems`, `SearchIssues` and `SearchPrs` model the three search tools.
- `Discussion` and `ListDiscussions` model `get_discussion.py` and `list_discussions.py`.
- `PrFiles` models `get_pr_files.py`.
- `CodeSearch` and `LegacyCodeSearch` model the newer and older `search_code.py`.

Helper modules:

- `Wrappers`: `Option` and `Result`.
- `Seqs`: Python slice prefixes, filters and subsequences.
- `Text`: join, split, substring search, `str.replace`, number rendering.
- `StableSort`: a stable insertion sort by an integer key. It stands for Python's `sorted`.
- `Glob`: Python's `fnmatch`, with `*`, `?`, `[...]` and `[!...]` classes, and an unclosed `[` read as a literal.
- `GitTree`: tree entries and path depth.
- `Blocks`: the loop shapes the formatters share. One shape writes a numbered block per element (`enumerate(xs, 1)`), one concatenates one block per element, and one aborts on the first element that cannot be taken apart.

Python builds each text report by appending to a list in a loop. Here each formatter is a `method` with that loop. It is proved equal to `Join(<report function>, "\n")`, and the lemmas state what the report function's lines contain.

## Model

| member | source | states |
|---|---|---|
| RepoTree.WithinDepth | src/github/get_repo_tree.py:89-90 | with depth > 0 the kept entries are exactly those with fewer than `depth` separators, in original order (a subsequence); with depth <= 0 all entries are kept |
| RepoTree.SortedListing | src/github/get_repo_tree.py:92-99 | each kind's list is sorted by non-decreasing separator count, is a permutation of that kind's kept entries, holds exactly the kept entries of that kind, and keeps listing order among equal depths |
| RepoTree.KindsSeparate | src/github/get_repo_tree.py:92-99 | no entry is both directory and file, and entries of any other kind are in neither list |
| RepoTree.ContentLinesShape | src/github/get_repo_tree.py:101-109 | at most 50 directories and 50 files are rendered, while the `Directories (n)` and `Files (n)` headers give the full list sizes |
| RepoTree.RenderContent | src/github/get_repo_tree.py:101-109 | the rendering loop produces exactly the content lines of the model |
| RepoTree.FormatTreeResponse | src/github/get_repo_tree.py:75-124 | the formatter's loops produce exactly the report of the model |
| RepoTree.ServerWarningIff | src/github/get_repo_tree.py:116-118 | the server-truncation warning is present if and only if the raw tree was flagged truncated, whatever the local size |
| RepoTree.LocalWarningIff | src/github/get_repo_tree.py:111-121 | the local warning is present if and only if the joined content is over 1000 characters, and the content is appended whole either way |
| RepoTree.EmptyDirectoryIff | src/github/get_repo_tree.py:80-87 | `Empty directory.` appears if and only if the raw listing is empty |
| RepoTree.TailEmptyMessage | src/github/get_repo_tree.py:80-124 | after the header and the server warning, `Empty directory.` appears if and only if the raw listing is empty |
| RepoTree.FilteredToNothing | src/github/get_repo_tree.py:80-90 | a non-empty tree that the depth filter empties reports zero directories and zero files, not `Empty directory.` |
| RepoTree.ZeroContent | src/github/get_repo_tree.py:89-109 | when the depth filter drops every entry, the content is only the two zero counts |
| RepoTree.FormatPatternMatches | src/github/get_repo_tree.py:138-156 | the pattern listing loop produces exactly the pattern report |
| RepoTree.PatternReportAgrees | src/github/get_repo_tree.py:138-156 | the pattern report is the file-search report, with the truncation warning inserted after its first line when the tree was truncated |
| RepoTree.TreeSha | src/github/get_repo_tree.py:42-60 | the root path uses the root tree; another path succeeds if and only if it is a directory, with its SHA, and otherwise gives the not-a-directory error |
| RepoTree.Plan | src/github/get_repo_tree.py:13-26 | an empty pattern asks for a listing, recursive exactly when depth is not 1; a pattern asks for a pattern search |
| RepoTree.Workflow | src/github/get_repo_tree.py:13-26 | fails exactly when the tree SHA cannot be resolved; otherwise it is the pattern report over the filtered recursive tree, or the listing report |
| RepoFiles.FilterByPattern | src/github/search_repo_files.py:22-28 | the result is the first min(50, candidates) blob entries matching the glob, in tree order, a subsequence of the input. The tree tool's pattern search (src/github/get_repo_tree.py:128-134) is the same code and uses this function. |
| RepoFiles.FilterByPatternComplete | src/github/search_repo_files.py:22-28 | when fewer than 50 files come back, every matching blob is among them |
| RepoFiles.NamePatternIgnoresDirectory | src/github/search_repo_files.py:24-27 | a pattern without `/` is matched against the basename only |
| RepoFiles.ExtensionPattern | src/github/search_repo_files.py:24-27 | a `*<ext>` pattern without `/` selects a file at any depth exactly when its name ends with `<ext>`, whatever its directories are called |
| RepoFiles.ExtensionPatternAtRoot | src/github/search_repo_files.py:24-27 | the same for a file at the root of the searched tree |
| RepoFiles.MatchesReportListsMatches | src/github/search_repo_files.py:32-46 | an empty result reports `No files found.`; otherwise each match's path has its own line |
| RepoFiles.FormatMatches | src/github/search_repo_files.py:32-46 | the listing loop produces exactly the report of the model |
| RepoFiles.MatchesBody | src/github/search_repo_files.py:37-44 | after the search header: `No files found.` alone for no match, otherwise the count line and then one listing line per match, in order |
| Glob.PlainMatchesItself | src/github/search_repo_files.py:24-27 | a pattern without wildcards matches exactly the name equal to it |
| Glob.StarMatchesAll | src/github/search_repo_files.py:24-27 | `*` matches any name, including one with `/` |
| Glob.StarSuffix | src/github/search_repo_files.py:24-27 | `*` followed by a plain suffix matches exactly the names ending with that suffix |
| Glob.QuestionMatchesOne | src/github/search_repo_files.py:24-27 | `?` matches exactly the one-character names |
| Glob.LoneBracketIsLiteral | src/github/search_repo_files.py:24-27 | an unclosed `[` is a literal character |
| Glob.NegatedClass | src/github/search_repo_files.py:24-27 | `[!...]` matches a character exactly when `[...]` does not |
| LegacyRepoTree.BuildHeaders | src/get_repo_tree.py:21-28 | Accept and the API version are always set; `Authorization: Bearer <token>` is present if and only if the token is non-empty; no other header |
| LegacyRepoTree.FormatAll | src/get_repo_tree.py:79-84 | one item per raw entry with the same path; `dir` if and only if the raw type is `tree`; a missing size becomes 0 |
| LegacyRepoTree.DepthAtMostFacts | src/get_repo_tree.py:104-112 | the filtered items are exactly those with at most `max_depth` separators, in order, as a subsequence, and filtering again changes nothing |
| LegacyRepoTree.FilterByDepth | src/get_repo_tree.py:104-112 | the filtering loop computes the depth filter |
| LegacyRepoTree.FormatTreeResponse | src/get_repo_tree.py:75-100 | truncated if and only if the rendered length is over 1000; then the items are cut to depth <= 1 with the warning, and otherwise they are all kept and there is no warning; the scope is `/` for the root |
| LegacyRepoTree.CutListing | src/get_repo_tree.py:86-93 | after the cut, an entry is still listed exactly when its depth is at most 1 |
| GrepFile.Search | src/github/grep_file.py:25-43 | a pattern that does not compile is an error; otherwise the windows stand for exactly the first `max_matches` matching lines, in increasing order, each clamped to `[max(0,m-c), min(n,m+c+1))` |
| GrepFile.MatchesFrom | src/github/grep_file.py:27 | the match indices are increasing, in range, each a matching line, and every matching line is among them |
| GrepFile.WindowAt | src/github/grep_file.py:34-40 | a window's bounds are the clamped bounds, with `0 <= start <= m < end <= n` for `c >= 0`, and its lines are exactly the numbered lines in between |
| GrepFile.SearchLines | src/github/grep_file.py:25-43 | the loop computes the search of the model |
| GrepFile.BuildWindows | src/github/grep_file.py:32-41 | the window loop gives, for each shown match index in order, the window clamped to the file with its numbered lines |
| GrepFile.NoMatchNoWindows | src/github/grep_file.py:29-30 | a file with no matching line gives no windows |
| GrepFile.ZeroContextWindow | src/github/grep_file.py:34-35 | with context 0 a window is its match line alone |
| GrepFile.MarkerOnMatchLine | src/github/grep_file.py:58-61 | the `>` marker is on exactly the match line |
| GrepFile.BlocksSeparated | src/github/grep_file.py:56-63 | when no earlier window equals the last one, `  ---` goes between consecutive windows and not after the last |
| GrepFile.BodyOfSearch | src/github/grep_file.py:56-63 | for the windows a search returns, the separators fall exactly between consecutive windows |
| GrepFile.FormatGrepResponse | src/github/grep_file.py:47-65 | the nested loops produce exactly the report of the model |
| GrepFile.TotalLines | src/github/grep_file.py:17 | the reported line count is one more than the number of newlines |
| GrepFile.GrepFileWorkflow | src/github/grep_file.py:10-19 | a directory is refused with its error; a bad pattern is an error; otherwise the report over the file's lines |
| GrepRepo.SelectFiles | src/github/grep_repo.py:19-20 | the files grepped are the first `max_files` glob candidates in tree order, and there are at most 50 candidates |
| GrepRepo.GrepFilesPaths | src/github/grep_repo.py:27-38 | one result per fetched file that is a file, in order, directories skipped, under the path `base_path/item.path` |
| GrepRepo.GrepFilesMatches | src/github/grep_repo.py:36 | each result has at most 3 matches, and each window is exactly its match line |
| GrepRepo.GrepFilesFails | src/github/grep_repo.py:27-38 | when every request succeeds, the search fails if and only if the pattern does not compile and at least one file was read |
| GrepRepo.GrepMatchingFiles | src/github/grep_repo.py:27-38 | the loop, with its `continue` on directories, computes the results of the model |
| GrepRepo.GrepOne | src/github/grep_repo.py:30-37 | one turn of the file loop: no result for a directory, one result under the fetched path for a file, an error for a failed request or a pattern that does not compile |
| GrepRepo.SearchedBound | src/github/grep_repo.py:44-47 | the searched count is at most min(max_files, total matching) |
| GrepRepo.Partition | src/github/grep_repo.py:53-54 | every result is in exactly one of the with-matches and no-matches lists |
| GrepRepo.MatchWord | src/github/grep_repo.py:62 | `match` exactly when the count is 1 |
| GrepRepo.RepoBodyShape | src/github/grep_repo.py:56-71 | only `No matches found in any file.` when no file matches; otherwise the blocks of the matching files come first, then the `No matches:` list when some file has none |
| GrepRepo.FormatGrepRepoResults | src/github/grep_repo.py:42-73 | the loops produce exactly the report of the model |
| GrepRepo.ResultsReadable | src/github/grep_repo.py:36-66 | every window the search returns holds its match line, so the formatter's indexing is safe |
| GrepRepo.GrepRepoWorkflow | src/github/grep_repo.py:14-21 | fails exactly when grepping the selected files fails; otherwise the report with the candidate count and the tree's truncation flag |
| SearchItems.IssueQuery | src/github/search_items.py:24-29 | the query is a prefix of the result; `" is:issue"` is appended if and only if none of the three qualifiers occurs |
| SearchItems.PrQuery | src/github/search_items.py:30-35 | the result always has a PR qualifier and never `is:issue`; `" is:pr"` is appended if and only if no qualifier occurs |
| SearchItems.BuildQueryIdempotent | src/github/search_items.py:23-35 | normalising twice is the same as normalising once, for both types |
| SearchItems.NoIssueAfterReplace | src/github/search_items.py:31-32 | replacing every `is:issue` by `is:pr` leaves no `is:issue` |
| SearchItems.SearchParams | src/github/search_items.py:41-43 | `sort` is present if and only if the sort is not `best_match`; `q`, `per_page` and `order` are always set. The issue and PR searches build the same parameters (src/github/search_issues.py:37-39, src/github/search_prs.py:37-39). |
| SearchItems.ItemState | src/github/search_items.py:69-71 | `MERGED` exactly for a merged PR, else the upper-cased state; the PR search's formatter does the same (src/github/search_prs.py:70-72) |
| SearchItems.RepoOf | src/github/search_items.py:65-67 | a URL without `/repos/` is `NoReposSegment`; otherwise the repository name is the piece after the first `/repos/`, the result is `NotOwnerRepo` of that piece exactly when splitting it at `/` does not give two pieces, and else owner and repo are those two pieces, which join back to the name |
| SearchItems.Hint | src/github/search_items.py:83-86 | the hint names `get_issue` for issues and `get_pr` for pull requests |
| SearchItems.HintListed | src/github/search_items.py:64-87 | every listed item carries its follow-up hint |
| SearchItems.ItemsBodyFails | src/github/search_items.py:64-67 | the listing fails if and only if some item's repository URL cannot be unpacked |
| SearchItems.NoResults | src/github/search_items.py:58-60 | no items gives the count line and `No results to display.` alone |
| SearchItems.FormatItemResults | src/github/search_items.py:50-89 | the loop produces exactly the report of the model; it fails if and only if some URL cannot be unpacked |
| SearchItems.SearchItemsWorkflow | src/github/search_items.py:9-17 | the report of the results fetched for the normalised query |
| SearchIssues.BuildQuery | src/github/search_issues.py:26-31 | a query with a PR qualifier is unchanged; `" is:issue"` is appended if and only if no qualifier occurs; the query is a prefix of the result |
| SearchIssues.BuildQueryAgrees | src/github/search_issues.py:26-31 | the same normalisation as the combined tool's issue branch |
| SearchIssues.BuildQueryIdempotent | src/github/search_issues.py:26-31 | normalising twice is normalising once |
| SearchIssues.FormatIssueResults | src/github/search_issues.py:52-82 | the combined tool's report for issues, with `No results to display.` for no items |
| SearchIssues.SearchIssuesWorkflow | src/github/search_issues.py:13-20 | the issue report of the results fetched for the normalised query |
| SearchPrs.BuildQuery | src/github/search_prs.py:26-31 | every `is:issue` becomes `is:pr`; `" is:pr"` is appended if and only if no qualifier occurs; the result always has a PR qualifier and never `is:issue` |
| SearchPrs.BuildQueryAgrees | src/github/search_prs.py:26-31 | the same normalisation as the combined tool's PR branch |
| SearchPrs.BuildQueryIdempotent | src/github/search_prs.py:26-31 | normalising twice is normalising once |
| SearchPrs.FormatPrResults | src/github/search_prs.py:52-86 | the combined tool's report for pull requests, with the MERGED rule |
| SearchPrs.SearchPrsWorkflow | src/github/search_prs.py:13-20 | the PR report of the results fetched for the normalised query |
| Discussion.CommentLimit | src/github/get_discussion.py:71 | the limit sent upstream is min(limit, 100) |
| Discussion.SortComments | src/github/get_discussion.py:77-80 | min(limit, n) comments for a non-negative limit, and a negative limit drops that many from the end (as a Python slice); a sub-multiset of the input; by upvotes they are non-increasing, otherwise a prefix of the original order |
| Discussion.SortCommentsTopK | src/github/get_discussion.py:79-80 | by upvotes, the kept comments are the most upvoted: no comment left out has more upvotes than one kept |
| Discussion.SortCommentsStable | src/github/get_discussion.py:79 | comments with equal upvotes keep their original relative order |
| Discussion.AnswerMarked | src/github/get_discussion.py:125-126 | a comment's head line ends with ` [ANSWER]` if and only if the comment is the answer |
| Discussion.CommentListed | src/github/get_discussion.py:123-135 | every shown comment has its head line in the comments section |
| Discussion.ThreadLayout | src/github/get_discussion.py:93-135 | the accepted answer block follows the fixed header; the comments header gives the total and the shown count, and the shown comments follow it |
| Discussion.TopLines | src/github/get_discussion.py:93-112 | the head is nine lines and the accepted answer, when there is one, is lines 9 to 12, so the comments header sits at line 13 or 9 |
| Discussion.FormatDiscussion | src/github/get_discussion.py:84-137 | the nested loops produce exactly the text of the model; a missing discussion gives `Discussion not found.` |
| Discussion.FormatThread | src/github/get_discussion.py:89-135 | the lines written for a discussion that exists are exactly the thread lines of the model |
| Discussion.GetDiscussionWorkflow | src/github/get_discussion.py:51-60 | the text of the discussion fetched with the clamped limit |
| PrFiles.TotalsConcat | src/github/get_pr_files.py:40-41 | the totals are sums over the files: the totals of two lists together add up |
| PrFiles.TotalsBound | src/github/get_pr_files.py:40 | with no negative counts, the total additions are at least each file's additions |
| PrFiles.StatusIcon | src/github/get_pr_files.py:51 | `+`, `-`, `M`, `R` for exactly added, removed, modified, renamed; `?` for every other status |
| PrFiles.Preview | src/github/get_pr_files.py:58-62 | a patch of at most 500 characters comes through whole; a longer one is cut to 500 characters with the truncation note |
| PrFiles.PreviewLength | src/github/get_pr_files.py:60-62 | a preview keeps min(len, 500) characters of the patch, plus the note only when cut |
| PrFiles.FileLinesShape | src/github/get_pr_files.py:52-65 | a `Renamed from` line appears if and only if `previous_filename` is truthy; a preview line appears if and only if the patch is not empty |
| PrFiles.EmptyReport | src/github/get_pr_files.py:43-48 | the no-files message is the third line if and only if there are no files, and then nothing follows |
| PrFiles.FormatPrFiles | src/github/get_pr_files.py:37-67 | the loop produces exactly the report of the model |
| PrFiles.GetPrFilesWorkflow | src/github/get_pr_files.py:13-16 | the report of the fetched files |
| CodeSearch.Extracted | src/github/search_code.py:79-89 | no more fragments than matches, each with property `content` or `path` |
| CodeSearch.ExtractedKeepsFragments | src/github/search_code.py:82-87 | every kept match gives its fragment, and every fragment comes from a kept match |
| CodeSearch.ExtractTextMatches | src/github/search_code.py:79-89 | the loop keeps exactly the content and path matches, in order |
| CodeSearch.CodeSearchParams | src/github/search_code.py:23-26 | the query and the page size of 20 are the only parameters |
| CodeSearch.FragmentLine | src/github/search_code.py:69-71 | a shown fragment is five spaces, its first 100 stripped characters, then `...`, and nothing else (the length is fixed) |
| CodeSearch.ShownFragments | src/github/search_code.py:67-71 | at most 3 fragments are shown per hit |
| CodeSearch.FragmentShown | src/github/search_code.py:68-71 | every fragment not blank after stripping gets its line |
| CodeSearch.FragmentsHeaderShown | src/github/search_code.py:65-66 | the `Code Fragments:` header appears if and only if the raw text matches are non-empty |
| CodeSearch.NoResults | src/github/search_code.py:48-50 | no hits gives the count line and `No results to display.` alone |
| CodeSearch.FormatCodeResults | src/github/search_code.py:41-75 | the nested loops produce exactly the report of the model |
| CodeSearch.SearchCodeWorkflow | src/github/search_code.py:12-15 | the report of the fetched hits |
| LegacyCodeSearch.Reshape | src/search_code.py:43-56 | every field comes from the hit: owner, repository name, full name, path, file name and URL as given; stars as given, or 0 when missing; the description as given, or `""` when missing; the text matches are exactly `CodeSearch.Extracted` of the hit's matches, `[]` when missing |
| LegacyCodeSearch.FormattedShape | src/search_code.py:42-56 | one record per hit, in order, with its path |
| LegacyCodeSearch.FormatCodeResults | src/search_code.py:39-61 | the total is passed through, and the records are the hits reshaped in order |
| LegacyCodeSearch.SearchCodeWorkflow | src/search_code.py:11-13 | the reshaped answer of the fetch |
| ListDiscussions.FindSlug | src/github/list_discussions.py:72-75 | the id of the first category with the slug, or none if and only if no category has it |
| ListDiscussions.LookupCategoryId | src/github/list_discussions.py:67-75 | the early-return loop finds the first category with the slug |
| ListDiscussions.CategoryId | src/github/list_discussions.py:55-57 | the lookup is made only for a truthy category; otherwise there is no id |
| ListDiscussions.FirstVariable | src/github/list_discussions.py:89 | the page size is min(first, 100) |
| ListDiscussions.AnsweredLabel | src/github/list_discussions.py:112 | `Yes` exactly when answered |
| ListDiscussions.NodesNumbered | src/github/list_discussions.py:106-119 | five lines per discussion; the k-th discussion's block is numbered k+1 |
| ListDiscussions.EmptyList | src/github/list_discussions.py:102-104 | no discussions gives the header and `No discussions found.` alone |
| ListDiscussions.FormatResults | src/github/list_discussions.py:97-121 | the loop produces exactly the listing of the model |
| ListDiscussions.ListDiscussionsWorkflow | src/github/list_discussions.py:48-61 | the listing of the discussions fetched with the clamped page size and the category id looked up for a truthy category |

## Left out

- HTTP and GraphQL requests, and `raise_for_status`. Inputs or oracle parameters stand for their answers. A file request that fails in the repository grep is a path missing from the fetch map (an `Err` that aborts the search); other request failures are not modelled.
- The Python regex engine: `Regex` is an abstract pair of predicates, so no property of particular patterns is proved.
- base64 and UTF-8 decoding of file contents (`decode_content`): a fetched file is already its decoded text.
- The length of Python's `str()` of the item list in `src/get_repo_tree.py`: it is a parameter `reprLength` of `LegacyRepoTree.FormatTreeResponse`.
- Thousands separators (`{n:,}`) are rendered by `Text.Grouped`. Only its shape is modelled, not a proof that it matches Python's rendering digit for digit.
- server.py, client.py, graphql_client.py, token lookup and environment loading. A token is a plain parameter of `LegacyRepoTree.BuildHeaders`; the search tools' header building follows the same rule and is not repeated.
- The display-only tools (get_issue, get_pr, get_repo, get_issue_comments, list_repo_prs, both search_repos, search_discussions, get_file_content) carry no rules beyond reshaping and are not modelled.
- JSON fields that are missing or null are folded into `Option` fields and their defaults before formatting. A code hit's description is `Option<Option<string>>`, to keep apart a missing key (default `""`) from JSON null (kept as null).
- The pull request files tool reads one page of at most 100 files; the model formats whatever list the fetch returns.
- PrFiles.Preview: the truncation note is indented like every other line of the preview, as the code does. It is proved only that the note is added when cut: "cut if and only if it ends with the note" does not hold, because a patch may itself end with that text.
- LegacyCodeSearch.Reshape: a `text_matches` key holding JSON null makes Python's `extract_text_matches` raise; the model treats it like a missing key.
- GrepRepo.GrepFilesFails: a pattern that does not compile is noticed only when at least one file is read; with no file read Python reports an empty search, and so does the model.
- GrepRepo.FormatGrepRepoResults requires every window to hold its match line (`AllReadable`). Python would raise `IndexError` otherwise, and `GrepRepo.ResultsReadable` proves the search always delivers such windows.
- `extract_text_matches` in `src/search_code.py` is the same code as in `src/github/search_code.py`; `LegacyCodeSearch` reuses `CodeSearch.Extracted` and `CodeSearch.ExtractTextMatches`.
- `filter_by_pattern` in `src/github/get_repo_tree.py` (lines 128-134) is the same code as in `src/github/search_repo_files.py`; `RepoTree` reuses `RepoFiles.FilterByPattern`.
- `build_query` in `search_issues.py` and `search_prs.py` is each written out on its own and proved equal to the matching branch of `search_items.py`. Their `fetch_*` parameters are the combined tool's `SearchItems.SearchParams`.
- SearchItems.ItemState: `Text.Upper` upper-cases the ASCII letters only, where Python's `str.upper()` follows Unicode (and may change the length, as `ß` becomes `SS`). The states GitHub sends are `open` and `closed`, where the two agree.
- Default arguments of the tool functions (`depth=-1`, `pattern=""`, `file_pattern="*.csv"`, `max_files=10`, `context_lines=0`, `max_matches=50`, `comment_limit=50`, `comment_sort="upvotes"`, `first=10`, `sort_by="best_match"`, `accept="application/vnd.github+json"`) are not modelled: every workflow takes these values as plain parameters, and the properties hold for any value.
- SearchItems.HintListed is proved for the hint line only; the other lines of each item (title, repository, author, labels, URL) are fixed by `SearchItems.ItemLines` but no separate lemma is stated about them.
