/**
 * Grep across repository files (src/github/grep_repo.py): the first `max_files`
 * files the glob search finds are fetched, directories among them skipped, each
 * file grepped with no context and at most 3 matches, and the results reported
 * with the files that matched first and the others listed after them.
 *
 * Fetching is a map from the fetched path to the response; a path the map does
 * not hold stands for a failed request, which aborts the whole search.
 */
module GrepRepo {
  import opened Wrappers
  import opened Seqs
  import opened Text
  import opened GitTree
  import opened RepoFiles
  import opened GrepFile
  import opened Blocks

  const MaxMatchesPerFile: int := 3

  /** One entry of `grep_matching_files`' result. */
  datatype FileResult = FileResult(path: string, matches: seq<Window>, totalLines: nat)

  /** The fetched path: the entry's path under the searched directory. */
  function FilePath(basePath: string, entryPath: string): string
  {
    if basePath != "" then basePath + "/" + entryPath else entryPath
  }

  /**
   * One turn of `grep_matching_files`: no result for a directory, one for a file,
   * an error for a failed request or a pattern that does not compile.
   */
  function GrepEntry(entry: TreeEntry, basePath: string, fetch: map<string, FetchResponse>, re: Regex, pattern: string)
    : Result<seq<FileResult>, string>
  {
    var path := FilePath(basePath, entry.path);
    if path !in fetch then Err("404 Not Found: " + path)
    else match fetch[path]
      case Dir => Ok([])
      case File(content) =>
        var lines := Split(content, '\n');
        match Search(lines, re, pattern, 0, MaxMatchesPerFile)
        case Err(e) => Err(e)
        case Ok(ms) => Ok([FileResult(path, ms, |lines|)])
  }

  /** `grep_matching_files`: the results of the entries in order; the first failure aborts. */
  function GrepFiles(files: seq<TreeEntry>, basePath: string, fetch: map<string, FetchResponse>, re: Regex, pattern: string)
    : Result<seq<FileResult>, string>
  {
    if files == [] then Ok([])
    else
      match GrepEntry(files[0], basePath, fetch, re, pattern)
      case Err(e) => Err(e)
      case Ok(head) => Prepend(head, GrepFiles(files[1..], basePath, fetch, re, pattern))
  }

  /** The fetched path when the fetch answers it with a file. */
  function FetchedPath(entry: TreeEntry, basePath: string, fetch: map<string, FetchResponse>): seq<string>
  {
    var path := FilePath(basePath, entry.path);
    if path in fetch && fetch[path].File? then [path] else []
  }

  /** The paths, in order, of the passed files the fetch answers with a file. */
  function FetchedFiles(files: seq<TreeEntry>, basePath: string, fetch: map<string, FetchResponse>): seq<string>
  {
    if files == [] then [] else FetchedPath(files[0], basePath, fetch) + FetchedFiles(files[1..], basePath, fetch)
  }

  function Paths(rs: seq<FileResult>): (r: seq<string>)
    ensures |r| == |rs| && forall k :: 0 <= k < |rs| ==> r[k] == rs[k].path
  {
    seq(|rs|, k requires 0 <= k < |rs| => rs[k].path)
  }

  lemma PathsConcat(a: seq<FileResult>, b: seq<FileResult>)
    ensures Paths(a + b) == Paths(a) + Paths(b)
  {
  }

  predicate AllFetchable(files: seq<TreeEntry>, basePath: string, fetch: map<string, FetchResponse>)
  {
    forall k :: 0 <= k < |files| ==> FilePath(basePath, files[k].path) in fetch
  }

  /** A match found with context 0: its window is its line alone. */
  predicate SingleLine(w: Window)
  {
    w.start == w.matchLine && w.end == w.matchLine + 1 && |w.lines| == 1 && w.lines[0].0 == w.matchLine
  }

  /** At most 3 matches, each its line alone. */
  predicate OneLineMatches(r: FileResult)
  {
    |r.matches| <= MaxMatchesPerFile && forall j :: 0 <= j < |r.matches| ==> SingleLine(r.matches[j])
  }

  /** A file gives one result under its fetched path, a directory none. */
  lemma EntryPaths(entry: TreeEntry, basePath: string, fetch: map<string, FetchResponse>, re: Regex, pattern: string)
    requires GrepEntry(entry, basePath, fetch, re, pattern).Ok?
    ensures Paths(GrepEntry(entry, basePath, fetch, re, pattern).value) == FetchedPath(entry, basePath, fetch)
  {
  }

  /** A result has at most 3 matches, each its line alone. */
  lemma EntryMatches(entry: TreeEntry, basePath: string, fetch: map<string, FetchResponse>, re: Regex, pattern: string)
    requires GrepEntry(entry, basePath, fetch, re, pattern).Ok?
    ensures var rs := GrepEntry(entry, basePath, fetch, re, pattern).value;
      forall k :: 0 <= k < |rs| ==> OneLineMatches(rs[k])
  {
    var path := FilePath(basePath, entry.path);
    if fetch[path].File? {
      var lines := Split(fetch[path].content, '\n');
      var s := Search(lines, re, pattern, 0, MaxMatchesPerFile);
      forall j | 0 <= j < |s.value| ensures SingleLine(s.value[j]) {
        ZeroContextWindow(lines, s.value[j].matchLine);
      }
    }
  }

  /** A fetched entry fails exactly when it is a file and the pattern does not compile. */
  lemma EntryFails(entry: TreeEntry, basePath: string, fetch: map<string, FetchResponse>, re: Regex, pattern: string)
    requires FilePath(basePath, entry.path) in fetch
    ensures GrepEntry(entry, basePath, fetch, re, pattern).Err?
        <==> !re.compiles(pattern) && FetchedPath(entry, basePath, fetch) != []
  {
  }

  /** One result per passed file that is a file, in the order passed; directories are skipped. */
  lemma {:induction false} GrepFilesPaths(files: seq<TreeEntry>, basePath: string, fetch: map<string, FetchResponse>,
                                          re: Regex, pattern: string)
    requires GrepFiles(files, basePath, fetch, re, pattern).Ok?
    ensures Paths(GrepFiles(files, basePath, fetch, re, pattern).value) == FetchedFiles(files, basePath, fetch)
  {
    if files != [] {
      var head := GrepEntry(files[0], basePath, fetch, re, pattern).value;
      var rest := GrepFiles(files[1..], basePath, fetch, re, pattern);
      GrepFilesPaths(files[1..], basePath, fetch, re, pattern);
      EntryPaths(files[0], basePath, fetch, re, pattern);
      PathsConcat(head, rest.value);
    }
  }

  /** At most 3 matches per file, every one its line alone. */
  lemma {:induction false} GrepFilesMatches(files: seq<TreeEntry>, basePath: string, fetch: map<string, FetchResponse>,
                                            re: Regex, pattern: string)
    requires GrepFiles(files, basePath, fetch, re, pattern).Ok?
    ensures var rs := GrepFiles(files, basePath, fetch, re, pattern).value;
      forall k :: 0 <= k < |rs| ==> OneLineMatches(rs[k])
  {
    if files != [] {
      var head := GrepEntry(files[0], basePath, fetch, re, pattern).value;
      var rest := GrepFiles(files[1..], basePath, fetch, re, pattern).value;
      GrepFilesMatches(files[1..], basePath, fetch, re, pattern);
      EntryMatches(files[0], basePath, fetch, re, pattern);
      AllConcat(head, rest, OneLineMatches);
    }
  }

  /**
   * With every path fetchable, the search fails exactly when the pattern does not
   * compile and some file was read: with nothing to read, a bad pattern goes unnoticed.
   */
  lemma {:induction false} GrepFilesFails(files: seq<TreeEntry>, basePath: string, fetch: map<string, FetchResponse>,
                                          re: Regex, pattern: string)
    requires AllFetchable(files, basePath, fetch)
    ensures GrepFiles(files, basePath, fetch, re, pattern).Err?
        <==> !re.compiles(pattern) && FetchedFiles(files, basePath, fetch) != []
  {
    if files != [] {
      var tail := files[1..];
      forall k | 0 <= k < |tail| ensures FilePath(basePath, tail[k].path) in fetch {
        assert tail[k] == files[k + 1];
      }
      GrepFilesFails(tail, basePath, fetch, re, pattern);
      EntryFails(files[0], basePath, fetch, re, pattern);
    }
  }

  /** `matching_files[:max_files]`: the first `max_files` glob candidates, in tree order. */
  function SelectFiles(entries: seq<TreeEntry>, filePattern: string, maxFiles: int): (files: seq<TreeEntry>)
    ensures |files| <= |FilterByPattern(entries, filePattern)| <= ResultsLimit
    ensures files == FilterByPattern(entries, filePattern)[..|files|]
    ensures maxFiles >= 0 ==> |files| == Min(maxFiles, |FilterByPattern(entries, filePattern)|)
  {
    Take(FilterByPattern(entries, filePattern), maxFiles)
  }

  /** Search one selection: never more results than files passed, so `searched <= min(max_files, total)`. */
  lemma SearchedBound(entries: seq<TreeEntry>, filePattern: string, maxFiles: int, basePath: string,
                      fetch: map<string, FetchResponse>, re: Regex, pattern: string)
    requires maxFiles >= 0
    ensures var files := SelectFiles(entries, filePattern, maxFiles);
      var r := GrepFiles(files, basePath, fetch, re, pattern);
      r.Ok? ==> |r.value| <= Min(maxFiles, |FilterByPattern(entries, filePattern)|)
  {
    var files := SelectFiles(entries, filePattern, maxFiles);
    if GrepFiles(files, basePath, fetch, re, pattern).Ok? {
      GrepFilesPaths(files, basePath, fetch, re, pattern);
      FetchedFilesLength(files, basePath, fetch);
    }
  }

  lemma {:induction false} FetchedFilesLength(files: seq<TreeEntry>, basePath: string, fetch: map<string, FetchResponse>)
    ensures |FetchedFiles(files, basePath, fetch)| <= |files|
  {
    if files != [] {
      FetchedFilesLength(files[1..], basePath, fetch);
    }
  }

  /** The body of the file loop: skip a directory, grep a file, or fail. */
  method GrepOne(fileItem: TreeEntry, basePath: string, fetch: map<string, FetchResponse>, re: Regex, pattern: string)
    returns (r: Result<seq<FileResult>, string>)
    ensures r == GrepEntry(fileItem, basePath, fetch, re, pattern)
  {
    var filePath := if basePath != "" then basePath + "/" + fileItem.path else fileItem.path;
    assert filePath == FilePath(basePath, fileItem.path);
    if filePath !in fetch {
      return Err("404 Not Found: " + filePath);
    }
    var rawResponse := fetch[filePath];
    if rawResponse.Dir? {
      return Ok([]);
    }
    var lines := Split(rawResponse.content, '\n');
    var matches := SearchLines(lines, re, pattern, 0, MaxMatchesPerFile);
    if matches.Err? {
      return Err(matches.error);
    }
    r := Ok([FileResult(filePath, matches.value, |lines|)]);
  }

  lemma GrepFilesFrom(files: seq<TreeEntry>, i: nat, basePath: string, fetch: map<string, FetchResponse>, re: Regex, pattern: string)
    requires i < |files|
    ensures var one := GrepEntry(files[i], basePath, fetch, re, pattern);
      GrepFiles(files[i..], basePath, fetch, re, pattern)
        == if one.Err? then Err(one.error) else Prepend(one.value, GrepFiles(files[i + 1..], basePath, fetch, re, pattern))
  {
    assert files[i..][0] == files[i] && files[i..][1..] == files[i + 1..];
  }

  /** `grep_matching_files(owner, repo, files, pattern, base_path)`. */
  method GrepMatchingFiles(files: seq<TreeEntry>, basePath: string, fetch: map<string, FetchResponse>,
                           re: Regex, pattern: string)
    returns (r: Result<seq<FileResult>, string>)
    ensures r == GrepFiles(files, basePath, fetch, re, pattern)
  {
    var results: seq<FileResult> := [];
    var i := 0;
    PrependNothing(GrepFiles(files, basePath, fetch, re, pattern));
    assert files[0..] == files;
    while i < |files|
      invariant 0 <= i <= |files|
      invariant GrepFiles(files, basePath, fetch, re, pattern)
             == Prepend(results, GrepFiles(files[i..], basePath, fetch, re, pattern))
      decreases |files| - i
    {
      var one := GrepOne(files[i], basePath, fetch, re, pattern);
      GrepFilesFrom(files, i, basePath, fetch, re, pattern);
      if one.Err? {
        return Err(one.error);
      }
      PrependTwice(results, one.value, GrepFiles(files[i + 1..], basePath, fetch, re, pattern));
      results := results + one.value;
      i := i + 1;
    }
    assert GrepFiles(files[i..], basePath, fetch, re, pattern) == Ok([]);
    assert results + [] == results;
    r := Ok(results);
  }

  predicate HasMatches(r: FileResult)
  {
    r.matches != []
  }

  predicate NoMatches(r: FileResult)
  {
    r.matches == []
  }

  /** `files_with_matches` and `files_without_matches` split the results between them. */
  lemma {:induction false} Partition(rs: seq<FileResult>)
    ensures |Filter(rs, HasMatches)| + |Filter(rs, NoMatches)| == |rs|
    ensures forall r :: r in rs ==> (r in Filter(rs, HasMatches) <==> r !in Filter(rs, NoMatches))
  {
    if rs != [] {
      Partition(rs[1..]);
    }
  }

  /** A window's text as the formatter reads it: `match["lines"][match["match_line"] - match["start"]][1]`. */
  predicate Readable(w: Window)
  {
    0 <= w.matchLine - w.start < |w.lines|
  }

  predicate BlockReadable(r: FileResult)
  {
    forall j :: 0 <= j < |r.matches| ==> Readable(r.matches[j])
  }

  predicate AllReadable(rs: seq<FileResult>)
  {
    forall k :: 0 <= k < |rs| ==> BlockReadable(rs[k])
  }

  function MatchText(w: Window): string
    requires Readable(w)
  {
    w.lines[w.matchLine - w.start].1
  }

  /** `match` for one, `matches` otherwise. */
  function MatchWord(n: nat): (r: string)
    ensures r == "match" <==> n == 1
  {
    "match" + (if n != 1 then "es" else "")
  }

  function FileHeading(r: FileResult): string
  {
    "--- " + r.path + " (" + NatToString(|r.matches|) + " " + MatchWord(|r.matches|) + ") ---"
  }

  function MatchOut(w: Window): string
    requires Readable(w)
  {
    ">  " + PadLeft(NatToString(w.matchLine + 1), 6) + ": " + MatchText(w)
  }

  function MatchOuts(ms: seq<Window>): (r: seq<string>)
    requires forall j :: 0 <= j < |ms| ==> Readable(ms[j])
    ensures |r| == |ms| && forall j :: 0 <= j < |ms| ==> r[j] == MatchOut(ms[j])
  {
    seq(|ms|, j requires 0 <= j < |ms| => MatchOut(ms[j]))
  }

  /** The lines for one file with matches: its heading, one line per match, a blank line. */
  function FileBlock(r: FileResult): seq<string>
    requires BlockReadable(r)
  {
    [FileHeading(r)] + MatchOuts(r.matches) + [""]
  }

  function MatchBlocks(rs: seq<FileResult>): seq<string>
    requires AllReadable(rs)
  {
    Concatenated(rs, FileBlock)
  }

  function ScopeHeader(pattern: string, filePattern: string, basePath: string): string
  {
    "Search: \"" + pattern + "\" in " + filePattern + " (scope: " + Scope(basePath) + ")"
  }

  function SearchedLine(searched: nat, totalMatching: nat, maxFiles: int): string
  {
    "Files searched: " + NatToString(searched) + "/" + NatToString(totalMatching)
      + " matching files (max_files=" + IntToString(maxFiles) + ")\n"
  }

  const TruncatedWarning: seq<string> := [
    "WARNING: Repository tree was truncated by GitHub API. File list may be incomplete.",
    "Use the 'path' parameter to narrow scope for complete results.\n"]

  function RepoHead(rs: seq<FileResult>, pattern: string, filePattern: string, basePath: string,
                    totalMatching: nat, maxFiles: int, truncated: bool): seq<string>
  {
    [ScopeHeader(pattern, filePattern, basePath), SearchedLine(|rs|, totalMatching, maxFiles)]
      + (if truncated then TruncatedWarning else [])
  }

  /** What follows the head: the no-match answer, or the blocks and then the list of files without matches. */
  function RepoBody(rs: seq<FileResult>): seq<string>
    requires AllReadable(rs)
  {
    var with := Filter(rs, HasMatches);
    var without := Filter(rs, NoMatches);
    FilterReadable(rs);
    if with == [] then ["No matches found in any file."]
    else MatchBlocks(with) + NoMatchNote(without)
  }

  /** The line naming the files without matches, when there are any. */
  function NoMatchNote(without: seq<FileResult>): seq<string>
  {
    if without != [] then ["No matches: " + Join(Paths(without), ", ")] else []
  }

  lemma FilterReadable(rs: seq<FileResult>)
    requires AllReadable(rs)
    ensures AllReadable(Filter(rs, HasMatches))
  {
    var with := Filter(rs, HasMatches);
    forall k | 0 <= k < |with| ensures BlockReadable(with[k]) {
      assert with[k] in rs;
      var i :| 0 <= i < |rs| && rs[i] == with[k];
    }
  }

  /** The lines `format_grep_repo_results` joins with newlines. */
  function RepoReport(rs: seq<FileResult>, pattern: string, filePattern: string, basePath: string,
                      totalMatching: nat, maxFiles: int, truncated: bool): seq<string>
    requires AllReadable(rs)
  {
    RepoHead(rs, pattern, filePattern, basePath, totalMatching, maxFiles, truncated) + RepoBody(rs)
  }

  /**
   * Without a file with matches only `No matches found in any file.` follows the
   * head; otherwise the blocks of the files with matches come first, then, if any
   * file had none, one line naming them all.
   */
  lemma RepoBodyShape(rs: seq<FileResult>)
    requires AllReadable(rs)
    ensures var body := RepoBody(rs);
      && ((forall k :: 0 <= k < |rs| ==> rs[k].matches == []) <==> body == ["No matches found in any file."])
      && (Filter(rs, HasMatches) != [] ==>
            (FilterReadable(rs);
             var blocks := MatchBlocks(Filter(rs, HasMatches));
             && |blocks| <= |body| && body[..|blocks|] == blocks
             && (Filter(rs, NoMatches) == [] ==> body == blocks)
             && (Filter(rs, NoMatches) != [] ==>
                   body == blocks + ["No matches: " + Join(Paths(Filter(rs, NoMatches)), ", ")])))
  {
    FilterReadable(rs);
    var with := Filter(rs, HasMatches);
    if with != [] {
      BlocksOpen(with);
      assert "No matches found in any file."[0] == 'N';
      assert with[0] in with;
      var k :| 0 <= k < |rs| && rs[k] == with[0];
    } else {
      forall k | 0 <= k < |rs| ensures rs[k].matches == [] {
        assert rs[k] in rs;
      }
    }
  }

  /** The first line of the blocks is the first file's heading, which starts with `-`. */
  lemma BlocksOpen(with: seq<FileResult>)
    requires with != [] && AllReadable(with)
    ensures MatchBlocks(with) != [] && MatchBlocks(with)[0] != [] && MatchBlocks(with)[0][0] == '-'
  {
    ConcatenatedStarts(with, FileBlock);
    assert FileBlock(with[0])[0] == FileHeading(with[0]);
    HeadingStarts(with[0]);
  }

  lemma HeadingStarts(r: FileResult)
    ensures FileHeading(r) != [] && FileHeading(r)[0] == '-'
  {
  }

  /** One `>  <line>: <text>` line per match: the inner loop of the formatter. */
  method AppendMatchOuts(lines: seq<string>, ms: seq<Window>) returns (out: seq<string>)
    requires forall j :: 0 <= j < |ms| ==> Readable(ms[j])
    ensures out == lines + MatchOuts(ms)
  {
    out := lines;
    var j := 0;
    ghost var all := MatchOuts(ms);
    while j < |ms|
      invariant 0 <= j <= |ms|
      invariant out == lines + all[..j]
    {
      var m := ms[j];
      var lineNum := m.matchLine + 1;
      var lineText := m.lines[m.matchLine - m.start].1;
      assert ">  " + PadLeft(NatToString(lineNum), 6) + ": " + lineText == all[j];
      assert all[..j + 1] == all[..j] + [all[j]];
      out := out + [">  " + PadLeft(NatToString(lineNum), 6) + ": " + lineText];
      j := j + 1;
    }
    assert all[..j] == all;
  }

  /** The lines for one file with matches. */
  method AppendFileBlock(lines: seq<string>, result: FileResult) returns (out: seq<string>)
    requires BlockReadable(result)
    ensures out == lines + FileBlock(result)
  {
    out := lines + [FileHeading(result)];
    out := AppendMatchOuts(out, result.matches);
    out := out + [""];
  }

  lemma FileBlocksStep(output: seq<string>, with: seq<FileResult>, i: nat)
    requires AllReadable(with) && i < |with|
    ensures AllReadable(with[..i]) && AllReadable(with[..i + 1]) && BlockReadable(with[i])
    ensures (output + MatchBlocks(with[..i])) + FileBlock(with[i]) == output + MatchBlocks(with[..i + 1])
  {
    ReadableIsDefined(with);
    ConcatenatedSnoc(with, i, FileBlock);
    ReadableIsDefined(with[..i]);
    ReadableIsDefined(with[..i + 1]);
  }

  lemma ReadableIsDefined(rs: seq<FileResult>)
    ensures AllReadable(rs) <==> Defined(rs, FileBlock)
  {
  }

  /** The blocks of the files with matches: the outer loop of the formatter. */
  method AppendFileBlocks(output: seq<string>, with: seq<FileResult>) returns (out: seq<string>)
    requires AllReadable(with)
    ensures out == output + MatchBlocks(with)
  {
    out := output;
    var i := 0;
    assert with[..0] == [];
    while i < |with|
      invariant 0 <= i <= |with|
      invariant AllReadable(with[..i])
      invariant out == output + MatchBlocks(with[..i])
    {
      FileBlocksStep(output, with, i);
      out := AppendFileBlock(out, with[i]);
      i := i + 1;
    }
    assert with[..i] == with;
  }

  /** What the formatter appends after the head, with the early return for no matching file. */
  method AppendBody(output: seq<string>, results: seq<FileResult>) returns (out: seq<string>)
    requires AllReadable(results)
    ensures out == output + RepoBody(results)
  {
    var filesWithMatches := Filter(results, HasMatches);
    var filesWithoutMatches := Filter(results, NoMatches);
    if filesWithMatches == [] {
      return output + ["No matches found in any file."];
    }
    FilterReadable(results);
    out := AppendFileBlocks(output, filesWithMatches);
    var note := [];
    if filesWithoutMatches != [] {
      var noMatchPaths := Paths(filesWithoutMatches);
      note := ["No matches: " + Join(noMatchPaths, ", ")];
    }
    assert note == NoMatchNote(filesWithoutMatches);
    assert RepoBody(results) == MatchBlocks(filesWithMatches) + note;
    out := out + note;
  }

  /** `format_grep_repo_results`. */
  method FormatGrepRepoResults(results: seq<FileResult>, pattern: string, filePattern: string, basePath: string,
                               totalMatching: nat, maxFiles: int, truncated: bool)
    returns (text: string)
    requires AllReadable(results)
    ensures text == Join(RepoReport(results, pattern, filePattern, basePath, totalMatching, maxFiles, truncated), "\n")
  {
    var output := [ScopeHeader(pattern, filePattern, basePath), SearchedLine(|results|, totalMatching, maxFiles)];
    if truncated {
      output := output + TruncatedWarning;
    }
    assert output == RepoHead(results, pattern, filePattern, basePath, totalMatching, maxFiles, truncated);
    output := AppendBody(output, results);
    text := Join(output, "\n");
  }

  /** The results of `grep_matching_files` can always be formatted. */
  lemma ResultsReadable(files: seq<TreeEntry>, basePath: string, fetch: map<string, FetchResponse>, re: Regex, pattern: string)
    requires GrepFiles(files, basePath, fetch, re, pattern).Ok?
    ensures AllReadable(GrepFiles(files, basePath, fetch, re, pattern).value)
  {
    GrepFilesMatches(files, basePath, fetch, re, pattern);
    var rs := GrepFiles(files, basePath, fetch, re, pattern).value;
    forall k | 0 <= k < |rs| ensures BlockReadable(rs[k]) {
      assert OneLineMatches(rs[k]);
    }
  }

  /**
   * `grep_repo_workflow` after the tree fetch: the candidates, the first
   * `max_files` of them grepped, and the report with the full candidate count.
   */
  method GrepRepoWorkflow(raw: RawTree, pattern: string, filePattern: string, basePath: string, maxFiles: int,
                          fetch: map<string, FetchResponse>, re: Regex)
    returns (r: Result<string, string>)
    ensures var g := GrepFiles(SelectFiles(raw.entries, filePattern, maxFiles), basePath, fetch, re, pattern);
      && (r.Err? <==> g.Err?)
      && (r.Ok? ==> AllReadable(g.value) && r.value == Join(RepoReport(g.value, pattern, filePattern, basePath,
            |FilterByPattern(raw.entries, filePattern)|, maxFiles, raw.truncated), "\n"))
  {
    var truncated := raw.truncated;
    var matchingFiles := FilterByPattern(raw.entries, filePattern);
    var files := Take(matchingFiles, maxFiles);
    var results := GrepMatchingFiles(files, basePath, fetch, re, pattern);
    if results.Err? {
      return Err(results.error);
    }
    ResultsReadable(files, basePath, fetch, re, pattern);
    var text := FormatGrepRepoResults(results.value, pattern, filePattern, basePath, |matchingFiles|, maxFiles, truncated);
    r := Ok(text);
  }
}
