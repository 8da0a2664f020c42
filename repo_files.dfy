/**
 * Glob search over a repository tree (src/github/search_repo_files.py): the blob
 * entries whose path or file name matches a glob pattern, capped at 50, and their
 * text listing. The repository grep takes its candidate files from here.
 */
module RepoFiles {
  import opened Wrappers
  import opened Seqs
  import opened Text
  import opened Glob
  import opened GitTree

  const ResultsLimit: nat := 50

  /** A pattern with a `/` is matched against the full path, any other against the file name. */
  predicate PatternMatches(path: string, pattern: string)
  {
    if '/' in pattern then FnMatch(path, pattern) else FnMatch(Basename(path), pattern)
  }

  predicate IsCandidate(e: TreeEntry, pattern: string)
  {
    e.kind == Blob && PatternMatches(e.path, pattern)
  }

  /** The blob entries the pattern matches, before the cap. */
  function Candidates(entries: seq<TreeEntry>, pattern: string): seq<TreeEntry>
  {
    Filter(entries, (e: TreeEntry) => IsCandidate(e, pattern))
  }

  /** `filter_by_pattern`: the first 50 candidates, in tree order. */
  function FilterByPattern(entries: seq<TreeEntry>, pattern: string): (r: seq<TreeEntry>)
    ensures |r| == Min(ResultsLimit, |Candidates(entries, pattern)|)
    ensures r == Candidates(entries, pattern)[..|r|]
    ensures IsSubseq(r, entries)
    ensures forall e :: e in r ==> e.kind == Blob && PatternMatches(e.path, pattern)
  {
    var all := Candidates(entries, pattern);
    var r := Take(all, ResultsLimit);
    TakeIsSubseq(all, ResultsLimit);
    SubseqTrans(r, all, entries);
    assert forall e :: e in r ==> e in all;
    r
  }

  /** Under the cap, nothing the pattern matches is dropped. */
  lemma FilterByPatternComplete(entries: seq<TreeEntry>, pattern: string, e: TreeEntry)
    requires e in entries && IsCandidate(e, pattern)
    requires |FilterByPattern(entries, pattern)| < ResultsLimit
    ensures e in FilterByPattern(entries, pattern)
  {
    var all := Candidates(entries, pattern);
    assert FilterByPattern(entries, pattern) == all;
  }

  /** A name without `/` is its own base name. */
  lemma BasenameOfName(name: string)
    requires '/' !in name
    ensures Basename(name) == name
  {
  }

  /** A file-name pattern ignores the directories: only the text after the last `/` is matched. */
  lemma NamePatternIgnoresDirectory(dir: string, name: string, pattern: string)
    requires '/' !in pattern && '/' !in name
    ensures PatternMatches(dir + "/" + name, pattern) <==> FnMatch(name, pattern)
  {
    var p := dir + "/" + name;
    var b := Basename(p);
    assert p[|p| - |name|..] == name;
    assert p[|p| - |name| - 1] == '/';
    assert forall k :: |p| - |name| <= k < |p| ==> p[k] == name[k - (|p| - |name|)];
    assert b == name;
  }

  /**
   * `*<ext>` without `/` selects a file by the end of its name wherever the file
   * lies, and a directory whose name ends that way does not select its contents.
   */
  lemma ExtensionPattern(dir: string, name: string, ext: string)
    requires Plain(ext) && '/' !in ext && '/' !in name
    ensures PatternMatches(dir + "/" + name, "*" + ext) <==> EndsWith(name, ext)
  {
    assert forall k :: 0 <= k < |"*" + ext| ==> ("*" + ext)[k] == '*' || ("*" + ext)[k] in ext;
    NamePatternIgnoresDirectory(dir, name, "*" + ext);
    StarSuffix(name, ext);
  }

  /** The same at the root of the searched tree. */
  lemma ExtensionPatternAtRoot(name: string, ext: string)
    requires Plain(ext) && '/' !in ext && '/' !in name
    ensures PatternMatches(name, "*" + ext) <==> EndsWith(name, ext)
  {
    assert forall k :: 0 <= k < |"*" + ext| ==> ("*" + ext)[k] == '*' || ("*" + ext)[k] in ext;
    BasenameOfName(name);
    StarSuffix(name, ext);
  }

  /** One listing line: `  <path> (<size> bytes)`, a missing size shown as 0. */
  function MatchLine(e: TreeEntry): string
  {
    "  " + e.path + " (" + Grouped(SizeOrZero(e)) + " bytes)"
  }

  function MatchLines(ms: seq<TreeEntry>): (r: seq<string>)
    ensures |r| == |ms| && forall k :: 0 <= k < |ms| ==> r[k] == MatchLine(ms[k])
  {
    seq(|ms|, k requires 0 <= k < |ms| => MatchLine(ms[k]))
  }

  function SearchHeader(pattern: string, basePath: string): string
  {
    "Search: \"" + pattern + "\" in " + Scope(basePath) + "\n"
  }

  function CountLine(n: nat): string
  {
    "Matches (" + NatToString(n) + "):"
  }

  /** Everything after the search header: the no-match message, or the count and the listing. */
  function MatchesBody(matches: seq<TreeEntry>): (r: seq<string>)
    ensures matches == [] ==> r == ["No files found."]
    ensures matches != [] ==> |r| == |matches| + 1 && r[0] == CountLine(|matches|)
    ensures forall k :: 0 <= k < |matches| ==> r[k + 1] == MatchLine(matches[k])
  {
    if matches == [] then ["No files found."] else [CountLine(|matches|)] + MatchLines(matches)
  }

  /** The lines `format_matches` joins with newlines. */
  function MatchesReport(matches: seq<TreeEntry>, pattern: string, basePath: string): seq<string>
  {
    [SearchHeader(pattern, basePath)] + MatchesBody(matches)
  }

  /** No matches gives the `No files found.` message; otherwise every match has its line. */
  lemma MatchesReportListsMatches(matches: seq<TreeEntry>, pattern: string, basePath: string)
    ensures matches == [] ==> Contains(Join(MatchesReport(matches, pattern, basePath), "\n"), "No files found.")
    ensures forall k :: 0 <= k < |matches| ==>
      Contains(Join(MatchesReport(matches, pattern, basePath), "\n"), "  " + matches[k].path + " (")
  {
    if matches == [] {
      JoinContainsPart(MatchesReport(matches, pattern, basePath), "\n", 1);
    }
    forall k | 0 <= k < |matches|
      ensures Contains(Join(MatchesReport(matches, pattern, basePath), "\n"), "  " + matches[k].path + " (")
    {
      MatchListed(matches, pattern, basePath, k);
    }
  }

  lemma MatchListed(matches: seq<TreeEntry>, pattern: string, basePath: string, k: nat)
    requires k < |matches|
    ensures Contains(Join(MatchesReport(matches, pattern, basePath), "\n"), "  " + matches[k].path + " (")
  {
    var r := MatchesReport(matches, pattern, basePath);
    var e := matches[k];
    assert r[k + 2] == MatchLine(e);
    MatchLineStarts(e);
    JoinContainsPart(r, "\n", k + 2);
    ContainsTrans(Join(r, "\n"), r[k + 2], "  " + e.path + " (");
  }

  lemma MatchLineStarts(e: TreeEntry)
    ensures Contains(MatchLine(e), "  " + e.path + " (")
  {
    var left := "  " + e.path + " (";
    assert MatchLine(e) == left + (Grouped(SizeOrZero(e)) + " bytes)");
    ContainsInLeft(left, Grouped(SizeOrZero(e)) + " bytes)", left);
  }

  /** The `for item in matches` loop of `format_matches`: one listing line per match, in order. */
  method AppendMatchLines(lines: seq<string>, matches: seq<TreeEntry>) returns (out: seq<string>)
    ensures out == lines + MatchLines(matches)
  {
    out := lines;
    var i := 0;
    while i < |matches|
      invariant 0 <= i <= |matches|
      invariant |out| == |lines| + i && out[..|lines|] == lines
      invariant forall k :: 0 <= k < i ==> out[|lines| + k] == MatchLine(matches[k])
    {
      out := out + [MatchLine(matches[i])];
      i := i + 1;
    }
    assert out == lines + MatchLines(matches);
  }

  /** `format_matches`. */
  method FormatMatches(matches: seq<TreeEntry>, pattern: string, basePath: string) returns (out: string)
    ensures out == Join(MatchesReport(matches, pattern, basePath), "\n")
  {
    var body := ["No files found."];
    if matches != [] {
      body := AppendMatchLines([CountLine(|matches|)], matches);
    }
    assert body == MatchesBody(matches);
    out := Join([SearchHeader(pattern, basePath)] + body, "\n");
  }
}
