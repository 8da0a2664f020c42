/**
 * The repository tree tool (src/github/get_repo_tree.py): the directory listing
 * with its depth filter, root-first ordering, 50-per-kind display cap, local size
 * warning and server truncation warning; the glob search over the same tree with
 * its truncation warning; and the choice between the two.
 */
module RepoTree {
  import opened Wrappers
  import opened Seqs
  import opened Text
  import opened StableSort
  import opened GitTree
  import opened RepoFiles

  const MaxTreeChars: nat := 1000
  /** The literal cap on the directories and on the files rendered. */
  const ShownPerKind: nat := 50

  const WarningTag := "WARNING: "

  const TreeTruncated := WarningTag + "Repository tree was truncated by GitHub API. Results may be incomplete."

  const UseTag := "Use "

  const ServerWarning: seq<string> := [
    TreeTruncated,
    UseTag + "'path' parameter to browse specific subdirectories or 'depth=1' for shallow listing.\n"]

  const LocalWarning: seq<string> := [
    WarningTag + "Output truncated (>1000 chars). Showing top 50 directories and 50 files.",
    "Use 'path' parameter or 'depth=1' to narrow results.\n"]

  const PatternWarning: seq<string> := [
    TreeTruncated,
    "Use the 'path' parameter to search within a specific directory for complete results.\n"]

  /** The depth filter: with a positive depth, the entries with fewer than `depth` separators. */
  function WithinDepth(entries: seq<TreeEntry>, depth: int): (r: seq<TreeEntry>)
    ensures IsSubseq(r, entries)
    ensures forall e :: e in r <==> e in entries && (depth <= 0 || Depth(e.path) < depth)
    ensures depth <= 0 ==> r == entries
  {
    if depth > 0 then ShallowerThan(entries, depth) else (SubseqOfSelf(entries); entries)
  }

  /** `[item for item in tree_items if item["path"].count("/") < depth]`. */
  function ShallowerThan(entries: seq<TreeEntry>, depth: int): seq<TreeEntry>
  {
    Filter(entries, (e: TreeEntry) => Depth(e.path) < depth)
  }

  function OfKind(entries: seq<TreeEntry>, k: Kind): seq<TreeEntry>
  {
    Filter(entries, (e: TreeEntry) => e.kind == k)
  }

  /** `sorted([...], key=lambda item: item["path"].count("/"))` for one kind. */
  function Sorted(entries: seq<TreeEntry>, depth: int, k: Kind): seq<TreeEntry>
  {
    SortBy(OfKind(WithinDepth(entries, depth), k), EntryDepth)
  }

  /**
   * Each list holds exactly the entries of its kind within the depth, shallowest
   * first, and entries of equal depth keep their listing order.
   */
  lemma SortedListing(entries: seq<TreeEntry>, depth: int, k: Kind)
    ensures var xs := Sorted(entries, depth, k);
      && SortedBy(xs, EntryDepth)
      && multiset(xs) == multiset(OfKind(WithinDepth(entries, depth), k))
      && (forall e :: e in xs <==> e in entries && e.kind == k && (depth <= 0 || Depth(e.path) < depth))
      && forall d :: WithKey(xs, EntryDepth, d) == WithKey(OfKind(WithinDepth(entries, depth), k), EntryDepth, d)
  {
    var kept := OfKind(WithinDepth(entries, depth), k);
    SortByOrdered(kept, EntryDepth);
    forall d ensures WithKey(SortBy(kept, EntryDepth), EntryDepth, d) == WithKey(kept, EntryDepth, d) {
      SortByStable(kept, EntryDepth, d);
    }
    forall e ensures e in SortBy(kept, EntryDepth) <==> e in kept {
      assert e in SortBy(kept, EntryDepth) <==> e in multiset(SortBy(kept, EntryDepth));
    }
  }

  /** Directories and files are disjoint, and an entry of any other kind is in neither. */
  lemma KindsSeparate(entries: seq<TreeEntry>, depth: int, e: TreeEntry)
    ensures !(e in Sorted(entries, depth, Tree) && e in Sorted(entries, depth, Blob))
    ensures e.kind.OtherKind? ==> e !in Sorted(entries, depth, Tree) && e !in Sorted(entries, depth, Blob)
  {
    SortedListing(entries, depth, Tree);
    SortedListing(entries, depth, Blob);
  }

  function DirLine(e: TreeEntry): string
  {
    "  " + e.path + "/"
  }

  function DirLines(ms: seq<TreeEntry>): (r: seq<string>)
    ensures |r| == |ms| && forall k :: 0 <= k < |ms| ==> r[k] == DirLine(ms[k])
  {
    seq(|ms|, k requires 0 <= k < |ms| => DirLine(ms[k]))
  }

  function DirsCountLine(n: nat): string
  {
    "Directories (" + NatToString(n) + "):"
  }

  function FilesCountLine(n: nat): string
  {
    "\nFiles (" + NatToString(n) + "):"
  }

  /** `content_lines`: both counts are of the full lists, the lines of at most 50 of each. */
  function ContentLines(dirs: seq<TreeEntry>, files: seq<TreeEntry>): seq<string>
  {
    [DirsCountLine(|dirs|)] + DirLines(Take(dirs, ShownPerKind))
      + [FilesCountLine(|files|)] + MatchLines(Take(files, ShownPerKind))
  }

  function DirectoryHeader(basePath: string): string
  {
    "Directory: " + Scope(basePath) + "\n"
  }

  /** The lines `format_tree_response` joins with newlines. */
  function TreeReport(raw: RawTree, basePath: string, depth: int): seq<string>
  {
    [DirectoryHeader(basePath)] + (if raw.truncated then ServerWarning else []) + ReportTail(raw, depth)
  }

  /** `format_tree_response`. */
  method FormatTreeResponse(raw: RawTree, basePath: string, depth: int) returns (out: string)
    ensures out == Join(TreeReport(raw, basePath, depth), "\n")
  {
    var lines := [DirectoryHeader(basePath)];
    if raw.truncated {
      lines := lines + ServerWarning;
    }
    var tail := RenderTail(raw, depth);
    lines := lines + tail;
    out := Join(lines, "\n");
  }

  /** What follows the warnings: the early `Empty directory.` return, or the filtered, sorted content. */
  method RenderTail(raw: RawTree, depth: int) returns (tail: seq<string>)
    ensures tail == ReportTail(raw, depth)
  {
    var items := raw.entries;
    if items == [] {
      return ["Empty directory."];
    }
    if depth > 0 {
      items := ShallowerThan(items, depth);
    }
    assert items == WithinDepth(raw.entries, depth);
    var dirs := SortBy(OfKind(items, Tree), EntryDepth);
    var files := SortBy(OfKind(items, Blob), EntryDepth);
    var content := RenderContent(dirs, files);
    tail := [];
    if |Join(content, "\n")| > MaxTreeChars {
      tail := LocalWarning;
    }
    tail := tail + content;
  }

  /** The two loops of `format_tree_response` that fill `content_lines`. */
  method RenderContent(dirs: seq<TreeEntry>, files: seq<TreeEntry>) returns (content: seq<string>)
    ensures content == ContentLines(dirs, files)
  {
    content := [DirsCountLine(|dirs|)];
    var shownDirs := Take(dirs, ShownPerKind);
    var i := 0;
    while i < |shownDirs|
      invariant 0 <= i <= |shownDirs|
      invariant |content| == 1 + i && content[0] == DirsCountLine(|dirs|)
      invariant forall k :: 0 <= k < i ==> content[1 + k] == DirLine(shownDirs[k])
    {
      content := content + [DirLine(shownDirs[i])];
      i := i + 1;
    }
    assert content == [DirsCountLine(|dirs|)] + DirLines(shownDirs);

    content := content + [FilesCountLine(|files|)];
    content := AppendMatchLines(content, Take(files, ShownPerKind));
  }

  /** Every content line starts with `D`, a space or a newline, so none is a warning. */
  predicate IsContentLine(l: string)
  {
    |l| > 0 && (l[0] == 'D' || l[0] == ' ' || l[0] == '\n')
  }

  lemma ContentLinesShape(dirs: seq<TreeEntry>, files: seq<TreeEntry>)
    ensures var c := ContentLines(dirs, files);
      && |c| == 2 + Min(ShownPerKind, |dirs|) + Min(ShownPerKind, |files|)
      && c[0] == "Directories (" + NatToString(|dirs|) + "):"
      && c[1 + Min(ShownPerKind, |dirs|)] == "\nFiles (" + NatToString(|files|) + "):"
      && forall k :: 0 <= k < |c| ==> IsContentLine(c[k])
  {
    var c := ContentLines(dirs, files);
    var nd := |Take(dirs, ShownPerKind)|;
    forall k | 0 <= k < |c| ensures IsContentLine(c[k]) {
      if k == 0 {
        assert c[k] == "Directories (" + NatToString(|dirs|) + "):";
      } else if k < 1 + nd {
        assert c[k] == "  " + Take(dirs, ShownPerKind)[k - 1].path + "/";
      } else if k == 1 + nd {
        assert c[k] == "\nFiles (" + NatToString(|files|) + "):";
      } else {
        var e := Take(files, ShownPerKind)[k - 2 - nd];
        assert c[k] == "  " + e.path + " (" + Grouped(SizeOrZero(e)) + " bytes)";
      }
    }
  }

  /** The first characters that tell the report's lines apart. */
  lemma LineTags(basePath: string)
    ensures ServerWarning[0][0] == 'W' && LocalWarning[0][0] == 'W' && ServerWarning[0] != LocalWarning[0]
    ensures "Empty directory." !in ServerWarning + LocalWarning
    ensures "Empty directory."[0] == 'E' && DirectoryHeader(basePath)[0] == 'D'
  {
  }

  /** The lines after the header and the server warning: the empty message, or the content under an optional size warning. */
  function ReportTail(raw: RawTree, depth: int): seq<string>
  {
    if raw.entries == [] then ["Empty directory."]
    else
      var content := ContentLines(Sorted(raw.entries, depth, Tree), Sorted(raw.entries, depth, Blob));
      (if |Join(content, "\n")| > MaxTreeChars then LocalWarning else []) + content
  }

  /** After the server warning come only the size warning, content lines, or the empty message. */
  lemma TailTags(raw: RawTree, depth: int)
    ensures forall k :: 0 <= k < |ReportTail(raw, depth)| ==>
      var l := ReportTail(raw, depth)[k];
      l in LocalWarning || IsContentLine(l) || l == "Empty directory."
  {
    LineTags("");
    if raw.entries != [] {
      var dirs := Sorted(raw.entries, depth, Tree);
      var files := Sorted(raw.entries, depth, Blob);
      ContentLinesShape(dirs, files);
    }
  }

  /** The server warning is shown exactly when the listing came back truncated, whatever its size. */
  lemma ServerWarningIff(raw: RawTree, basePath: string, depth: int)
    ensures ServerWarning[0] in TreeReport(raw, basePath, depth) <==> raw.truncated
  {
    TailTags(raw, depth);
    WarningNotAmong(DirectoryHeader(basePath), ReportTail(raw, depth));
  }

  lemma WarningNotAmong(header: string, tail: seq<string>)
    requires header != [] && header[0] == 'D'
    requires forall k :: 0 <= k < |tail| ==>
      tail[k] in LocalWarning || IsContentLine(tail[k]) || tail[k] == "Empty directory."
    ensures ServerWarning[0] !in [header] + tail
  {
    LineTags("");
    var w := ServerWarning[0];
    assert w != LocalWarning[1];
    forall k | 0 <= k < |tail| ensures tail[k] != w {
      if IsContentLine(tail[k]) {
        assert tail[k][0] != w[0];
      }
    }
  }

  /**
   * The size warning is shown exactly when the joined content is over 1000
   * characters, and the content follows the warnings uncut either way.
   */
  lemma LocalWarningIff(raw: RawTree, basePath: string, depth: int)
    requires raw.entries != []
    ensures var content := ContentLines(Sorted(raw.entries, depth, Tree), Sorted(raw.entries, depth, Blob));
      var r := TreeReport(raw, basePath, depth);
      && (LocalWarning[0] in r <==> |Join(content, "\n")| > MaxTreeChars)
      && |content| <= |r| && r[|r| - |content|..] == content
  {
    var content := ContentLines(Sorted(raw.entries, depth, Tree), Sorted(raw.entries, depth, Blob));
    HeadWithoutLocalWarning(basePath, raw.truncated);
    ContentLinesShape(Sorted(raw.entries, depth, Tree), Sorted(raw.entries, depth, Blob));
    NotContentLine(LocalWarning[0], content);
    WarningPlacement([DirectoryHeader(basePath)] + (if raw.truncated then ServerWarning else []),
                     |Join(content, "\n")| > MaxTreeChars, content);
  }

  lemma HeadWithoutLocalWarning(basePath: string, truncated: bool)
    ensures LocalWarning[0] !in [DirectoryHeader(basePath)] + (if truncated then ServerWarning else [])
  {
    LineTags(basePath);
    assert UseTag[0] == 'U' && ServerWarning[1][0] == 'U';
  }

  /** The size warning sits between a head and the content that do not hold it. */
  lemma WarningPlacement(head: seq<string>, big: bool, content: seq<string>)
    requires LocalWarning[0] !in head && LocalWarning[0] !in content
    ensures var r := head + ((if big then LocalWarning else []) + content);
      && (LocalWarning[0] in r <==> big)
      && |content| <= |r| && r[|r| - |content|..] == content
  {
    var warn := if big then LocalWarning else [];
    var r := head + (warn + content);
    InConcat(head, warn + content, LocalWarning[0]);
    InConcat(warn, content, LocalWarning[0]);
    assert r[|r| - |content|..] == content;
  }

  /** A line starting with `W` is not among lines that are all content lines. */
  lemma NotContentLine(l: string, c: seq<string>)
    requires l != [] && l[0] == 'W'
    requires forall k :: 0 <= k < |c| ==> IsContentLine(c[k])
    ensures l !in c
  {
    forall k | 0 <= k < |c| ensures c[k] != l {
      assert c[k][0] != 'W';
    }
  }

  lemma InConcat(a: seq<string>, b: seq<string>, x: string)
    ensures x in a + b <==> x in a || x in b
  {
  }

  /** `Empty directory.` is the answer exactly for an empty listing. */
  lemma EmptyDirectoryIff(raw: RawTree, basePath: string, depth: int)
    ensures "Empty directory." in TreeReport(raw, basePath, depth) <==> raw.entries == []
  {
    var head := [DirectoryHeader(basePath)] + (if raw.truncated then ServerWarning else []);
    LineTags(basePath);
    assert "Empty directory." !in head;
    TailEmptyMessage(raw, depth);
    InConcat(head, ReportTail(raw, depth), "Empty directory.");
  }

  lemma TailEmptyMessage(raw: RawTree, depth: int)
    ensures "Empty directory." in ReportTail(raw, depth) <==> raw.entries == []
  {
    if raw.entries != [] {
      var m := "Empty directory.";
      LineTags("");
      assert m[0] == 'E';
      var content := ContentLines(Sorted(raw.entries, depth, Tree), Sorted(raw.entries, depth, Blob));
      ContentLinesShape(Sorted(raw.entries, depth, Tree), Sorted(raw.entries, depth, Blob));
      forall k | 0 <= k < |content| ensures content[k] != m {
        assert IsContentLine(content[k]);
      }
      InConcat(if |Join(content, "\n")| > MaxTreeChars then LocalWarning else [], content, m);
    }
  }

  /**
   * The emptiness check comes before the depth filter: a listing whose entries are
   * all too deep shows two zero counts rather than `Empty directory.`.
   */
  lemma FilteredToNothing(raw: RawTree, basePath: string, depth: int)
    requires raw.entries != [] && depth > 0
    requires forall k :: 0 <= k < |raw.entries| ==> Depth(raw.entries[k].path) >= depth
    ensures "Directories (0):" in TreeReport(raw, basePath, depth)
    ensures "\nFiles (0):" in TreeReport(raw, basePath, depth)
    ensures "Empty directory." !in TreeReport(raw, basePath, depth)
  {
    var content := ContentLines(Sorted(raw.entries, depth, Tree), Sorted(raw.entries, depth, Blob));
    ZeroContent(raw, depth);
    assert ReportTail(raw, depth) == (if |Join(content, "\n")| > MaxTreeChars then LocalWarning else []) + content;
    assert content[0] in ReportTail(raw, depth) && content[1] in ReportTail(raw, depth);
    EmptyDirectoryIff(raw, basePath, depth);
  }

  /** With every entry too deep, both kinds are empty and only the two zero counts remain. */
  lemma ZeroContent(raw: RawTree, depth: int)
    requires depth > 0
    requires forall k :: 0 <= k < |raw.entries| ==> Depth(raw.entries[k].path) >= depth
    ensures ContentLines(Sorted(raw.entries, depth, Tree), Sorted(raw.entries, depth, Blob))
         == ["Directories (0):", "\nFiles (0):"]
  {
    var kept := WithinDepth(raw.entries, depth);
    assert kept == [];
    var dirs := Sorted(raw.entries, depth, Tree);
    var files := Sorted(raw.entries, depth, Blob);
    assert OfKind(kept, Tree) == [] && OfKind(kept, Blob) == [];
    assert dirs == [] && files == [];
    assert NatToString(0) == "0";
    assert DirsCountLine(0) == "Directories (0):" && FilesCountLine(0) == "\nFiles (0):";
    assert Take(dirs, ShownPerKind) == [] && Take(files, ShownPerKind) == [];
  }

  /** `format_matches` of this tool: the glob report with the server truncation warning. */
  function PatternReport(matches: seq<TreeEntry>, pattern: string, basePath: string, truncated: bool): seq<string>
  {
    [SearchHeader(pattern, basePath)]
      + (if truncated then PatternWarning else [])
      + MatchesBody(matches)
  }

  /** `format_matches(matches, pattern, base_path, truncated)`. */
  method FormatPatternMatches(matches: seq<TreeEntry>, pattern: string, basePath: string, truncated: bool)
    returns (out: string)
    ensures out == Join(PatternReport(matches, pattern, basePath, truncated), "\n")
  {
    var lines := [SearchHeader(pattern, basePath)];
    if truncated {
      lines := lines + PatternWarning;
    }
    var body := ["No files found."];
    if matches != [] {
      body := AppendMatchLines([CountLine(|matches|)], matches);
    }
    assert body == MatchesBody(matches);
    out := Join(lines + body, "\n");
  }

  /**
   * Without server truncation the report is the one of the file search tool; with
   * it the warning follows the search header and the rest is unchanged.
   */
  lemma PatternReportAgrees(matches: seq<TreeEntry>, pattern: string, basePath: string, truncated: bool)
    ensures var r := PatternReport(matches, pattern, basePath, truncated);
      var plain := MatchesReport(matches, pattern, basePath);
      && (!truncated ==> r == plain)
      && (truncated ==> r == plain[..1] + PatternWarning + plain[1..])
  {
    var head := [SearchHeader(pattern, basePath)];
    if truncated {
      SpliceAfterHead(SearchHeader(pattern, basePath), PatternWarning, MatchesBody(matches));
    } else {
      assert head + [] == head;
    }
  }

  /** What the contents endpoint says about a non-empty `path`. */
  datatype PathInfo = PathInfo(kind: string, sha: string)

  /** `get_tree_sha`: the branch's root tree for an empty path, else the path's own tree. */
  function TreeSha(path: string, rootTreeSha: string, info: PathInfo): (r: Result<string, string>)
    ensures path == "" ==> r == Ok(rootTreeSha)
    ensures path != "" ==> (r.Ok? <==> info.kind == "dir") && (r.Ok? ==> r.value == info.sha)
    ensures r.Err? ==> r.error == "Path '" + path + "' is not a directory"
  {
    if path == "" then Ok(rootTreeSha)
    else if info.kind == "dir" then Ok(info.sha)
    else Err("Path '" + path + "' is not a directory")
  }

  /** Which listing `get_repo_tree_workflow` asks for and how it renders it. */
  datatype TreeRequest = PatternSearch(pattern: string) | Listing(recursive: bool)

  function Plan(depth: int, pattern: string): (q: TreeRequest)
    ensures q.Listing? <==> pattern == ""
    ensures q.PatternSearch? ==> q.pattern == pattern
    ensures q.Listing? ==> (q.recursive <==> depth != 1)
  {
    if pattern != "" then PatternSearch(pattern) else Listing(depth != 1)
  }

  /**
   * `get_repo_tree_workflow`, the listing fetch given as `fetch(recursive)`: a glob
   * search over the recursive listing when a pattern is given, else the tree report.
   */
  function Workflow(path: string, depth: int, pattern: string, rootTreeSha: string, info: PathInfo,
                    fetch: (string, bool) -> RawTree): (r: Result<string, string>)
    ensures r.Err? <==> TreeSha(path, rootTreeSha, info).Err?
    ensures pattern != "" && r.Ok? ==>
      var raw := fetch(TreeSha(path, rootTreeSha, info).value, true);
      r.value == Join(PatternReport(FilterByPattern(raw.entries, pattern), pattern, path, raw.truncated), "\n")
    ensures pattern == "" && r.Ok? ==>
      r.value == Join(TreeReport(fetch(TreeSha(path, rootTreeSha, info).value, depth != 1), path, depth), "\n")
  {
    match TreeSha(path, rootTreeSha, info)
    case Err(e) => Err(e)
    case Ok(sha) =>
      match Plan(depth, pattern)
      case PatternSearch(p) =>
        var raw := fetch(sha, true);
        Ok(Join(PatternReport(FilterByPattern(raw.entries, p), p, path, raw.truncated), "\n"))
      case Listing(recursive) =>
        Ok(Join(TreeReport(fetch(sha, recursive), path, depth), "\n"))
  }
}
