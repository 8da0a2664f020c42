/**
 * Grep inside one repository file (src/github/grep_file.py): the indices of the
 * lines a regular expression matches, the first `max_matches` of them, each with
 * a window of context lines clamped to the file, and the text report.
 *
 * Python's regular expressions are not modelled: a pattern is used only through
 * a `Regex` value saying whether `re.compile` accepts it and whether `search`
 * finds it in a line.
 */
module GrepFile {
  import opened Wrappers
  import opened Seqs
  import opened Text


  /** What the contents endpoint returns for a path: a file's decoded text, or a directory listing. */
  datatype FetchResponse = File(content: string) | Dir

  datatype Regex = Regex(compiles: string -> bool, search: (string, string) -> bool)

  /** One entry of `search_lines`' result: a match and the numbered lines around it. */
  datatype Window = Window(matchLine: nat, start: int, end: int, lines: seq<(nat, string)>)

  /** `[i for i, line in enumerate(lines) if compiled.search(line)]`, from index `from` on. */
  function MatchesFrom(lines: seq<string>, re: Regex, pattern: string, from: nat): (r: seq<nat>)
    requires from <= |lines|
    ensures forall j :: 0 <= j < |r| ==> from <= r[j] < |lines| && re.search(pattern, lines[r[j]])
    ensures forall j, k :: 0 <= j < k < |r| ==> r[j] < r[k]
    ensures forall i :: from <= i < |lines| && re.search(pattern, lines[i]) ==> i in r
    decreases |lines| - from
  {
    if from == |lines| then []
    else if re.search(pattern, lines[from]) then [from] + MatchesFrom(lines, re, pattern, from + 1)
    else MatchesFrom(lines, re, pattern, from + 1)
  }

  function MatchIndices(lines: seq<string>, re: Regex, pattern: string): seq<nat>
  {
    MatchesFrom(lines, re, pattern, 0)
  }

  /**
   * The window around line `idx`: `[max(0, idx - c), min(n, idx + c + 1))`, with each
   * line's index; for a context that is not negative it lies inside the file and holds the match.
   */
  function WindowAt(lines: seq<string>, idx: nat, c: int): (w: Window)
    requires idx < |lines|
    ensures w.matchLine == idx
    ensures w.start == Max(0, idx - c) && w.end == Min(|lines|, idx + c + 1)
    ensures c >= 0 ==> 0 <= w.start <= idx < w.end <= |lines|
    ensures |w.lines| == Max(0, w.end - w.start)
    ensures forall t :: 0 <= t < |w.lines| ==> 0 <= w.start + t < |lines| && w.lines[t] == (w.start + t, lines[w.start + t])
  {
    var start := Max(0, idx - c);
    var end := Min(|lines|, idx + c + 1);
    Window(idx, start, end, Numbered(lines, start, end))
  }

  /** `[(i, lines[i]) for i in range(start, end)]`. */
  function Numbered(lines: seq<string>, start: nat, end: int): seq<(nat, string)>
    requires end <= |lines|
  {
    if start < end then seq(end - start, j requires 0 <= j < end - start => (start + j, lines[start + j]))
    else []
  }

  /**
   * `search_lines`; a pattern `re.compile` rejects raises before any line is read.
   * The windows stand for exactly the first `max_matches` matching lines, in
   * increasing order, so at most `max_matches` of them when that is not negative;
   * each is the window around its match line.
   */
  function Search(lines: seq<string>, re: Regex, pattern: string, c: int, maxMatches: int): (r: Result<seq<Window>, string>)
    ensures r.Err? <==> !re.compiles(pattern)
    ensures r.Ok? ==>
      var ws := r.value;
      && |ws| <= |MatchIndices(lines, re, pattern)|
      && (maxMatches >= 0 ==> |ws| == Min(maxMatches, |MatchIndices(lines, re, pattern)|))
      && (forall k :: 0 <= k < |ws| ==> ws[k].matchLine == MatchIndices(lines, re, pattern)[k])
      && (forall j, k :: 0 <= j < k < |ws| ==> ws[j].matchLine < ws[k].matchLine)
      && (forall k :: 0 <= k < |ws| ==>
            && ws[k].matchLine < |lines| && re.search(pattern, lines[ws[k].matchLine])
            && ws[k] == WindowAt(lines, ws[k].matchLine, c))
  {
    if !re.compiles(pattern) then Err("invalid regular expression: " + pattern)
    else
      Ok(WindowsAt(lines, Take(MatchIndices(lines, re, pattern), maxMatches), c))
  }

  /** The window around each of the line indices `shown`. */
  function WindowsAt(lines: seq<string>, shown: seq<nat>, c: int): (ws: seq<Window>)
    requires forall k :: 0 <= k < |shown| ==> shown[k] < |lines|
    ensures |ws| == |shown| && forall k :: 0 <= k < |shown| ==> ws[k] == WindowAt(lines, shown[k], c)
  {
    seq(|shown|, k requires 0 <= k < |shown| => WindowAt(lines, shown[k], c))
  }

  /** `search_lines(lines, pattern, context_lines, max_matches)`. */
  method SearchLines(lines: seq<string>, re: Regex, pattern: string, c: int, maxMatches: int)
    returns (r: Result<seq<Window>, string>)
    ensures r == Search(lines, re, pattern, c, maxMatches)
  {
    if !re.compiles(pattern) {
      return Err("invalid regular expression: " + pattern);
    }
    var matchIndices := MatchIndices(lines, re, pattern);
    if matchIndices == [] {
      assert Take(matchIndices, maxMatches) == [];
      assert WindowsAt(lines, [], c) == [];
      return Ok([]);
    }
    var results := BuildWindows(lines, Take(matchIndices, maxMatches), c);
    r := Ok(results);
  }

  /** The loop over the shown match indices, one window each. */
  method BuildWindows(lines: seq<string>, shown: seq<nat>, c: int) returns (results: seq<Window>)
    requires forall k :: 0 <= k < |shown| ==> shown[k] < |lines|
    ensures results == WindowsAt(lines, shown, c)
  {
    results := [];
    var i := 0;
    while i < |shown|
      invariant 0 <= i <= |shown|
      invariant |results| == i
      invariant forall k :: 0 <= k < i ==> results[k] == WindowAt(lines, shown[k], c)
    {
      var idx := shown[i];
      var start := Max(0, idx - c);
      var end := Min(|lines|, idx + c + 1);
      var numbered := NumberLines(lines, start, end);
      results := results + [Window(idx, start, end, numbered)];
      i := i + 1;
    }
  }

  /** The comprehension building a window's `lines`. */
  method NumberLines(lines: seq<string>, start: nat, end: int) returns (numbered: seq<(nat, string)>)
    requires end <= |lines|
    ensures numbered == Numbered(lines, start, end)
  {
    numbered := [];
    var j := start;
    while j < end
      invariant start <= j <= Max(start, end)
      invariant |numbered| == j - start
      invariant forall t :: 0 <= t < j - start ==> numbered[t] == (start + t, lines[start + t])
    {
      numbered := numbered + [(j, lines[j])];
      j := j + 1;
    }
  }

  /** A file without a matching line gives no windows at all. */
  lemma NoMatchNoWindows(lines: seq<string>, re: Regex, pattern: string, c: int, maxMatches: int)
    requires re.compiles(pattern)
    requires forall i :: 0 <= i < |lines| ==> !re.search(pattern, lines[i])
    ensures Search(lines, re, pattern, c, maxMatches) == Ok([])
  {
    var idx := MatchIndices(lines, re, pattern);
    NoMatchesFrom(lines, re, pattern, 0);
    assert Take(idx, maxMatches) == [];
    assert WindowsAt(lines, [], c) == [];
  }

  lemma {:induction false} NoMatchesFrom(lines: seq<string>, re: Regex, pattern: string, from: nat)
    requires from <= |lines|
    requires forall i :: from <= i < |lines| ==> !re.search(pattern, lines[i])
    ensures MatchesFrom(lines, re, pattern, from) == []
    decreases |lines| - from
  {
    if from < |lines| {
      NoMatchesFrom(lines, re, pattern, from + 1);
    }
  }

  /** With context 0 a window is just its match line. */
  lemma ZeroContextWindow(lines: seq<string>, idx: nat)
    requires idx < |lines|
    ensures var w := WindowAt(lines, idx, 0);
      w.start == idx && w.end == idx + 1 && w.lines == [(idx, lines[idx])]
  {
  }

  /** One report line: `>` on the match line, a blank elsewhere, then the 1-based line number right-aligned in 6. */
  function LineOut(matchLine: nat, numbered: (nat, string)): string
  {
    [if numbered.0 == matchLine then '>' else ' '] + " " + PadLeft(NatToString(numbered.0 + 1), 6) + ": " + numbered.1
  }

  function WindowLines(w: Window): (r: seq<string>)
    ensures |r| == |w.lines| && forall j :: 0 <= j < |r| ==> r[j] == LineOut(w.matchLine, w.lines[j])
  {
    seq(|w.lines|, j requires 0 <= j < |w.lines| => LineOut(w.matchLine, w.lines[j]))
  }

  /** The `>` marker is on exactly the match line of each window. */
  lemma MarkerOnMatchLine(w: Window, j: nat)
    requires j < |w.lines|
    ensures |WindowLines(w)[j]| > 0
    ensures WindowLines(w)[j][0] == '>' <==> w.lines[j].0 == w.matchLine
  {
    assert WindowLines(w)[j][0] == (if w.lines[j].0 == w.matchLine then '>' else ' ');
  }

  /** `if match != matches[-1]`: a window equal to the last one gets no separator. */
  function Separator(w: Window, last: Window): seq<string>
  {
    if w != last then ["  ---"] else []
  }

  /** As written: each window's lines, then a separator unless the window equals `last`. */
  function Blocks(ms: seq<Window>, last: Window): seq<string>
  {
    if ms == [] then [] else WindowLines(ms[0]) + Separator(ms[0], last) + Blocks(ms[1..], last)
  }

  lemma {:induction false} BlocksAppend(ms: seq<Window>, m: Window, last: Window)
    ensures Blocks(ms + [m], last) == Blocks(ms, last) + WindowLines(m) + Separator(m, last)
  {
    if ms == [] {
      assert [] + [m] == [m] && [m][1..] == [];
    } else {
      assert (ms + [m])[0] == ms[0] && (ms + [m])[1..] == ms[1..] + [m];
      BlocksAppend(ms[1..], m, last);
    }
  }

  /** Reference layout: the windows' lines with `  ---` between consecutive windows and none after the last. */
  function Separated(ms: seq<Window>): seq<string>
  {
    if ms == [] then []
    else if |ms| == 1 then WindowLines(ms[0])
    else WindowLines(ms[0]) + ["  ---"] + Separated(ms[1..])
  }

  /** When no earlier window equals the last one, the written layout is the reference layout. */
  lemma {:induction false} BlocksSeparated(ms: seq<Window>, last: Window)
    requires ms != [] && ms[|ms| - 1] == last
    requires forall i :: 0 <= i < |ms| - 1 ==> ms[i] != last
    ensures Blocks(ms, last) == Separated(ms)
  {
    if |ms| == 1 {
      assert ms[1..] == [];
    } else {
      BlocksSeparated(ms[1..], last);
    }
  }

  /** The windows of one search are pairwise different, since their match lines are. */
  lemma SearchWindowsDistinct(lines: seq<string>, re: Regex, pattern: string, c: int, maxMatches: int)
    requires re.compiles(pattern)
    ensures var ws := Search(lines, re, pattern, c, maxMatches).value;
      forall i, j :: 0 <= i < j < |ws| ==> ws[i] != ws[j]
  {
  }

  function FileHeader(path: string, totalLines: nat): string
  {
    "File: " + path + " (" + Grouped(totalLines) + " lines)"
  }

  /** The lines `format_grep_response` joins with newlines. */
  function GrepReport(ms: seq<Window>, path: string, pattern: string, totalLines: nat): seq<string>
  {
    GrepHeader(ms, path, pattern, totalLines) + GrepBody(ms)
  }

  /** The file header, the pattern, and the match count or the `No matches found.` line. */
  function GrepHeader(ms: seq<Window>, path: string, pattern: string, totalLines: nat): seq<string>
  {
    [FileHeader(path, totalLines), "Pattern: \"" + pattern + "\""]
      + (if ms == [] then ["\nNo matches found."] else ["Matches: " + NatToString(|ms|) + "\n"])
  }

  /** The windows, with separators placed as written. */
  function GrepBody(ms: seq<Window>): seq<string>
  {
    if ms == [] then [] else Blocks(ms, ms[|ms| - 1])
  }

  /** With pairwise different windows the body separates consecutive windows and ends without a separator. */
  lemma BodySeparated(ms: seq<Window>)
    requires forall i, j :: 0 <= i < j < |ms| ==> ms[i] != ms[j]
    ensures GrepBody(ms) == Separated(ms)
  {
    if ms != [] {
      BlocksSeparated(ms, ms[|ms| - 1]);
    }
  }

  /** In particular for the windows `search_lines` returns. */
  lemma BodyOfSearch(lines: seq<string>, re: Regex, pattern: string, c: int, maxMatches: int)
    requires re.compiles(pattern)
    ensures GrepBody(Search(lines, re, pattern, c, maxMatches).value) == Separated(Search(lines, re, pattern, c, maxMatches).value)
  {
    SearchWindowsDistinct(lines, re, pattern, c, maxMatches);
    BodySeparated(Search(lines, re, pattern, c, maxMatches).value);
  }

  /** The lines one window adds: the inner loop of `format_grep_response`. */
  method AppendWindow(output: seq<string>, w: Window) returns (out: seq<string>)
    ensures out == output + WindowLines(w)
  {
    out := output;
    var j := 0;
    while j < |w.lines|
      invariant 0 <= j <= |w.lines|
      invariant |out| == |output| + j && out[..|output|] == output
      invariant forall t :: 0 <= t < j ==> out[|output| + t] == LineOut(w.matchLine, w.lines[t])
    {
      var (lineNum, lineText) := w.lines[j];
      var marker := if lineNum == w.matchLine then '>' else ' ';
      out := out + [[marker] + " " + PadLeft(NatToString(lineNum + 1), 6) + ": " + lineText];
      j := j + 1;
    }
    assert out == output + WindowLines(w);
  }

  /** `format_grep_response`. */
  method FormatGrepResponse(matches: seq<Window>, path: string, pattern: string, totalLines: nat)
    returns (text: string)
    ensures text == Join(GrepReport(matches, path, pattern, totalLines), "\n")
  {
    var output := [FileHeader(path, totalLines), "Pattern: \"" + pattern + "\""];
    if matches == [] {
      output := output + ["\nNo matches found."];
      assert output == GrepReport(matches, path, pattern, totalLines);
      return Join(output, "\n");
    }
    output := output + ["Matches: " + NatToString(|matches|) + "\n"];
    output := AppendBlocks(output, matches, matches[|matches| - 1]);
    assert output == GrepReport(matches, path, pattern, totalLines);
    text := Join(output, "\n");
  }

  lemma BlocksStep(output: seq<string>, ms: seq<Window>, i: nat, last: Window)
    requires i < |ms|
    ensures (output + Blocks(ms[..i], last)) + (WindowLines(ms[i]) + Separator(ms[i], last))
         == output + Blocks(ms[..i + 1], last)
  {
    assert ms[..i + 1] == ms[..i] + [ms[i]];
    BlocksAppend(ms[..i], ms[i], last);
  }

  /** One window and, unless it equals `last`, its separator. */
  method AppendBlock(output: seq<string>, m: Window, last: Window) returns (out: seq<string>)
    ensures out == output + (WindowLines(m) + Separator(m, last))
  {
    out := AppendWindow(output, m);
    if m != last {
      out := out + ["  ---"];
    } else {
      assert out + [] == out;
    }
  }

  /** The outer loop of `format_grep_response`, with `last` standing for `matches[-1]`. */
  method AppendBlocks(output: seq<string>, matches: seq<Window>, last: Window) returns (out: seq<string>)
    ensures out == output + Blocks(matches, last)
  {
    out := output;
    var i := 0;
    while i < |matches|
      invariant 0 <= i <= |matches|
      invariant out == output + Blocks(matches[..i], last)
    {
      BlocksStep(output, matches, i, last);
      out := AppendBlock(out, matches[i], last);
      i := i + 1;
    }
    assert matches[..i] == matches;
  }

  /** The reported line count is the number of `\n`-separated pieces: one more than the newlines. */
  lemma TotalLines(content: string)
    ensures |Split(content, '\n')| == CountChar(content, '\n') + 1
  {
    SplitCount(content, '\n');
  }

  /**
   * `grep_file_workflow` after the fetch: a directory is refused, a pattern the
   * regex engine rejects is an error, otherwise the report over the file's lines.
   */
  method GrepFileWorkflow(response: FetchResponse, path: string, re: Regex, pattern: string, c: int, maxMatches: int)
    returns (r: Result<string, string>)
    ensures response.Dir? ==> r == Err("Path '" + path + "' is a directory, not a file.")
    ensures response.File? ==>
      var lines := Split(response.content, '\n');
      (r.Err? <==> !re.compiles(pattern))
      && (r.Ok? ==> r.value == Join(GrepReport(Search(lines, re, pattern, c, maxMatches).value, path, pattern, |lines|), "\n"))
  {
    if response.Dir? {
      return Err("Path '" + path + "' is a directory, not a file.");
    }
    var lines := Split(response.content, '\n');
    var matches := SearchLines(lines, re, pattern, c, maxMatches);
    if matches.Err? {
      return Err(matches.error);
    }
    var text := FormatGrepResponse(matches.value, path, pattern, |lines|);
    r := Ok(text);
  }
}
