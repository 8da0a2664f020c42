/**
 * The files a pull request changes (src/github/get_pr_files.py): the totals,
 * the status icons, the rename note and the truncated patch preview.
 */
module PrFiles {
  import opened Wrappers
  import opened Seqs
  import opened Text
  import opened Blocks

  const MaxPatchPreview: nat := 500

  /** One entry of the pull request's file list; missing counts are 0, a missing patch is empty. */
  datatype ChangedFile = ChangedFile(
    filename: string,
    status: string,
    additions: Option<int>,
    deletions: Option<int>,
    previousFilename: Option<string>,
    patch: Option<string>)

  function Additions(f: ChangedFile): int { f.additions.GetOr(0) }

  function Deletions(f: ChangedFile): int { f.deletions.GetOr(0) }

  function Patch(f: ChangedFile): string { f.patch.GetOr("") }

  /** `f.get("previous_filename")` is truthy. */
  predicate Renamed(f: ChangedFile)
  {
    f.previousFilename.Some? && f.previousFilename.value != ""
  }

  /** `sum(f.get("additions", 0) for f in files)`. */
  function TotalAdditions(files: seq<ChangedFile>): int
  {
    if files == [] then 0 else Additions(files[0]) + TotalAdditions(files[1..])
  }

  function TotalDeletions(files: seq<ChangedFile>): int
  {
    if files == [] then 0 else Deletions(files[0]) + TotalDeletions(files[1..])
  }

  /** The totals of two lists together are the sums of their totals. */
  lemma {:induction false} TotalsConcat(a: seq<ChangedFile>, b: seq<ChangedFile>)
    ensures TotalAdditions(a + b) == TotalAdditions(a) + TotalAdditions(b)
    ensures TotalDeletions(a + b) == TotalDeletions(a) + TotalDeletions(b)
  {
    if a == [] {
      assert a + b == b;
    } else {
      assert (a + b)[0] == a[0] && (a + b)[1..] == a[1..] + b;
      TotalsConcat(a[1..], b);
    }
  }

  /** With no negative count, a total is at least the count of any one file. */
  lemma {:induction false} TotalsBound(files: seq<ChangedFile>, k: nat)
    requires k < |files|
    requires forall i :: 0 <= i < |files| ==> Additions(files[i]) >= 0
    ensures TotalAdditions(files) >= Additions(files[k])
  {
    NonNegativeTotal(files[1..]);
    if k > 0 {
      TotalsBound(files[1..], k - 1);
    }
  }

  lemma {:induction false} NonNegativeTotal(files: seq<ChangedFile>)
    requires forall i :: 0 <= i < |files| ==> Additions(files[i]) >= 0
    ensures TotalAdditions(files) >= 0
  {
    if files != [] {
      assert forall i :: 0 <= i < |files| - 1 ==> files[1..][i] == files[i + 1];
      NonNegativeTotal(files[1..]);
    }
  }

  /** The status icon map, with `?` for any status it does not name. */
  function StatusIcon(status: string): (r: string)
    ensures r == "+" <==> status == "added"
    ensures r == "-" <==> status == "removed"
    ensures r == "M" <==> status == "modified"
    ensures r == "R" <==> status == "renamed"
    ensures r == "?" <==> status !in {"added", "removed", "modified", "renamed"}
  {
    if status == "added" then "+"
    else if status == "removed" then "-"
    else if status == "modified" then "M"
    else if status == "renamed" then "R"
    else "?"
  }

  const TruncatedNote := "\n    ... (truncated)"

  /**
   * `patch[:500]`, with the truncation note appended when something was cut.
   * A patch that is not cut comes through whole.
   */
  function Preview(patch: string): (r: string)
    ensures |patch| <= MaxPatchPreview ==> r == patch
    ensures |patch| > MaxPatchPreview ==> r == patch[..MaxPatchPreview] + TruncatedNote
    ensures StartsWith(r, patch[..Min(|patch|, MaxPatchPreview)])
  {
    var preview := Take(patch, MaxPatchPreview);
    if |patch| > MaxPatchPreview then preview + TruncatedNote else preview
  }

  /** A cut preview keeps exactly 500 characters of the patch before the note. */
  lemma PreviewLength(patch: string)
    ensures |Preview(patch)| == Min(|patch|, MaxPatchPreview) + (if |patch| > MaxPatchPreview then |TruncatedNote| else 0)
  {
  }

  /** Every line of the preview is indented by four spaces. */
  function Indented(preview: string): string
  {
    ReplaceAll(preview, "\n", "\n    ")
  }

  function PreviewLine(patch: string): string
  {
    "    Preview:\n    " + Indented(Preview(patch))
  }

  const RenamedTag := "    Renamed from: "

  function IconLine(f: ChangedFile): string
  {
    "[" + StatusIcon(f.status) + "] " + f.filename
  }

  function CountsLine(f: ChangedFile): string
  {
    "    +" + IntToString(Additions(f)) + " -" + IntToString(Deletions(f)) + " | Status: " + f.status
  }

  /** The rename note, for a renamed file only. */
  function RenamedLines(f: ChangedFile): seq<string>
  {
    if Renamed(f) then [RenamedTag + f.previousFilename.value] else []
  }

  /** The preview, for a non-empty patch only. */
  function PreviewLines(f: ChangedFile): seq<string>
  {
    if Patch(f) != "" then [PreviewLine(Patch(f))] else []
  }

  /** The lines for one file. */
  function FileLines(f: ChangedFile): seq<string>
  {
    [IconLine(f), CountsLine(f)] + RenamedLines(f) + PreviewLines(f) + [""]
  }

  /** The preview line does not start like the rename note. */
  lemma PreviewNotRenamed(patch: string)
    ensures !StartsWith(PreviewLine(patch), RenamedTag)
  {
    assert PreviewLine(patch)[4] == 'P' && RenamedTag[4] == 'R';
  }

  /**
   * The third line of a file's block is the rename note exactly when the file
   * was renamed, and the block has a preview line exactly when the patch is not empty.
   */
  lemma FileLinesShape(f: ChangedFile)
    ensures |FileLines(f)| == 3 + (if Renamed(f) then 1 else 0) + (if Patch(f) != "" then 1 else 0)
    ensures StartsWith(FileLines(f)[2], RenamedTag) <==> Renamed(f)
  {
    var lines := FileLines(f);
    if !Renamed(f) {
      if Patch(f) != "" {
        assert lines[2] == PreviewLine(Patch(f));
        PreviewNotRenamed(Patch(f));
      } else {
        assert lines[2] == "";
      }
    } else {
      assert lines[2] == RenamedTag + f.previousFilename.value;
    }
  }

  function FilesLines(files: seq<ChangedFile>): seq<string>
  {
    Concatenated(files, FileLines)
  }

  function TitleLine(owner: string, repo: string, pullNumber: int): string
  {
    "# Files Changed in " + owner + "/" + repo + "#" + IntToString(pullNumber)
  }

  function TotalsLine(files: seq<ChangedFile>): string
  {
    "Total: " + NatToString(|files|) + " files | +" + IntToString(TotalAdditions(files))
      + " additions | -" + IntToString(TotalDeletions(files)) + " deletions\n"
  }

  const NoFiles := "No files changed in this PR."

  /** The lines `format_pr_files` joins with newlines. */
  function Report(files: seq<ChangedFile>, owner: string, repo: string, pullNumber: int): seq<string>
  {
    [TitleLine(owner, repo, pullNumber), TotalsLine(files)]
    + (if files == [] then [NoFiles] else FilesLines(files))
  }

  /** The no-files message is the third line exactly when the list is empty, and then the last. */
  lemma EmptyReport(files: seq<ChangedFile>, owner: string, repo: string, pullNumber: int)
    ensures |Report(files, owner, repo, pullNumber)| >= 3
    ensures Report(files, owner, repo, pullNumber)[2] == NoFiles <==> files == []
    ensures files == [] ==> |Report(files, owner, repo, pullNumber)| == 3
  {
    var r := Report(files, owner, repo, pullNumber);
    if files != [] {
      FilesLinesStart(files);
      var body := FilesLines(files);
      assert r == [TitleLine(owner, repo, pullNumber), TotalsLine(files)] + body;
      IconLineStarts(files[0]);
      assert r[2] == body[0] == IconLine(files[0]);
      assert NoFiles[0] == 'N';
    } else {
      assert r == [TitleLine(owner, repo, pullNumber), TotalsLine(files), NoFiles];
    }
  }

  lemma IconLineStarts(f: ChangedFile)
    ensures IconLine(f) != [] && IconLine(f)[0] == '['
  {
  }

  /** A non-empty list starts with the first file's icon line. */
  lemma FilesLinesStart(files: seq<ChangedFile>)
    requires files != []
    ensures |FilesLines(files)| >= 3 && FilesLines(files)[0] == IconLine(files[0])
  {
    ConcatenatedStarts(files, FileLines);
    FileLinesOpen(files[0]);
    var n := |FileLines(files[0])|;
    assert FilesLines(files)[0] == FilesLines(files)[..n][0];
  }

  lemma FileLinesOpen(f: ChangedFile)
    ensures |FileLines(f)| >= 3 && FileLines(f)[0] == IconLine(f)
  {
  }

  /** One turn of the file loop. */
  method AppendFile(lines: seq<string>, f: ChangedFile) returns (out: seq<string>)
    ensures out == lines + FileLines(f)
  {
    var icon := StatusIcon(f.status);
    var head := ["[" + icon + "] " + f.filename,
                 "    +" + IntToString(Additions(f)) + " -" + IntToString(Deletions(f)) + " | Status: " + f.status];
    var renamed := [];
    if Renamed(f) {
      renamed := [RenamedTag + f.previousFilename.value];
    }
    var patch := Patch(f);
    var shown := [];
    if patch != "" {
      var preview := Take(patch, MaxPatchPreview);
      if |patch| > MaxPatchPreview {
        preview := preview + TruncatedNote;
      }
      shown := ["    Preview:\n    " + ReplaceAll(preview, "\n", "\n    ")];
    }
    assert head == [IconLine(f), CountsLine(f)] && renamed == RenamedLines(f) && shown == PreviewLines(f);
    out := lines + (head + renamed + shown + [""]);
  }

  lemma FilesLinesStep(lines: seq<string>, files: seq<ChangedFile>, i: nat)
    requires i < |files|
    ensures (lines + FilesLines(files[..i])) + FileLines(files[i]) == lines + FilesLines(files[..i + 1])
  {
    ConcatenatedSnoc(files, i, FileLines);
  }

  method AppendFiles(lines: seq<string>, files: seq<ChangedFile>) returns (out: seq<string>)
    ensures out == lines + FilesLines(files)
  {
    out := lines;
    var i := 0;
    while i < |files|
      invariant 0 <= i <= |files|
      invariant out == lines + FilesLines(files[..i])
    {
      FilesLinesStep(lines, files, i);
      out := AppendFile(out, files[i]);
      i := i + 1;
    }
    assert files[..i] == files;
  }

  /** `format_pr_files(files, owner, repo, pull_number)`. */
  method FormatPrFiles(files: seq<ChangedFile>, owner: string, repo: string, pullNumber: int) returns (out: string)
    ensures out == Join(Report(files, owner, repo, pullNumber), "\n")
  {
    var lines := [TitleLine(owner, repo, pullNumber), TotalsLine(files)];
    if files == [] {
      lines := lines + [NoFiles];
      return Join(lines, "\n");
    }
    lines := AppendFiles(lines, files);
    out := Join(lines, "\n");
  }

  /** `get_pr_files_workflow`; `fetch` stands for the HTTP call for the first page of files. */
  method GetPrFilesWorkflow(owner: string, repo: string, pullNumber: int,
                            fetch: (string, string, int) -> seq<ChangedFile>) returns (out: string)
    ensures out == Join(Report(fetch(owner, repo, pullNumber), owner, repo, pullNumber), "\n")
  {
    var files := fetch(owner, repo, pullNumber);
    out := FormatPrFiles(files, owner, repo, pullNumber);
  }
}
