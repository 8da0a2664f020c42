/**
 * Code search (src/github/search_code.py): the text-match fragments kept from
 * each hit, and the text listing of the hits with at most three fragments each.
 */
module CodeSearch {
  import opened Wrappers
  import opened Seqs
  import opened Text

  const MaxFragments: nat := 3
  const MaxFragmentChars: nat := 100

  /** One entry of a hit's `text_matches`; either key may be missing. */
  datatype RawMatch = RawMatch(property: Option<string>, fragment: Option<string>)

  /** The two-key dictionary `extract_text_matches` builds. */
  datatype Fragment = Fragment(fragment: string, property: string)

  /** `match.get("property") in ["content", "path"]`. */
  predicate Kept(m: RawMatch)
  {
    m.property == Some("content") || m.property == Some("path")
  }

  function ToFragment(m: RawMatch): Fragment
  {
    Fragment(m.fragment.GetOr(""), m.property.GetOr(""))
  }

  function ToFragments(ms: seq<RawMatch>): (r: seq<Fragment>)
    ensures |r| == |ms| && forall k :: 0 <= k < |ms| ==> r[k] == ToFragment(ms[k])
  {
    seq(|ms|, k requires 0 <= k < |ms| => ToFragment(ms[k]))
  }

  /**
   * What `extract_text_matches` returns: the content and path matches, in
   * order, each reduced to its fragment and property.
   */
  function Extracted(ms: seq<RawMatch>): (r: seq<Fragment>)
    ensures |r| <= |ms|
    ensures forall k :: 0 <= k < |r| ==> r[k].property == "content" || r[k].property == "path"
  {
    var kept := Filter(ms, Kept);
    assert forall k :: 0 <= k < |kept| ==> kept[k] in kept;
    ToFragments(kept)
  }

  /** The matches that are kept give their fragment unchanged, and only their own. */
  lemma ExtractedKeepsFragments(ms: seq<RawMatch>)
    ensures forall m :: m in ms && Kept(m) ==> ToFragment(m) in Extracted(ms)
    ensures forall f :: f in Extracted(ms) ==> exists m :: m in ms && Kept(m) && f == ToFragment(m)
  {
    var kept := Filter(ms, Kept);
    forall m | m in ms && Kept(m)
      ensures ToFragment(m) in Extracted(ms)
    {
      var k :| 0 <= k < |kept| && kept[k] == m;
      assert Extracted(ms)[k] == ToFragment(m);
    }
    forall f | f in Extracted(ms)
      ensures exists m :: m in ms && Kept(m) && f == ToFragment(m)
    {
      var k :| 0 <= k < |Extracted(ms)| && Extracted(ms)[k] == f;
      assert kept[k] in kept;
    }
  }

  lemma ExtractedStep(ms: seq<RawMatch>, i: nat)
    requires i < |ms|
    ensures Extracted(ms[..i + 1]) == Extracted(ms[..i]) + (if Kept(ms[i]) then [ToFragment(ms[i])] else [])
  {
    assert ms[..i + 1] == ms[..i] + [ms[i]];
    FilterSnoc(ms[..i], ms[i], Kept);
  }

  /** `extract_text_matches(matches)`. */
  method ExtractTextMatches(ms: seq<RawMatch>) returns (fragments: seq<Fragment>)
    ensures fragments == Extracted(ms)
  {
    fragments := [];
    var i := 0;
    while i < |ms|
      invariant 0 <= i <= |ms|
      invariant fragments == Extracted(ms[..i])
    {
      ExtractedStep(ms, i);
      if Kept(ms[i]) {
        fragments := fragments + [Fragment(ms[i].fragment.GetOr(""), ms[i].property.GetOr(""))];
      }
      i := i + 1;
    }
    assert ms[..i] == ms;
  }

  /** The repository block of a code hit; `description` is missing (outer `None`) or JSON null (inner `None`). */
  datatype Repository = Repository(
    ownerLogin: string,
    name: string,
    fullName: string,
    description: Option<Option<string>>,
    stars: Option<int>)

  /** One code hit; `textMatches` is `None` when the key is missing or null. */
  datatype CodeItem = CodeItem(
    repository: Repository,
    path: string,
    name: string,
    htmlUrl: string,
    textMatches: Option<seq<RawMatch>>)

  /** `raw_response["total_count"]` and `raw_response.get("items", [])`. */
  datatype CodeResponse = CodeResponse(totalCount: int, items: seq<CodeItem>)

  /** The query parameters of `fetch_code_search`. */
  function CodeSearchParams(query: string): (params: map<string, string>)
    ensures params.Keys == {"q", "per_page"}
    ensures params["q"] == query && params["per_page"] == "20"
  {
    map["q" := query, "per_page" := "20"]
  }

  /** `"text_matches" in item and item["text_matches"]`. */
  predicate HasTextMatches(item: CodeItem)
  {
    item.textMatches.Some? && item.textMatches.value != []
  }

  /** One shown fragment: its first 100 characters after stripping, then `...`. */
  function FragmentLine(f: Fragment): (r: string)
    ensures EndsWith(r, "...")
    ensures StartsWith(r, "     " + Take(Strip(f.fragment), MaxFragmentChars))
    ensures |r| == 5 + Min(|Strip(f.fragment)|, MaxFragmentChars) + 3
    ensures |r| <= 5 + MaxFragmentChars + 3
  {
    var shown := Take(Strip(f.fragment), MaxFragmentChars);
    var r := "     " + shown + "...";
    assert r[|r| - 3..] == "...";
    assert r[..5 + |shown|] == "     " + shown;
    r
  }

  /** The `for match in text_matches[:3]` loop: a line for each fragment not blank after stripping. */
  function FragmentLines(fs: seq<Fragment>): (r: seq<string>)
    ensures |r| <= |fs|
  {
    if fs == [] then []
    else
      var last := fs[|fs| - 1];
      FragmentLines(fs[..|fs| - 1]) + (if Strip(last.fragment) != "" then [FragmentLine(last)] else [])
  }

  /** Every fragment that is not blank after stripping gets its line. */
  lemma {:induction false} FragmentShown(fs: seq<Fragment>, f: Fragment)
    requires f in fs
    ensures Strip(f.fragment) != "" ==> FragmentLine(f) in FragmentLines(fs)
  {
    var init := fs[..|fs| - 1];
    var last := fs[|fs| - 1];
    assert fs == init + [last];
    if f != last {
      assert f in init;
      FragmentShown(init, f);
    }
  }

  /** The fragment lines each hit gets: never more than three. */
  function ShownFragments(item: CodeItem): (r: seq<string>)
    ensures |r| <= MaxFragments
  {
    if HasTextMatches(item) then FragmentLines(Take(Extracted(item.textMatches.value), MaxFragments)) else []
  }

  const FragmentsHeader := "   Code Fragments:"

  /** The numbered title line and the URL line of a hit. */
  function ItemHead(idx: nat, item: CodeItem): (r: seq<string>)
    ensures |r| == 2
  {
    [NatToString(idx) + ". " + item.repository.fullName + " - " + item.path,
     "   URL: " + item.htmlUrl]
  }

  /** The fragments block: present exactly when the hit has raw text matches. */
  function FragmentsBlock(item: CodeItem): seq<string>
  {
    if HasTextMatches(item) then [FragmentsHeader] + ShownFragments(item) else []
  }

  /** The lines for the hit numbered `idx`. */
  function ItemLines(idx: nat, item: CodeItem): seq<string>
  {
    ItemHead(idx, item) + FragmentsBlock(item) + [""]
  }

  /**
   * The fragments header is there exactly when the hit has raw text matches,
   * even when none of them survives the filter.
   */
  lemma FragmentsHeaderShown(idx: nat, item: CodeItem)
    ensures |ItemLines(idx, item)| >= 3
    ensures ItemLines(idx, item)[2] == FragmentsHeader <==> HasTextMatches(item)
    ensures |ItemLines(idx, item)| <= 4 + MaxFragments
  {
    var lines := ItemLines(idx, item);
    if HasTextMatches(item) {
      assert lines[2] == FragmentsHeader;
    } else {
      assert lines == ItemHead(idx, item) + [""];
      assert lines[2] == "";
    }
  }

  /** The hit blocks, numbered from 1. */
  function ItemsLines(items: seq<CodeItem>): seq<string>
  {
    if items == [] then [] else ItemsLines(items[..|items| - 1]) + ItemLines(|items|, items[|items| - 1])
  }

  function FoundLine(total: int): string
  {
    "Found " + GroupedInt(total) + " code matches.\n"
  }

  /** The lines `format_code_results` joins with newlines. */
  function Report(response: CodeResponse): seq<string>
  {
    if response.items == [] then [FoundLine(response.totalCount), "No results to display."]
    else [FoundLine(response.totalCount), "Top Matches:\n"] + ItemsLines(response.items)
  }

  /** No hits: the count line and `No results to display.` alone. */
  lemma NoResults(response: CodeResponse)
    requires response.items == []
    ensures Join(Report(response), "\n") == FoundLine(response.totalCount) + "\n" + "No results to display."
  {
    var lines := Report(response);
    assert lines[1..] == ["No results to display."];
  }

  lemma FragmentLinesStep(lines: seq<string>, fs: seq<Fragment>, i: nat)
    requires i < |fs|
    ensures (lines + FragmentLines(fs[..i])) + (if Strip(fs[i].fragment) != "" then [FragmentLine(fs[i])] else [])
         == lines + FragmentLines(fs[..i + 1])
  {
    assert fs[..i + 1][..i] == fs[..i];
  }

  /** The inner loop: the first three extracted fragments, blank ones skipped. */
  method AppendFragments(lines: seq<string>, fs: seq<Fragment>) returns (out: seq<string>)
    ensures out == lines + FragmentLines(Take(fs, MaxFragments))
  {
    var shown := Take(fs, MaxFragments);
    out := lines;
    var i := 0;
    while i < |shown|
      invariant 0 <= i <= |shown|
      invariant out == lines + FragmentLines(shown[..i])
    {
      FragmentLinesStep(lines, shown, i);
      var fragment := Strip(shown[i].fragment);
      if fragment != "" {
        out := out + ["     " + Take(fragment, MaxFragmentChars) + "..."];
      } else {
        assert out + [] == out;
      }
      i := i + 1;
    }
    assert shown[..i] == shown;
  }

  method AppendItem(lines: seq<string>, idx: nat, item: CodeItem) returns (out: seq<string>)
    ensures out == lines + ItemLines(idx, item)
  {
    var head := [NatToString(idx) + ". " + item.repository.fullName + " - " + item.path];
    head := head + ["   URL: " + item.htmlUrl];
    assert head == ItemHead(idx, item);
    var block: seq<string> := [];
    if HasTextMatches(item) {
      var fragments := ExtractTextMatches(item.textMatches.value);
      block := AppendFragments([FragmentsHeader], fragments);
    }
    assert block == FragmentsBlock(item);
    out := lines + head + block + [""];
  }

  lemma ItemsLinesStep(lines: seq<string>, items: seq<CodeItem>, i: nat)
    requires i < |items|
    ensures (lines + ItemsLines(items[..i])) + ItemLines(i + 1, items[i]) == lines + ItemsLines(items[..i + 1])
  {
    assert items[..i + 1][..i] == items[..i];
    assert ItemsLines(items[..i + 1]) == ItemsLines(items[..i]) + ItemLines(i + 1, items[i]);
  }

  /** The `for idx, item in enumerate(items, 1)` loop. */
  method AppendItems(lines: seq<string>, items: seq<CodeItem>) returns (out: seq<string>)
    ensures out == lines + ItemsLines(items)
  {
    out := lines;
    var i := 0;
    while i < |items|
      invariant 0 <= i <= |items|
      invariant out == lines + ItemsLines(items[..i])
    {
      ItemsLinesStep(lines, items, i);
      out := AppendItem(out, i + 1, items[i]);
      i := i + 1;
    }
    assert items[..i] == items;
  }

  /** `format_code_results(raw_response)`. */
  method FormatCodeResults(response: CodeResponse) returns (out: string)
    ensures out == Join(Report(response), "\n")
  {
    if response.items == [] {
      return Join([FoundLine(response.totalCount), "No results to display."], "\n");
    }
    var lines := AppendItems([FoundLine(response.totalCount), "Top Matches:\n"], response.items);
    out := Join(lines, "\n");
  }

  /** `search_code_workflow`; `fetch` stands for the HTTP call to the code search endpoint. */
  method SearchCodeWorkflow(query: string, fetch: map<string, string> -> CodeResponse) returns (out: string)
    ensures out == Join(Report(fetch(CodeSearchParams(query))), "\n")
  {
    var response := fetch(CodeSearchParams(query));
    out := FormatCodeResults(response);
  }
}
