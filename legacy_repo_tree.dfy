/**
 * The earlier revision of the tree tool (src/get_repo_tree.py): it returns a
 * record instead of text, lists every entry as `dir` or `file`, and when the
 * printed list is too long keeps only the entries at depth 0 and 1. Python's
 * `str(list)` is given as a length function, since only its length is used.
 */
module LegacyRepoTree {
  import opened Wrappers
  import opened Seqs
  import opened Text
  import opened GitTree

  const MaxTreeChars: nat := 1000
  const ApiVersion := "2022-11-28"
  const TruncationWarning :=
    "Tree truncated due to size (>1000 chars). Showing depth 0 and 1 only. Use path parameter to explore deeper."

  datatype ItemType = Dir | File

  /** One entry of `formatted_items`. */
  datatype FormattedItem = FormattedItem(path: string, kind: ItemType, size: nat)

  /** The dictionary `format_tree_response` returns. */
  datatype TreeListing = TreeListing(basePath: string, tree: seq<FormattedItem>, truncated: bool, warning: Option<string>)

  /** `build_headers(accept)`: the bearer token only when one is configured. */
  function BuildHeaders(accept: string, token: string): (h: map<string, string>)
    ensures "Accept" in h && h["Accept"] == accept
    ensures "X-GitHub-Api-Version" in h && h["X-GitHub-Api-Version"] == ApiVersion
    ensures "Authorization" in h <==> token != ""
    ensures "Authorization" in h ==> h["Authorization"] == "Bearer " + token
    ensures h.Keys <= {"Accept", "X-GitHub-Api-Version", "Authorization"}
  {
    var h := map["Accept" := accept, "X-GitHub-Api-Version" := ApiVersion];
    if token != "" then h["Authorization" := "Bearer " + token] else h
  }

  function FormatItem(e: TreeEntry): FormattedItem
  {
    FormattedItem(e.path, if e.kind == Tree then Dir else File, SizeOrZero(e))
  }

  /** The loop filling `formatted_items`: one item per entry, same path, `dir` exactly for trees. */
  function FormatAll(entries: seq<TreeEntry>): (items: seq<FormattedItem>)
    ensures |items| == |entries|
    ensures forall k :: 0 <= k < |entries| ==>
      && items[k].path == entries[k].path
      && (items[k].kind == Dir <==> entries[k].kind == Tree)
      && items[k].size == entries[k].size.GetOr(0)
  {
    seq(|entries|, k requires 0 <= k < |entries| => FormatItem(entries[k]))
  }

  /** The test of `filter_by_depth`: at most `maxDepth` separators. */
  function ShallowAt(maxDepth: int): FormattedItem -> bool
  {
    (it: FormattedItem) => Depth(it.path) <= maxDepth
  }

  /** What `filter_by_depth` keeps. */
  function DepthAtMost(items: seq<FormattedItem>, maxDepth: int): seq<FormattedItem>
  {
    Filter(items, ShallowAt(maxDepth))
  }

  /** The kept items are exactly those within `maxDepth`, in their order; filtering again changes nothing. */
  lemma DepthAtMostFacts(items: seq<FormattedItem>, maxDepth: int)
    ensures var r := DepthAtMost(items, maxDepth);
      && IsSubseq(r, items)
      && (forall it :: it in r <==> it in items && Depth(it.path) <= maxDepth)
      && DepthAtMost(r, maxDepth) == r
  {
    FilterIdempotent(items, ShallowAt(maxDepth));
  }

  /** `filter_by_depth`. */
  method FilterByDepth(items: seq<FormattedItem>, maxDepth: int) returns (filtered: seq<FormattedItem>)
    ensures filtered == DepthAtMost(items, maxDepth)
  {
    filtered := [];
    var i := 0;
    while i < |items|
      invariant 0 <= i <= |items|
      invariant filtered == DepthAtMost(items[..i], maxDepth)
    {
      var item := items[i];
      FilterSnoc(items[..i], item, ShallowAt(maxDepth));
      assert items[..i + 1] == items[..i] + [item];
      var depth := CountChar(item.path, '/');
      if depth <= maxDepth {
        filtered := filtered + [item];
      }
      i := i + 1;
    }
    assert items[..i] == items;
  }

  /**
   * `format_tree_response`: the listing is cut to depth 0 and 1, with the warning,
   * exactly when its printed form is longer than 1000 characters.
   */
  method FormatTreeResponse(raw: RawTree, basePath: string, reprLength: seq<FormattedItem> -> nat)
    returns (r: TreeListing)
    ensures r.basePath == Scope(basePath)
    ensures r.truncated <==> reprLength(FormatAll(raw.entries)) > MaxTreeChars
    ensures r.truncated ==> r.tree == DepthAtMost(FormatAll(raw.entries), 1) && r.warning == Some(TruncationWarning)
    ensures !r.truncated ==> r.tree == FormatAll(raw.entries) && r.warning == None
  {
    var formattedItems: seq<FormattedItem> := [];
    var i := 0;
    while i < |raw.entries|
      invariant 0 <= i <= |raw.entries|
      invariant |formattedItems| == i
      invariant forall k :: 0 <= k < i ==> formattedItems[k] == FormatItem(raw.entries[k])
    {
      var item := raw.entries[i];
      formattedItems := formattedItems + [FormattedItem(item.path, if item.kind == Tree then Dir else File, item.size.GetOr(0))];
      i := i + 1;
    }
    assert formattedItems == FormatAll(raw.entries);
    var treeStrLength := reprLength(formattedItems);
    var truncated := false;
    var warning: Option<string> := None;
    if treeStrLength > MaxTreeChars {
      truncated := true;
      warning := Some(TruncationWarning);
      formattedItems := FilterByDepth(formattedItems, 1);
    }
    r := TreeListing(if basePath != "" then basePath else "/", formattedItems, truncated, warning);
  }

  /** A cut listing keeps every root and first-level entry and nothing deeper. */
  lemma CutListing(entries: seq<TreeEntry>, e: TreeEntry)
    requires e in entries
    ensures FormatItem(e) in DepthAtMost(FormatAll(entries), 1) <==> Depth(e.path) <= 1
  {
    var all := FormatAll(entries);
    DepthAtMostFacts(all, 1);
    var k :| 0 <= k < |entries| && entries[k] == e;
    assert all[k] == FormatItem(e);
  }
}
