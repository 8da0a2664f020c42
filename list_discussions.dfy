/**
 * The discussion list of a repository (src/github/list_discussions.py): the
 * category lookup by slug, the clamp on the page size and the text listing.
 */
module ListDiscussions {
  import opened Wrappers
  import opened Seqs
  import opened Text
  import opened Blocks

  const MaxFirst: int := 100

  /** A discussion category as the categories query returns it. */
  datatype Category = Category(id: string, slug: string)

  /**
   * The category loop of `lookup_category_id`: the id of the first category
   * with the slug, `None` when there is none.
   */
  function FindSlug(categories: seq<Category>, slug: string): (r: Option<string>)
    ensures r.None? <==> forall k :: 0 <= k < |categories| ==> categories[k].slug != slug
    ensures r.Some? ==> exists k :: 0 <= k < |categories| && categories[k].slug == slug && categories[k].id == r.value
                                    && forall j :: 0 <= j < k ==> categories[j].slug != slug
  {
    if categories == [] then None
    else if categories[0].slug == slug then Some(categories[0].id)
    else
      var r := FindSlug(categories[1..], slug);
      assert forall k :: 1 <= k < |categories| ==> categories[1..][k - 1] == categories[k];
      if r.Some? then
        var k :| 0 <= k < |categories[1..]| && categories[1..][k].slug == slug && categories[1..][k].id == r.value
                  && forall j :: 0 <= j < k ==> categories[1..][j].slug != slug;
        assert categories[k + 1].slug == slug && categories[k + 1].id == r.value;
        assert forall j :: 0 <= j < k + 1 ==> categories[j].slug != slug by {
          forall j | 0 <= j < k + 1 ensures categories[j].slug != slug {
            if j > 0 {
              assert categories[j] == categories[1..][j - 1];
            }
          }
        }
        r
      else
        r
  }

  /** `lookup_category_id` over the categories the query returned. */
  method LookupCategoryId(categories: seq<Category>, slug: string) returns (r: Option<string>)
    ensures r == FindSlug(categories, slug)
  {
    var i := 0;
    while i < |categories|
      invariant 0 <= i <= |categories|
      invariant FindSlug(categories, slug) == FindSlug(categories[i..], slug)
    {
      assert categories[i..][0] == categories[i] && categories[i..][1..] == categories[i + 1..];
      if categories[i].slug == slug {
        return Some(categories[i].id);
      }
      i := i + 1;
    }
    return None;
  }

  /** The category id sent upstream: looked up only for a truthy category. */
  function CategoryId(category: Option<string>, categories: seq<Category>): (r: Option<string>)
    ensures category.None? || category == Some("") ==> r.None?
    ensures category.Some? && category.value != "" ==> r == FindSlug(categories, category.value)
  {
    if category.Some? && category.value != "" then FindSlug(categories, category.value) else None
  }

  /** `min(first, 100)`. */
  function FirstVariable(first: int): (r: int)
    ensures r <= MaxFirst
    ensures first <= MaxFirst ==> r == first
    ensures first > MaxFirst ==> r == MaxFirst
  {
    Min(first, MaxFirst)
  }

  /** One discussion node with the fields the formatter reads, defaults applied. */
  datatype Node = Node(
    number: int,
    title: string,
    categoryEmoji: string,
    categoryName: string,
    author: Option<string>,
    comments: int,
    upvotes: int,
    isAnswered: bool,
    updatedAt: string)

  function AnsweredLabel(isAnswered: bool): (r: string)
    ensures r == "Yes" <==> isAnswered
  {
    if isAnswered then "Yes" else "No"
  }

  /** The five lines for the discussion numbered `idx`. */
  function NodeLines(idx: nat, d: Node): (r: seq<string>)
    ensures |r| == 5
  {
    [NatToString(idx) + ". **" + d.title + "** [" + d.categoryEmoji + " " + d.categoryName + "]",
     "   Author: @" + d.author.GetOr("unknown") + " | Comments: " + IntToString(d.comments) + " | Upvotes: " + IntToString(d.upvotes),
     "   Answered: " + AnsweredLabel(d.isAnswered) + " | Updated: " + Take(d.updatedAt, 10),
     "   ID: #" + IntToString(d.number),
     ""]
  }

  function NodesLines(nodes: seq<Node>): seq<string>
  {
    NumberedBlocks(nodes, NodeLines)
  }

  /** The `k`-th discussion (from 0) has the block numbered `k + 1`, at lines `5k` to `5k + 4`. */
  lemma NodesNumbered(nodes: seq<Node>, k: nat)
    requires k < |nodes|
    ensures |NodesLines(nodes)| == 5 * |nodes|
    ensures NodesLines(nodes)[5 * k..5 * k + 5] == NodeLines(k + 1, nodes[k])
  {
    BlockAt(nodes, NodeLines, 5, k);
  }

  function Header(owner: string, repo: string): string
  {
    "## Discussions in " + owner + "/" + repo + "\n"
  }

  /** The lines `format_results` joins with newlines. */
  function Report(owner: string, repo: string, nodes: seq<Node>): seq<string>
  {
    [Header(owner, repo)] + (if nodes == [] then ["No discussions found."] else NodesLines(nodes))
  }

  /** No discussions: the header and the `No discussions found.` message alone. */
  lemma EmptyList(owner: string, repo: string)
    ensures Join(Report(owner, repo, []), "\n") == Header(owner, repo) + "\n" + "No discussions found."
  {
    var lines := Report(owner, repo, []);
    assert lines[1..] == ["No discussions found."];
  }

  lemma NodesLinesStep(lines: seq<string>, nodes: seq<Node>, i: nat)
    requires i < |nodes|
    ensures (lines + NodesLines(nodes[..i])) + NodeLines(i + 1, nodes[i]) == lines + NodesLines(nodes[..i + 1])
  {
    assert nodes[..i + 1][..i] == nodes[..i];
    assert NodesLines(nodes[..i + 1]) == NodesLines(nodes[..i]) + NodeLines(i + 1, nodes[i]);
  }

  /** One turn of the `for idx, d in enumerate(nodes, 1)` loop. */
  method AppendNode(lines: seq<string>, idx: nat, d: Node) returns (out: seq<string>)
    ensures out == lines + NodeLines(idx, d)
  {
    out := lines + [NatToString(idx) + ". **" + d.title + "** [" + d.categoryEmoji + " " + d.categoryName + "]"];
    out := out + ["   Author: @" + d.author.GetOr("unknown") + " | Comments: " + IntToString(d.comments) + " | Upvotes: " + IntToString(d.upvotes)];
    out := out + ["   Answered: " + AnsweredLabel(d.isAnswered) + " | Updated: " + Take(d.updatedAt, 10)];
    out := out + ["   ID: #" + IntToString(d.number)];
    out := out + [""];
  }

  /** `format_results(owner, repo, data)`. */
  method FormatResults(owner: string, repo: string, nodes: seq<Node>) returns (out: string)
    ensures out == Join(Report(owner, repo, nodes), "\n")
  {
    var lines := [Header(owner, repo)];
    if nodes == [] {
      return Join(lines + ["No discussions found."], "\n");
    }
    var i := 0;
    while i < |nodes|
      invariant 0 <= i <= |nodes|
      invariant lines == [Header(owner, repo)] + NodesLines(nodes[..i])
    {
      NodesLinesStep([Header(owner, repo)], nodes, i);
      lines := AppendNode(lines, i + 1, nodes[i]);
      i := i + 1;
    }
    assert nodes[..i] == nodes;
    out := Join(lines, "\n");
  }

  /**
   * `list_discussions_workflow`: `categoriesOf` and `fetch` stand for the two
   * GraphQL calls; the categories are only consulted for a truthy category.
   */
  method ListDiscussionsWorkflow(owner: string, repo: string, first: int, category: Option<string>, answered: Option<bool>,
                                 categoriesOf: (string, string) -> seq<Category>,
                                 fetch: (string, string, int, Option<string>, Option<bool>) -> seq<Node>)
    returns (out: string)
    ensures out == Join(Report(owner, repo,
                               fetch(owner, repo, FirstVariable(first), CategoryId(category, categoriesOf(owner, repo)), answered)), "\n")
  {
    var categoryId: Option<string> := None;
    if category.Some? && category.value != "" {
      categoryId := LookupCategoryId(categoriesOf(owner, repo), category.value);
    }
    var nodes := fetch(owner, repo, FirstVariable(first), categoryId, answered);
    out := FormatResults(owner, repo, nodes);
  }
}
