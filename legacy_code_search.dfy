/**
 * The older code search (src/search_code.py): instead of text, it reshapes the
 * search answer into one record per hit. Its `extract_text_matches` is the same
 * code as the newer tool's and is taken from `CodeSearch`.
 */
module LegacyCodeSearch {
  import opened Wrappers
  import opened CodeSearch

  /** The dictionary built for one hit. `description` is `None` where the API sent null. */
  datatype Reshaped = Reshaped(
    owner: string,
    repo: string,
    fullName: string,
    description: Option<string>,
    stars: int,
    path: string,
    fileName: string,
    htmlUrl: string,
    textMatches: seq<Fragment>)

  datatype Formatted = Formatted(totalCount: int, items: seq<Reshaped>)

  /**
   * One hit: the repository fields with their defaults (`""` for a missing
   * description, 0 for missing stars) and the extracted text matches, a missing
   * list counting as empty.
   */
  function Reshape(item: CodeItem): (r: Reshaped)
    ensures r.path == item.path && r.fileName == item.name && r.htmlUrl == item.htmlUrl
    ensures r.owner == item.repository.ownerLogin && r.repo == item.repository.name
    ensures r.fullName == item.repository.fullName
    ensures item.repository.description.None? ==> r.description == Some("")
    ensures item.repository.description.Some? ==> r.description == item.repository.description.value
    ensures item.repository.stars.None? ==> r.stars == 0
    ensures item.repository.stars.Some? ==> r.stars == item.repository.stars.value
    ensures r.textMatches == Extracted(item.textMatches.GetOr([]))
    ensures item.textMatches.None? ==> r.textMatches == []
    ensures |r.textMatches| <= |item.textMatches.GetOr([])|
  {
    var repository := item.repository;
    Reshaped(
      repository.ownerLogin,
      repository.name,
      repository.fullName,
      repository.description.GetOr(Some("")),
      repository.stars.GetOr(0),
      item.path,
      item.name,
      item.htmlUrl,
      Extracted(item.textMatches.GetOr([])))
  }

  function ReshapeAll(items: seq<CodeItem>): (r: seq<Reshaped>)
    ensures |r| == |items| && forall k :: 0 <= k < |items| ==> r[k] == Reshape(items[k])
  {
    seq(|items|, k requires 0 <= k < |items| => Reshape(items[k]))
  }

  /** The total is passed through, and there is one record per hit, in order, with the same path. */
  lemma FormattedShape(response: CodeResponse)
    ensures |ReshapeAll(response.items)| == |response.items|
    ensures forall k :: 0 <= k < |response.items| ==> ReshapeAll(response.items)[k].path == response.items[k].path
  {
  }

  /** `format_code_results(raw_response)`: the loop over the hits, appending one record each. */
  method FormatCodeResults(response: CodeResponse) returns (r: Formatted)
    ensures r.totalCount == response.totalCount
    ensures r.items == ReshapeAll(response.items)
  {
    var items: seq<Reshaped> := [];
    var i := 0;
    while i < |response.items|
      invariant 0 <= i <= |response.items|
      invariant items == ReshapeAll(response.items[..i])
    {
      var item := response.items[i];
      var repository := item.repository;
      var textMatches := ExtractTextMatches(item.textMatches.GetOr([]));
      items := items + [Reshaped(
        repository.ownerLogin,
        repository.name,
        repository.fullName,
        repository.description.GetOr(Some("")),
        repository.stars.GetOr(0),
        item.path,
        item.name,
        item.htmlUrl,
        textMatches)];
      i := i + 1;
    }
    assert response.items[..i] == response.items;
    r := Formatted(response.totalCount, items);
  }

  /** `search_code_workflow`; `fetch` stands for the HTTP call to the code search endpoint. */
  method SearchCodeWorkflow(query: string, fetch: map<string, string> -> CodeResponse) returns (r: Formatted)
    ensures r == Formatted(fetch(CodeSearchParams(query)).totalCount, ReshapeAll(fetch(CodeSearchParams(query)).items))
  {
    var response := fetch(CodeSearchParams(query));
    r := FormatCodeResults(response);
  }
}
