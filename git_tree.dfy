/**
 * The recursive tree listing returned by the Git Trees endpoint: entries with a
 * path relative to the listed root, a kind (`blob`, `tree`, or anything else such
 * as `commit` for a submodule) and an optional size, plus the server's
 * `truncated` flag.
 */
module GitTree {
  import opened Wrappers
  import opened Text

  datatype Kind = Blob | Tree | OtherKind(name: string)

  datatype TreeEntry = TreeEntry(path: string, kind: Kind, size: Option<nat>)

  /** `raw_tree.get("tree", [])` and `raw_tree.get("truncated", False)`. */
  datatype RawTree = RawTree(entries: seq<TreeEntry>, truncated: bool)

  /** Depth of a path: the number of `/` separators in it. */
  function Depth(path: string): nat
  {
    CountChar(path, '/')
  }

  /** The sort key the tree formatter uses. */
  function EntryDepth(e: TreeEntry): int
  {
    Depth(e.path)
  }

  /** `item.get("size", 0)`. */
  function SizeOrZero(e: TreeEntry): nat
  {
    e.size.GetOr(0)
  }

  /** The upstream path shown as scope: `/` for the repository root. */
  function Scope(basePath: string): string
  {
    if basePath == "" then "/" else basePath
  }
}
