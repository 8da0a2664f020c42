/**
 * One GitHub discussion with its comments (src/github/get_discussion.py): the
 * clamp on the number of comments requested, the ordering and cap of the
 * comments shown, and the Markdown-like text of the discussion.
 */
module Discussion {
  import opened Wrappers
  import opened Seqs
  import opened Text
  import opened StableSort
  import opened Blocks

  /** The most comments the GraphQL API hands out in one page. */
  const MaxCommentPage: int := 100

  /** A reply under a comment. */
  datatype Reply = Reply(author: Option<string>, body: string, upvotes: int)

  /** A comment; `upvoteCount` may be missing, and then counts as 0. */
  datatype Comment = Comment(
    author: Option<string>,
    createdAt: string,
    isAnswer: bool,
    upvoteCount: Option<int>,
    body: string,
    replies: seq<Reply>)

  datatype Answer = Answer(author: Option<string>, createdAt: string, upvotes: int, body: string)

  /** The fields of `repository.discussion` the formatter reads. */
  datatype Thread = Thread(
    title: string,
    body: string,
    author: Option<string>,
    categoryEmoji: string,
    categoryName: string,
    createdAt: string,
    upvotes: int,
    isAnswered: bool,
    answer: Option<Answer>,
    totalComments: int,
    comments: seq<Comment>)

  /** `min(comment_limit, 100)`, the `commentLimit` variable of the query. */
  function CommentLimit(limit: int): (r: int)
    ensures r <= MaxCommentPage
    ensures limit <= MaxCommentPage ==> r == limit
    ensures limit > MaxCommentPage ==> r == MaxCommentPage
  {
    Min(limit, MaxCommentPage)
  }

  /** `c.get("upvoteCount", 0)`. */
  function Upvotes(c: Comment): int
  {
    c.upvoteCount.GetOr(0)
  }

  /** The sort key: ascending by it is descending by upvotes. */
  function NegUpvotes(c: Comment): int
  {
    -Upvotes(c)
  }

  /** The comments with `v` upvotes, in their order in `cs`. */
  function Ties(cs: seq<Comment>, v: int): seq<Comment>
  {
    WithKey(cs, NegUpvotes, -v)
  }

  /**
   * `sort_comments`: by upvotes, most first (a stable sort, so ties keep their
   * order), or as given; then the first `limit` (a Python slice, so a negative
   * limit drops that many from the end).
   */
  function SortComments(cs: seq<Comment>, sortBy: string, limit: int): (r: seq<Comment>)
    ensures |r| <= |cs|
    ensures limit >= 0 ==> |r| == Min(limit, |cs|)
    ensures limit < 0 ==> |r| == Max(0, |cs| + limit)
    ensures multiset(r) <= multiset(cs)
    ensures sortBy == "upvotes" ==> forall i, j :: 0 <= i < j < |r| ==> Upvotes(r[i]) >= Upvotes(r[j])
    ensures sortBy != "upvotes" ==> r == cs[..|r|]
  {
    var ordered := if sortBy == "upvotes" then SortBy(cs, NegUpvotes) else cs;
    SortByOrdered(cs, NegUpvotes);
    var r := Take(ordered, limit);
    PrefixMultiset(ordered, |r|);
    assert sortBy == "upvotes" ==> forall i, j :: 0 <= i < j < |r| ==> NegUpvotes(r[i]) <= NegUpvotes(r[j]);
    r
  }

  lemma PrefixMultiset<T>(xs: seq<T>, n: nat)
    requires n <= |xs|
    ensures multiset(xs[..n]) <= multiset(xs)
  {
    assert xs == xs[..n] + xs[n..];
  }

  /**
   * The comments kept by upvotes are the most upvoted: none left out has more
   * upvotes than one kept.
   */
  lemma SortCommentsTopK(cs: seq<Comment>, limit: int)
    ensures forall x, y :: x in multiset(SortComments(cs, "upvotes", limit)) && y in multiset(cs) - multiset(SortComments(cs, "upvotes", limit))
                           ==> Upvotes(x) >= Upvotes(y)
  {
    var sorted := SortBy(cs, NegUpvotes);
    var r := SortComments(cs, "upvotes", limit);
    assert r == sorted[..|r|];
    SortByOrdered(cs, NegUpvotes);
    SortedPrefixLeast(sorted, NegUpvotes, |r|);
    MultisetRest(sorted, |r|);
    forall x, y | x in multiset(r) && y in multiset(cs) - multiset(r) ensures Upvotes(x) >= Upvotes(y) {
      assert x in sorted[..|r|] && y in sorted[|r|..];
    }
  }

  /** The elements with a given key in a prefix are a prefix of those in the whole. */
  lemma {:induction false} WithKeyPrefix<T>(xs: seq<T>, n: nat, key: T -> int, k: int)
    requires n <= |xs|
    ensures |WithKey(xs[..n], key, k)| <= |WithKey(xs, key, k)|
    ensures WithKey(xs[..n], key, k) == WithKey(xs, key, k)[..|WithKey(xs[..n], key, k)|]
  {
    if n > 0 {
      var p := xs[..n];
      assert p[0] == xs[0] && p[1..] == xs[1..][..n - 1];
      WithKeyPrefix(xs[1..], n - 1, key, k);
    }
  }

  /** The elements with a given key in a prefix of the sorted list are a prefix of those in the input. */
  lemma SortedPrefixStable<T>(xs: seq<T>, n: nat, key: T -> int, k: int)
    requires n <= |xs|
    ensures n <= |SortBy(xs, key)|
    ensures |WithKey(SortBy(xs, key)[..n], key, k)| <= |WithKey(xs, key, k)|
    ensures WithKey(SortBy(xs, key)[..n], key, k) == WithKey(xs, key, k)[..|WithKey(SortBy(xs, key)[..n], key, k)|]
  {
    SortByOrdered(xs, key);
    SortByStable(xs, key, k);
    WithKeyPrefix(SortBy(xs, key), n, key, k);
  }

  /** Comments with equal upvotes are shown in their original order, and none is skipped in between. */
  lemma SortCommentsStable(cs: seq<Comment>, limit: int, v: int)
    ensures |Ties(SortComments(cs, "upvotes", limit), v)| <= |Ties(cs, v)|
    ensures Ties(SortComments(cs, "upvotes", limit), v) == Ties(cs, v)[..|Ties(SortComments(cs, "upvotes", limit), v)|]
  {
    var r := SortComments(cs, "upvotes", limit);
    SortedPrefixStable(cs, |r|, NegUpvotes, -v);
    assert r == SortBy(cs, NegUpvotes)[..|r|];
  }


  function Login(author: Option<string>): string
  {
    author.GetOr("unknown")
  }

  /** `createdAt[:10]`, the date part of a timestamp. */
  function Day(timestamp: string): string
  {
    Take(timestamp, 10)
  }

  function StatusLabel(isAnswered: bool): string
  {
    if isAnswered then "Answered" else "Open"
  }

  /** The title block, the metadata and the body. */
  function HeadLines(t: Thread): (r: seq<string>)
    ensures |r| == 9
  {
    ["## " + t.title + "\n",
     "**Category:** " + t.categoryEmoji + " " + t.categoryName,
     "**Author:** @" + Login(t.author),
     "**Created:** " + Day(t.createdAt),
     "**Upvotes:** " + IntToString(t.upvotes),
     "**Status:** " + StatusLabel(t.isAnswered) + "\n",
     "### Body",
     t.body,
     "\n---\n"]
  }

  function AnswerLines(a: Answer): (r: seq<string>)
    ensures |r| == 4
  {
    ["### Accepted Answer",
     "**@" + Login(a.author) + "** (" + Day(a.createdAt) + ") - " + IntToString(a.upvotes) + " upvotes",
     a.body,
     "\n---\n"]
  }

  function SortLabel(sortBy: string): string
  {
    if sortBy == "upvotes" then "by upvotes" else "chronological"
  }

  function CommentsHeader(total: int, shown: nat, sortBy: string): string
  {
    "### Comments (" + IntToString(total) + " total, showing " + NatToString(shown) + " " + SortLabel(sortBy) + ")\n"
  }

  const AnswerTag := " [ANSWER]"

  function AnswerMarker(c: Comment): string
  {
    if c.isAnswer then AnswerTag else ""
  }

  function CommentHead(c: Comment): string
  {
    "**@" + Login(c.author) + "** (" + Day(c.createdAt) + ") - " + IntToString(Upvotes(c)) + " upvotes" + AnswerMarker(c)
  }

  /** A comment's head line carries the answer tag exactly when the comment is the accepted answer. */
  lemma AnswerMarked(c: Comment)
    ensures EndsWith(CommentHead(c), AnswerTag) <==> c.isAnswer
  {
    var h := CommentHead(c);
    var lead := "**@" + Login(c.author) + "** (" + Day(c.createdAt) + ") - " + IntToString(Upvotes(c)) + " upvotes";
    assert h == lead + AnswerMarker(c);
    if c.isAnswer {
      assert h[|h| - |AnswerTag|..] == AnswerTag;
    } else {
      assert h[|h| - 1] == 's';
      assert AnswerTag[8] == ']';
    }
  }

  function ReplyLine(r: Reply): string
  {
    "  > **@" + Login(r.author) + "**: " + r.body + " (" + IntToString(r.upvotes) + " upvotes)"
  }

  function ReplyLines(rs: seq<Reply>): (r: seq<string>)
    ensures |r| == |rs| && forall k :: 0 <= k < |rs| ==> r[k] == ReplyLine(rs[k])
  {
    Mapped(rs, ReplyLine)
  }

  /** One comment: its head line, its body, a line per reply and an empty line. */
  function CommentLines(c: Comment): seq<string>
  {
    [CommentHead(c), c.body] + ReplyLines(c.replies) + [""]
  }

  /** The blocks of the comments, in order. */
  function CommentsLines(cs: seq<Comment>): seq<string>
  {
    if cs == [] then [] else CommentsLines(cs[..|cs| - 1]) + CommentLines(cs[|cs| - 1])
  }

  /** Every shown comment has its head line in the text. */
  lemma {:induction false} CommentListed(cs: seq<Comment>, k: nat)
    requires k < |cs|
    ensures CommentHead(cs[k]) in CommentsLines(cs)
  {
    var last := CommentLines(cs[|cs| - 1]);
    assert CommentsLines(cs) == CommentsLines(cs[..|cs| - 1]) + last;
    if k == |cs| - 1 {
      assert last[0] == CommentHead(cs[k]);
    } else {
      CommentListed(cs[..|cs| - 1], k);
    }
  }

  /** Where the comments header sits: after the head and, when there is one, the accepted answer. */
  function HeaderIndex(t: Thread): nat
  {
    if t.answer.Some? then 13 else 9
  }

  /** The lines `format_discussion` joins with newlines, for a discussion that exists. */
  function ThreadLines(t: Thread, limit: int, sortBy: string): seq<string>
  {
    var shown := SortComments(t.comments, sortBy, limit);
    TopLines(t) + ([CommentsHeader(t.totalComments, |shown|, sortBy)] + CommentsLines(shown))
  }

  /** The head, then the accepted answer when there is one. */
  function TopLines(t: Thread): (r: seq<string>)
    ensures |r| == HeaderIndex(t)
    ensures t.answer.Some? ==> r[9..13] == AnswerLines(t.answer.value)
  {
    var answer := if t.answer.Some? then AnswerLines(t.answer.value) else [];
    PlacedAfter(HeadLines(t), answer);
    HeadLines(t) + answer
  }

  /** `format_discussion`: a missing discussion is reported as such. */
  function DiscussionText(data: Option<Thread>, limit: int, sortBy: string): string
  {
    match data
    case None => "Discussion not found."
    case Some(t) => Join(ThreadLines(t, limit, sortBy), "\n")
  }

  /**
   * The header reports the upstream total and how many comments are shown; the
   * accepted answer, when there is one, comes before it, and the shown comments follow.
   */
  lemma ThreadLayout(t: Thread, limit: int, sortBy: string)
    ensures |ThreadLines(t, limit, sortBy)| > HeaderIndex(t)
    ensures ThreadLines(t, limit, sortBy)[HeaderIndex(t)]
         == CommentsHeader(t.totalComments, |SortComments(t.comments, sortBy, limit)|, sortBy)
    ensures t.answer.Some? ==> ThreadLines(t, limit, sortBy)[9..13] == AnswerLines(t.answer.value)
    ensures ThreadLines(t, limit, sortBy)[HeaderIndex(t) + 1..] == CommentsLines(SortComments(t.comments, sortBy, limit))
  {
    var shown := SortComments(t.comments, sortBy, limit);
    var top := TopLines(t);
    var header := CommentsHeader(t.totalComments, |shown|, sortBy);
    var rest := [header] + CommentsLines(shown);
    PlacedAfter(top, rest);
    assert rest[0] == header && rest[1..] == CommentsLines(shown);
  }

  /** The reply loop: one line per reply, in order. */
  method AppendReplies(lines: seq<string>, rs: seq<Reply>) returns (out: seq<string>)
    ensures out == lines + ReplyLines(rs)
  {
    out := lines;
    var i := 0;
    while i < |rs|
      invariant 0 <= i <= |rs|
      invariant out == lines + ReplyLines(rs[..i])
    {
      MappedSnoc(rs, ReplyLine, i);
      out := out + [ReplyLine(rs[i])];
      i := i + 1;
    }
    assert rs[..i] == rs;
  }

  /** One turn of the comment loop: the comment's head line, its body, its replies and an empty line. */
  method AppendComment(lines: seq<string>, c: Comment) returns (out: seq<string>)
    ensures out == lines + CommentLines(c)
  {
    out := lines + [CommentHead(c), c.body];
    out := AppendReplies(out, c.replies);
    out := out + [""];
  }

  lemma CommentsLinesStep(lines: seq<string>, cs: seq<Comment>, i: nat)
    requires i < |cs|
    ensures (lines + CommentsLines(cs[..i])) + CommentLines(cs[i]) == lines + CommentsLines(cs[..i + 1])
  {
    assert cs[..i + 1][..i] == cs[..i];
    assert CommentsLines(cs[..i + 1]) == CommentsLines(cs[..i]) + CommentLines(cs[i]);
  }

  /** The comment loop of `format_discussion`, with the reply loop inside. */
  method AppendComments(lines: seq<string>, cs: seq<Comment>) returns (out: seq<string>)
    ensures out == lines + CommentsLines(cs)
  {
    out := lines;
    var i := 0;
    while i < |cs|
      invariant 0 <= i <= |cs|
      invariant out == lines + CommentsLines(cs[..i])
    {
      CommentsLinesStep(lines, cs, i);
      out := AppendComment(out, cs[i]);
      i := i + 1;
    }
    assert cs[..i] == cs;
  }

  /** `format_discussion(data, comment_limit, comment_sort)`. */
  method FormatDiscussion(data: Option<Thread>, limit: int, sortBy: string) returns (out: string)
    ensures out == DiscussionText(data, limit, sortBy)
    ensures data.None? ==> out == "Discussion not found."
  {
    if data.None? {
      return "Discussion not found.";
    }
    var lines := FormatThread(data.value, limit, sortBy);
    out := Join(lines, "\n");
  }

  /** What `format_discussion` writes for a discussion that was found. */
  method FormatThread(t: Thread, limit: int, sortBy: string) returns (lines: seq<string>)
    ensures lines == ThreadLines(t, limit, sortBy)
  {
    var top := HeadLines(t);
    if t.answer.Some? {
      top := top + AnswerLines(t.answer.value);
    }
    var shown := SortComments(t.comments, sortBy, limit);
    var rest := AppendComments([CommentsHeader(t.totalComments, |shown|, sortBy)], shown);
    assert top == TopLines(t);
    lines := top + rest;
  }

  /**
   * `get_discussion_workflow`; `fetch` stands for the GraphQL call and receives
   * the clamped comment limit, while the formatter slices by the limit as given.
   */
  method GetDiscussionWorkflow(owner: string, repo: string, number: int, limit: int, sortBy: string,
                               fetch: (string, string, int, int) -> Option<Thread>)
    returns (out: string)
    ensures out == DiscussionText(fetch(owner, repo, number, CommentLimit(limit)), limit, sortBy)
  {
    var data := fetch(owner, repo, number, CommentLimit(limit));
    out := FormatDiscussion(data, limit, sortBy);
  }
}
