/**
 * The shape shared by the text formatters: an `enumerate(xs, 1)` loop that
 * writes one block of lines per element, and its variant in which each element
 * must first be taken apart and the first one that cannot be aborts the loop.
 */
module Blocks {
  import opened Wrappers

  /** The blocks `f(1, xs[0]) + f(2, xs[1]) + ...` of an `enumerate(xs, 1)` loop. */
  function NumberedBlocks<T, U>(xs: seq<T>, f: (nat, T) -> seq<U>): seq<U>
  {
    if xs == [] then [] else NumberedBlocks(xs[..|xs| - 1], f) + f(|xs|, xs[|xs| - 1])
  }

  /** Blocks of width `w` take `w` elements per input. */
  lemma {:induction false} BlocksLength<T, U>(xs: seq<T>, f: (nat, T) -> seq<U>, w: nat)
    requires forall i: nat, x: T :: |f(i, x)| == w
    ensures |NumberedBlocks(xs, f)| == w * |xs|
  {
    if xs != [] {
      BlocksLength(xs[..|xs| - 1], f, w);
      assert w * |xs| == w * (|xs| - 1) + w;
    }
  }

  /** With blocks of width `w`, elements `w * k` to `w * k + w - 1` are the block of `xs[k]`, numbered `k + 1`. */
  lemma {:induction false} BlockAt<T, U>(xs: seq<T>, f: (nat, T) -> seq<U>, w: nat, k: nat)
    requires forall i: nat, x: T :: |f(i, x)| == w
    requires k < |xs|
    ensures |NumberedBlocks(xs, f)| == w * |xs|
    ensures w * k + w <= w * |xs|
    ensures NumberedBlocks(xs, f)[w * k..w * k + w] == f(k + 1, xs[k])
  {
    assert w * k + w <= w * |xs| by {
      assert w * (k + 1) == w * k + w;
      MulMonotone(w, k + 1, |xs|);
    }
    var init := xs[..|xs| - 1];
    var front := NumberedBlocks(init, f);
    BlocksLength(xs, f, w);
    BlocksLength(init, f, w);
    assert NumberedBlocks(xs, f) == front + f(|xs|, xs[|xs| - 1]);
    if k < |xs| - 1 {
      BlockAt(init, f, w, k);
      assert init[k] == xs[k];
      assert w * k + w <= w * (|xs| - 1) by {
        assert w * (k + 1) == w * k + w;
        MulMonotone(w, k + 1, |xs| - 1);
      }
    } else {
      assert w * k == |front|;
    }
  }

  lemma MulMonotone(w: nat, a: nat, b: nat)
    requires a <= b
    ensures w * a <= w * b
  {
    assert w * b == w * a + w * (b - a);
  }

  /** `f` can be applied to every element. */
  ghost predicate Defined<T, U>(xs: seq<T>, f: T --> seq<U>)
  {
    forall k :: 0 <= k < |xs| ==> f.requires(xs[k])
  }

  /** The blocks `f(xs[0]) + f(xs[1]) + ...` of a loop that writes one block per element. */
  function Concatenated<T, U>(xs: seq<T>, f: T --> seq<U>): seq<U>
    requires Defined(xs, f)
  {
    if xs == [] then []
    else
      assert forall k :: 0 <= k < |xs| - 1 ==> xs[..|xs| - 1][k] == xs[k];
      Concatenated(xs[..|xs| - 1], f) + f(xs[|xs| - 1])
  }

  /** One more element, its block at the end. */
  lemma ConcatenatedSnoc<T, U>(xs: seq<T>, i: nat, f: T --> seq<U>)
    requires i < |xs| && Defined(xs, f)
    ensures Defined(xs[..i], f) && Defined(xs[..i + 1], f)
    ensures Concatenated(xs[..i + 1], f) == Concatenated(xs[..i], f) + f(xs[i])
  {
    assert forall k :: 0 <= k < i ==> xs[..i][k] == xs[k];
    assert forall k :: 0 <= k < i + 1 ==> xs[..i + 1][k] == xs[k];
    assert xs[..i + 1][..i] == xs[..i];
  }

  /** The first element's block opens the blocks. */
  lemma {:induction false} ConcatenatedStarts<T, U>(xs: seq<T>, f: T --> seq<U>)
    requires xs != [] && Defined(xs, f)
    ensures |f(xs[0])| <= |Concatenated(xs, f)| && Concatenated(xs, f)[..|f(xs[0])|] == f(xs[0])
  {
    var init := xs[..|xs| - 1];
    assert forall k :: 0 <= k < |init| ==> init[k] == xs[k];
    if init != [] {
      ConcatenatedStarts(init, f);
      assert init[0] == xs[0];
    }
  }

  /** `[f(x) for x in xs]`. */
  function Mapped<T, U>(xs: seq<T>, f: T -> U): (r: seq<U>)
    ensures |r| == |xs| && forall k :: 0 <= k < |xs| ==> r[k] == f(xs[k])
  {
    seq(|xs|, k requires 0 <= k < |xs| => f(xs[k]))
  }

  /** One more element, one more image at the end. */
  lemma MappedSnoc<T, U>(xs: seq<T>, f: T -> U, i: nat)
    requires i < |xs|
    ensures Mapped(xs[..i + 1], f) == Mapped(xs[..i], f) + [f(xs[i])]
  {
  }

  /**
   * The blocks from position `i` on, numbered from `i + 1`, where the block of
   * an element needs the value `name` takes from it; the first element `name`
   * rejects aborts with its error.
   */
  function TryBlocks<T, N, U, E>(xs: seq<T>, i: nat, name: T -> Result<N, E>, block: (nat, T, N) -> seq<U>): Result<seq<U>, E>
    decreases |xs| - i
  {
    if i >= |xs| then Ok([])
    else
      match name(xs[i])
      case Err(e) => Err(e)
      case Ok(n) =>
        match TryBlocks(xs, i + 1, name, block)
        case Err(e) => Err(e)
        case Ok(rest) => Ok(block(i + 1, xs[i], n) + rest)
  }

  /** The lines already written in front of a result, or its error. */
  function Prepend<U, E>(acc: seq<U>, r: Result<seq<U>, E>): (p: Result<seq<U>, E>)
    ensures p.Ok? <==> r.Ok?
    ensures r.Ok? ==> p.value == acc + r.value
    ensures r.Err? ==> p.error == r.error
  {
    match r
    case Ok(v) => Ok(acc + v)
    case Err(e) => Err(e)
  }

  /** Nothing written in front leaves the result as it is. */
  lemma PrependNothing<U, E>(r: Result<seq<U>, E>)
    ensures Prepend([], r) == r
  {
    if r.Ok? {
      assert [] + r.value == r.value;
    }
  }

  /** Writing `b` after `acc` and then the result is writing `acc + b` and then the result. */
  lemma PrependTwice<U, E>(acc: seq<U>, b: seq<U>, r: Result<seq<U>, E>)
    ensures Prepend(acc, Prepend(b, r)) == Prepend(acc + b, r)
  {
    if r.Ok? {
      assert acc + (b + r.value) == (acc + b) + r.value;
    }
  }

  /** The blocks fail exactly when `name` rejects some element from `i` on. */
  lemma {:induction false} TryBlocksFails<T, N, U, E>(xs: seq<T>, i: nat, name: T -> Result<N, E>, block: (nat, T, N) -> seq<U>)
    ensures TryBlocks(xs, i, name, block).Err? <==> exists k :: i <= k < |xs| && name(xs[k]).Err?
    decreases |xs| - i
  {
    if i < |xs| {
      TryBlocksFails(xs, i + 1, name, block);
      if name(xs[i]).Ok? && exists k :: i <= k < |xs| && name(xs[k]).Err? {
        var k :| i <= k < |xs| && name(xs[k]).Err?;
        assert i + 1 <= k;
      }
    }
  }

  /** The error is the one of the first element `name` rejects. */
  lemma TryBlocksFirstError<T, N, U, E>(xs: seq<T>, i: nat, name: T -> Result<N, E>, block: (nat, T, N) -> seq<U>)
    requires i < |xs| && name(xs[i]).Err?
    ensures TryBlocks(xs, i, name, block) == Err(name(xs[i]).error)
  {
  }

  /** One turn of the loop: the element's block moves from the remaining blocks to the lines written. */
  lemma TryBlocksStep<T, N, U, E>(acc: seq<U>, xs: seq<T>, i: nat, name: T -> Result<N, E>, block: (nat, T, N) -> seq<U>)
    requires i < |xs| && name(xs[i]).Ok?
    ensures Prepend(acc, TryBlocks(xs, i, name, block))
         == Prepend(acc + block(i + 1, xs[i], name(xs[i]).value), TryBlocks(xs, i + 1, name, block))
  {
    var r := TryBlocks(xs, i + 1, name, block);
    if r.Ok? {
      var b := block(i + 1, xs[i], name(xs[i]).value);
      assert acc + (b + r.value) == (acc + b) + r.value;
    }
  }

  /** When the blocks succeed, every element was taken apart and each line of its block is there. */
  lemma {:induction false} BlockListed<T, N, U, E>(xs: seq<T>, i: nat, name: T -> Result<N, E>, block: (nat, T, N) -> seq<U>, k: nat)
    requires TryBlocks(xs, i, name, block).Ok? && i <= k < |xs|
    ensures name(xs[k]).Ok?
    ensures forall x :: x in block(k + 1, xs[k], name(xs[k]).value) ==> x in TryBlocks(xs, i, name, block).value
    decreases |xs| - i
  {
    var rest := TryBlocks(xs, i + 1, name, block);
    if k > i {
      BlockListed(xs, i + 1, name, block, k);
    }
  }
}
