/** The host's tail reduction: the device leaves one partial result per
    work-group in a mapped buffer, and the host folds the first few of them
    into the caller's initial value, in ascending work-group order. */
module TailReduction {

  /** Left fold: `f(...f(f(init, xs[0]), xs[1])..., xs[|xs|-1])`. */
  function FoldLeft<A, B>(f: (A, B) -> A, init: A, xs: seq<B>): A
    decreases |xs|
  {
    if xs == [] then init else FoldLeft(f, f(init, xs[0]), xs[1..])
  }

  /** Folding one more element on the right applies `f` once more at the end. */
  lemma {:induction false} FoldLeftSnoc<A, B>(f: (A, B) -> A, init: A, xs: seq<B>, x: B)
    ensures FoldLeft(f, init, xs + [x]) == f(FoldLeft(f, init, xs), x)
    decreases |xs|
  {
    if xs == [] {
      assert [] + [x] == [x];
    } else {
      assert (xs + [x])[1..] == xs[1..] + [x];
      FoldLeftSnoc(f, f(init, xs[0]), xs[1..], x);
    }
  }

  /** The fold depends only on the values `f` takes, not on how it is written. */
  lemma {:induction false} FoldLeftPointwise<A, B>(f: (A, B) -> A, g: (A, B) -> A, init: A, xs: seq<B>)
    requires forall a, b :: f(a, b) == g(a, b)
    ensures FoldLeft(f, init, xs) == FoldLeft(g, init, xs)
    decreases |xs|
  {
    if xs != [] {
      FoldLeftPointwise(f, g, f(init, xs[0]), xs[1..]);
    }
  }

  /** Folding with an operator that only records what it is given yields the
      slots in the order visited: the fold visits every slot once, in
      ascending index order. The recorder's accumulator type differs from its
      slot type, so this is a fact about `FoldLeft`; it carries over to the
      host loop because `TailReduce` is proved equal to that fold. */
  lemma {:induction false} FoldVisitsInOrder<B>(trace: seq<B>, xs: seq<B>)
    ensures FoldLeft((t: seq<B>, x: B) => t + [x], trace, xs) == trace + xs
    decreases |xs|
  {
    if xs != [] {
      FoldVisitsInOrder(trace + [xs[0]], xs[1..]);
      assert trace + [xs[0]] + xs[1..] == trace + xs;
    }
  }

  /** The loop at the end of transform_reduce_enqueue: starting from `init`,
      combine the accumulator with each of the first `numTailReduce` partial
      results in turn. */
  method TailReduce<T>(hResult: array<T>, numTailReduce: nat, init: T, reduceOp: (T, T) -> T)
    returns (acc: T)
    requires numTailReduce <= hResult.Length
    ensures acc == FoldLeft(reduceOp, init, hResult[..numTailReduce])
  {
    acc := init;
    var i := 0;
    while i < numTailReduce
      invariant 0 <= i <= numTailReduce
      invariant acc == FoldLeft(reduceOp, init, hResult[..i])
    {
      FoldLeftSnoc(reduceOp, init, hResult[..i], hResult[i]);
      assert hResult[..i + 1] == hResult[..i] + [hResult[i]];
      acc := reduceOp(acc, hResult[i]);
      i := i + 1;
    }
  }
}
