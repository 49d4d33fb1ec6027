/** Order-preserving sub-sequences, used to state that a filter keeps the original order. */
module Seqs {

  /** `ys` is obtained from `xs` by deleting zero or more elements, keeping the order of the rest. */
  ghost predicate Subsequence<T>(ys: seq<T>, xs: seq<T>)
    decreases |xs|
  {
    if ys == [] then true
    else if xs == [] then false
    else if ys[0] == xs[0] then Subsequence(ys[1..], xs[1..])
    else Subsequence(ys, xs[1..])
  }

  lemma {:induction false} SubsequenceRefl<T>(xs: seq<T>)
    ensures Subsequence(xs, xs)
    decreases |xs|
  {
    if xs != [] {
      SubsequenceRefl(xs[1..]);
    }
  }

  /** Keeping the head of both sequences preserves the relation. */
  lemma {:induction false} SubsequenceCons<T>(x: T, ys: seq<T>, xs: seq<T>)
    requires Subsequence(ys, xs)
    ensures Subsequence([x] + ys, [x] + xs)
  {
    assert ([x] + ys)[1..] == ys;
    assert ([x] + xs)[1..] == xs;
  }

  /** Dropping the head of the longer sequence preserves the relation. */
  lemma {:induction false} SubsequenceSkip<T>(x: T, ys: seq<T>, xs: seq<T>)
    requires Subsequence(ys, xs)
    ensures Subsequence(ys, [x] + xs)
    decreases |xs|, 1
  {
    assert ([x] + xs)[1..] == xs;
    if ys != [] && ys[0] == x {
      // the relation then holds by matching x; prove Subsequence(ys[1..], xs) from Subsequence(ys, xs)
      SubsequenceTail(ys, xs);
    }
  }

  /** A sub-sequence without its head is a sub-sequence too. */
  lemma {:induction false} SubsequenceTail<T>(ys: seq<T>, xs: seq<T>)
    requires ys != [] && Subsequence(ys, xs)
    ensures Subsequence(ys[1..], xs)
    decreases |xs|, 0
  {
    if ys[0] == xs[0] {
      SubsequenceSkip(xs[0], ys[1..], xs[1..]);
      assert [xs[0]] + xs[1..] == xs;
    } else {
      SubsequenceTail(ys, xs[1..]);
      SubsequenceSkip(xs[0], ys[1..], xs[1..]);
      assert [xs[0]] + xs[1..] == xs;
    }
  }
}
