/** Order-keeping sub-sequences, the shape of every "filter a list" and
    "append only some of these messages" step in the services. */
module Seqs {

  /** `a` is `b` with some elements left out, the rest in their order. */
  predicate IsSubseq<T(==)>(a: seq<T>, b: seq<T>)
    decreases |b|
  {
    if a == [] then true
    else if b == [] then false
    else (a[0] == b[0] && IsSubseq(a[1..], b[1..])) || IsSubseq(a, b[1..])
  }

  /** Keeping an element or dropping it both stay within a sequence that
      has that element in front. */
  lemma SubseqCons<T>(keep: bool, x: T, a: seq<T>, b: seq<T>)
    requires IsSubseq(a, b)
    ensures IsSubseq((if keep then [x] else []) + a, [x] + b)
  {
    if keep {
      assert ([x] + a)[1..] == a;
      assert ([x] + b)[1..] == b;
    } else {
      assert (if keep then [x] else []) + a == a;
      if a != [] {
        assert ([x] + b)[1..] == b;
      }
    }
  }
}
