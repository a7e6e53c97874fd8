/** Sequence helpers shared by the ledger and the comment views. */
module Seqs {

  /** `Array.prototype.map`: one output per input, in order. */
  function MapSeq<A, B>(f: A -> B, xs: seq<A>): (r: seq<B>)
    ensures |r| == |xs|
    ensures forall i :: 0 <= i < |xs| ==> r[i] == f(xs[i])
  {
    if |xs| == 0 then [] else [f(xs[0])] + MapSeq(f, xs[1..])
  }

  /** Mapping distributes over concatenation. */
  lemma MapSeqAppend<A, B>(f: A -> B, a: seq<A>, b: seq<A>)
    ensures MapSeq(f, a + b) == MapSeq(f, a) + MapSeq(f, b)
  {
    var l, r := MapSeq(f, a + b), MapSeq(f, a) + MapSeq(f, b);
    assert forall i :: 0 <= i < |l| ==> l[i] == r[i];
  }
}
