/** The one loop shape the provider repeats everywhere:
    `out := make([]B, 0, len(in)); for _, x := range in { out = append(out, f(x)) }`. */
module Seqs {

  /** The list the loop builds: one f-image per input element, in input order. */
  function Map<A, B>(s: seq<A>, f: A -> B): (r: seq<B>)
    ensures |r| == |s|
    ensures forall i :: 0 <= i < |s| ==> r[i] == f(s[i])
  {
    if s == [] then [] else [f(s[0])] + Map(s[1..], f)
  }

  /** The append loop itself. */
  method Collect<A, B>(s: seq<A>, f: A -> B) returns (r: seq<B>)
    ensures r == Map(s, f)
  {
    r := [];
    var i := 0;
    while i < |s|
      invariant 0 <= i <= |s|
      invariant |r| == i
      invariant forall j :: 0 <= j < i ==> r[j] == f(s[j])
    {
      r := r + [f(s[i])];
      i := i + 1;
    }
  }

  /** Mapping with f and then with a left inverse g of f gives the input back. */
  lemma {:induction false} MapInverse<A, B>(s: seq<A>, f: A -> B, g: B -> A)
    requires forall x :: g(f(x)) == x
    ensures Map(Map(s, f), g) == s
  {
    if s != [] {
      MapInverse(s[1..], f, g);
      assert Map(s, f)[1..] == Map(s[1..], f);
    }
  }
}
