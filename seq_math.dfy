/** Sums, products and zero rows over sequences, as `sum(...)` / `np.sum`, `math.prod` and `torch.zeros` compute them. */
module SeqMath {

  function Sum(s: seq<int>): (r: int)
    ensures (forall i :: 0 <= i < |s| ==> s[i] >= 0) ==> r >= 0
  {
    if s == [] then 0 else s[0] + Sum(s[1..])
  }

  /** A row of `width` zeros, as `torch.zeros(width)`. */
  function Zeros(width: nat): (r: seq<real>)
    ensures |r| == width && forall i :: 0 <= i < width ==> r[i] == 0.0
  {
    seq(width, _ => 0.0)
  }

  /** `math.prod`: the empty product is 1. */
  function Prod(s: seq<int>): int {
    if s == [] then 1 else s[0] * Prod(s[1..])
  }

  /** A product of positive factors is positive. */
  lemma {:induction false} ProdPositive(s: seq<int>)
    requires forall i :: 0 <= i < |s| ==> s[i] > 0
    ensures Prod(s) > 0
  {
    if s != [] {
      ProdPositive(s[1..]);
    }
  }

  lemma {:induction false} SumAppend(a: seq<int>, b: seq<int>)
    ensures Sum(a + b) == Sum(a) + Sum(b)
  {
    if a != [] {
      assert (a + b)[1..] == a[1..] + b;
      SumAppend(a[1..], b);
    } else {
      assert a + b == b;
    }
  }
}
