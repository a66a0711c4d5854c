/** Sequence facts used to enumerate the selection space: duplicate-freedom
    and the nested-loop product of two lists. */
module Seqs {

  /** No element occurs twice. */
  predicate Distinct<T(==)>(s: seq<T>) {
    forall i, j :: 0 <= i < j < |s| ==> s[i] != s[j]
  }

  /** Pairs `x` with every element of `ys`, in the order of `ys`. */
  function Row<A, B>(x: A, ys: seq<B>): (r: seq<(A, B)>)
    ensures |r| == |ys|
    ensures forall j :: 0 <= j < |ys| ==> r[j] == (x, ys[j])
  {
    seq(|ys|, j requires 0 <= j < |ys| => (x, ys[j]))
  }

  /** The pairs visited by `xs.forEach(x => ys.forEach(y => ...))`, in visiting
      order: all of `x = xs[0]` first, then `xs[1]`, and so on. Every pair of the
      product occurs, nothing else does, and when both lists are duplicate-free
      each pair occurs once. */
  function Pairs<A(==,!new), B(==,!new)>(xs: seq<A>, ys: seq<B>): (r: seq<(A, B)>)
    ensures |r| == |xs| * |ys|
    ensures forall x, y :: (x, y) in r <==> x in xs && y in ys
    ensures Distinct(xs) && Distinct(ys) ==> Distinct(r)
  {
    if |xs| == 0 then []
    else
      var row := Row(xs[0], ys);
      var rest := Pairs(xs[1..], ys);
      assert |xs| * |ys| == |ys| + (|xs| - 1) * |ys|;
      assert forall x :: x in xs <==> x == xs[0] || x in xs[1..];
      if Distinct(xs) && Distinct(ys) then
        DistinctConcat(row, rest);
        row + rest
      else
        row + rest
  }

  /** Two duplicate-free sequences with no common element concatenate to a
      duplicate-free sequence. */
  lemma {:induction false} DistinctConcat<T>(a: seq<T>, b: seq<T>)
    requires Distinct(a) && Distinct(b)
    requires forall x :: x in a ==> x !in b
    ensures Distinct(a + b)
  {
    var c := a + b;
    forall i, j | 0 <= i < j < |c|
      ensures c[i] != c[j]
    {
      if i < |a| && |a| <= j {
        assert c[i] in a && c[j] == b[j - |a|];
      } else if |a| <= i {
        assert c[i] == b[i - |a|] && c[j] == b[j - |a|];
      }
    }
  }
}
