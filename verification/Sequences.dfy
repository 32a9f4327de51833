/** Sums of numbers and concatenations of sequences. */
module Sequences {
  function Sum(xs: seq<nat>): nat {
    if xs == [] then 0 else Sum(xs[..|xs| - 1]) + xs[|xs| - 1]
  }

  lemma {:induction false} SumUpdate(xs: seq<nat>, i: nat, v: nat)
    requires i < |xs|
    ensures Sum(xs[i := v]) == Sum(xs) - xs[i] + v
  {
    var n := |xs| - 1;
    if i == n {
      assert xs[i := v][..n] == xs[..n];
    } else {
      SumUpdate(xs[..n], i, v);
      assert xs[i := v][..n] == xs[..n][i := v];
    }
  }

  lemma {:induction false} SumOfEqual(xs: seq<nat>, v: nat)
    requires forall i | 0 <= i < |xs| :: xs[i] <= v
    ensures Sum(xs) <= |xs| * v
    ensures Sum(xs) == |xs| * v <==> forall i | 0 <= i < |xs| :: xs[i] == v
  {
    if xs != [] {
      SumOfEqual(xs[..|xs| - 1], v);
      assert |xs| * v == (|xs| - 1) * v + v;
    }
  }

  function Join<T>(chunks: seq<seq<T>>): seq<T> {
    if chunks == [] then [] else chunks[0] + Join(chunks[1..])
  }

  lemma JoinNone<T>()
    ensures Join<T>([]) == []
  {
  }

  lemma {:induction false} JoinSnoc<T>(chunks: seq<seq<T>>, last: seq<T>)
    ensures Join(chunks + [last]) == Join(chunks) + last
  {
    if chunks == [] {
      assert [last][1..] == [] && Join<T>([]) == [];
    } else {
      JoinSnoc(chunks[1..], last);
      assert (chunks + [last])[1..] == chunks[1..] + [last];
    }
  }
}
