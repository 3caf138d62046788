/** Totals over the count and byte lists kept by the connection table and the applications. */
module Sums {
  import opened Utility

  function Sum(xs: seq<nat>): nat
  {
    if xs == [] then 0 else xs[0] + Sum(xs[1..])
  }

  /** Total size of a list of packets. */
  function Bytes(ps: seq<Packet>): nat
  {
    if ps == [] then 0 else ps[0].size + Bytes(ps[1..])
  }

  lemma {:induction false} SumAppend(xs: seq<nat>, x: nat)
    ensures Sum(xs + [x]) == Sum(xs) + x
  {
    if xs == [] {
      assert [x][1..] == [];
    } else {
      assert (xs + [x])[1..] == xs[1..] + [x];
      SumAppend(xs[1..], x);
    }
  }

  lemma {:induction false} BytesAppend(ps: seq<Packet>, p: Packet)
    ensures Bytes(ps + [p]) == Bytes(ps) + p.size
  {
    if ps == [] {
      assert [p][1..] == [];
    } else {
      assert (ps + [p])[1..] == ps[1..] + [p];
      BytesAppend(ps[1..], p);
    }
  }

  /** Packets of positive size that add up to nothing are no packets at all. */
  lemma {:induction false} BytesZero(ps: seq<Packet>)
    requires forall i :: 0 <= i < |ps| ==> ps[i].size > 0
    requires Bytes(ps) == 0
    ensures ps == []
  {
  }

  /** Taking one from an entry takes one from the total. */
  lemma {:induction false} SumDecrement(xs: seq<nat>, i: nat)
    requires i < |xs| && xs[i] > 0
    ensures Sum(xs[i := xs[i] - 1]) + 1 == Sum(xs)
  {
    if i > 0 {
      assert xs[i := xs[i] - 1][1..] == xs[1..][i - 1 := xs[i] - 1];
      SumDecrement(xs[1..], i - 1);
    }
  }

  /** The sum of a suffix, one entry at a time. */
  lemma SumSuffix(xs: seq<nat>, j: nat)
    requires j < |xs|
    ensures Sum(xs[j..]) == xs[j] + Sum(xs[j + 1..])
  {
    assert xs[j..][1..] == xs[j + 1..];
  }

  /** The sum of a prefix, one entry longer. */
  lemma SumPrefixStep(xs: seq<nat>, i: nat)
    requires i < |xs|
    ensures Sum(xs[..i + 1]) == Sum(xs[..i]) + xs[i]
  {
    assert xs[..i + 1] == xs[..i] + [xs[i]];
    SumAppend(xs[..i], xs[i]);
  }
}
