/** Sequences of tags: distinctness and the pigeonhole bound that sizes every buffer. */
module Seqs {
  type Tag = nat

  predicate Distinct(s: seq<Tag>) {
    forall i, j :: 0 <= i < j < |s| ==> s[i] != s[j]
  }

  predicate Below(s: seq<Tag>, n: nat) {
    forall i :: 0 <= i < |s| ==> s[i] < n
  }

  ghost function UpTo(n: nat): (r: set<Tag>)
    ensures forall t: Tag :: t in r <==> t < n
    ensures |r| == n
  {
    if n == 0 then {}
    else
      var r := UpTo(n - 1);
      assert n - 1 !in r;
      r + {n - 1}
  }

  lemma {:induction false} DistinctCard(s: seq<Tag>, u: set<Tag>)
    requires Distinct(s)
    requires forall i :: 0 <= i < |s| ==> s[i] in u
    ensures |s| <= |u|
    decreases |s|
  {
    if s != [] {
      var k := |s| - 1;
      DistinctCard(s[..k], u - {s[k]});
    }
  }

  /** A sequence of distinct tags below n has at most n elements. */
  lemma Pigeonhole(s: seq<Tag>, n: nat)
    requires Distinct(s) && Below(s, n)
    ensures |s| <= n
  {
    DistinctCard(s, UpTo(n));
  }

  /** `align_up` for a power of two: masking the low bits subtracts the remainder. */
  function AlignUp(value: nat, alignment: nat): nat
    requires alignment > 0
  {
    (value + alignment - 1) - (value + alignment - 1) % alignment
  }

  lemma MultipleOf(n: nat, page: nat)
    requires page > 0
    ensures (n * page) % page == 0
  {
    var x := n * page;
    assert x == (x / page) * page + x % page;
    var k := n - x / page;
    assert k * page == x % page;
    assert k > 0 ==> k * page >= page;
    assert k < 0 ==> k * page < 0;
  }

  lemma AlignUpMultiple(a: nat, page: nat)
    requires page > 0
    ensures AlignUp(a, page) % page == 0
  {
    var x := a + page - 1;
    assert x - x % page == (x / page) * page;
    MultipleOf(x / page, page);
  }

  lemma AlignUpBounds(value: nat, alignment: nat)
    requires alignment > 0
    ensures value <= AlignUp(value, alignment) < value + alignment
  {
  }

  // ---------------------------------------------------------------- sums of ranks

  function Total(xs: seq<nat>): nat
    decreases |xs|
  {
    if xs == [] then 0 else Total(xs[..|xs| - 1]) + xs[|xs| - 1]
  }

  lemma {:induction false} TotalDrops(xs: seq<nat>, ys: seq<nat>, t: nat, d: nat)
    requires |xs| == |ys| && t < |xs|
    requires forall u :: 0 <= u < |xs| ==> ys[u] <= xs[u]
    requires ys[t] + d <= xs[t]
    ensures Total(ys) + d <= Total(xs)
    decreases |xs|
  {
    var k := |xs| - 1;
    if t < k {
      TotalDrops(xs[..k], ys[..k], t, d);
    } else if k > 0 {
      TotalDrops(xs[..k], ys[..k], 0, 0);
    }
  }

  lemma {:induction false} TotalRises(xs: seq<nat>, ys: seq<nat>)
    requires |xs| == |ys|
    requires forall u :: 0 <= u < |xs| ==> ys[u] <= xs[u] + 1
    ensures Total(ys) <= Total(xs) + |xs|
    decreases |xs|
  {
    if xs != [] {
      var k := |xs| - 1;
      TotalRises(xs[..k], ys[..k]);
    }
  }
}
