/** Small facts about sequences shared by the other modules. */
module Sequences {

  /** `sub` is obtained from `s` by deleting elements, keeping the order of the rest. */
  predicate IsSubsequence<T(==)>(sub: seq<T>, s: seq<T>)
    decreases |s|
  {
    if sub == [] then true
    else if s == [] then false
    else if sub[0] == s[0] then IsSubsequence(sub[1..], s[1..])
    else IsSubsequence(sub, s[1..])
  }

  /** Every element of a subsequence occurs in the sequence it was taken from. */
  lemma {:induction false} SubsequenceElements<T>(sub: seq<T>, s: seq<T>, i: nat)
    requires IsSubsequence(sub, s)
    requires i < |sub|
    ensures sub[i] in s
    decreases |s|
  {
    if s == [] {
    } else if sub[0] == s[0] {
      if i > 0 {
        SubsequenceElements(sub[1..], s[1..], i - 1);
      }
    } else {
      SubsequenceElements(sub, s[1..], i);
    }
  }

  /** `n` copies of `x`. */
  function Repeat<T>(x: T, n: nat): (r: seq<T>)
    ensures |r| == n
    ensures forall i :: 0 <= i < n ==> r[i] == x
  {
    if n == 0 then [] else Repeat(x, n - 1) + [x]
  }

  /** No element occurs twice. */
  predicate Distinct<T(==)>(s: seq<T>)
  {
    forall i, j :: 0 <= i < j < |s| ==> s[i] != s[j]
  }

  /** The elements of `order` from index `k` on whose `wanted` flag is set,
      in their order. */
  function ChosenFrom<T>(order: seq<T>, wanted: seq<bool>, k: nat): seq<T>
    requires |wanted| == |order| && k <= |order|
    decreases |order| - k
  {
    if k == |order| then [] else (if wanted[k] then [order[k]] else []) + ChosenFrom(order, wanted, k + 1)
  }

  /** Everything chosen comes from the part of `order` the choice starts at. */
  lemma {:induction false} ChosenFromElements<T>(order: seq<T>, wanted: seq<bool>, k: nat)
    requires |wanted| == |order| && k <= |order|
    ensures forall x :: x in ChosenFrom(order, wanted, k) ==> x in order[k..]
    decreases |order| - k
  {
    if k < |order| {
      ChosenFromElements(order, wanted, k + 1);
      assert order[k..] == [order[k]] + order[k + 1..];
    }
  }

  /** Choosing from a sequence without repetitions keeps the order. */
  lemma {:induction false} ChosenFromIsSubsequence<T>(order: seq<T>, wanted: seq<bool>, k: nat)
    requires |wanted| == |order| && k <= |order|
    requires Distinct(order)
    ensures IsSubsequence(ChosenFrom(order, wanted, k), order[k..])
    decreases |order| - k
  {
    if k < |order| {
      var rest := ChosenFrom(order, wanted, k + 1);
      ChosenFromIsSubsequence(order, wanted, k + 1);
      assert order[k..][1..] == order[k + 1..];
      if wanted[k] {
        assert ([order[k]] + rest)[1..] == rest;
      } else if rest != [] {
        ChosenFromElements(order, wanted, k + 1);
        assert rest[0] in order[k + 1..];
        assert order[k] !in order[k + 1..];
        assert ChosenFrom(order, wanted, k) == rest;
        assert rest[0] != order[k..][0];
      }
    }
  }

  /** Choosing from a sequence without repetitions takes an element exactly
      when it is wanted. */
  lemma {:induction false} ChosenFromMembership<T>(order: seq<T>, wanted: seq<bool>, k: nat)
    requires |wanted| == |order| && k <= |order|
    requires Distinct(order)
    ensures forall i :: k <= i < |order| ==> (order[i] in ChosenFrom(order, wanted, k) <==> wanted[i])
    decreases |order| - k
  {
    if k < |order| {
      ChosenFromMembership(order, wanted, k + 1);
      ChosenFromElements(order, wanted, k + 1);
      assert order[k] !in order[k + 1..];
      forall i | k < i < |order|
        ensures order[i] in ChosenFrom(order, wanted, k) <==> wanted[i]
      {
        assert order[i] != order[k];
      }
    }
  }
}
