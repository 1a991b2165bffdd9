/** Sequence algebra that the solver does not do cheaply on concrete texts. */
module Sequences {
  lemma Regroup<T>(a: seq<T>, b: seq<T>, c: seq<T>)
    ensures a + (b + c) == a + b + c
  {
  }

  lemma Suffix<T>(s: seq<T>, i: nat, n: nat)
    requires i + n <= |s|
    ensures s[i..][n..] == s[i + n..]
    ensures forall k :: 0 <= k < |s| - i ==> s[i..][k] == s[i + k]
  {
  }
}
