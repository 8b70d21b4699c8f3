/** Small facts about sequence concatenation and prefixes, each proved in a
    context of its own. */
module Seqs {

  lemma AppendAssoc<T>(a: seq<T>, b: seq<T>, c: seq<T>)
    ensures a + (b + c) == (a + b) + c
  {
  }

  lemma TakeSnoc<T>(a: seq<T>, x: T, k: nat)
    requires k <= |a|
    ensures (a + [x])[..k] == a[..k]
  {
  }

  lemma TakeTake<T>(s: seq<T>, n: nat)
    requires n < |s|
    ensures s[..n + 1][..n] == s[..n]
  {
  }

  lemma TakeAll<T>(s: seq<T>)
    ensures s[..|s|] == s
  {
  }
}
