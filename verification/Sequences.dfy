/** Taking one entry out of a sequence, and balances of multisets. */
module Sequences {

  function Remove<T>(s: seq<T>, i: nat): (r: seq<T>)
    requires i < |s|
    ensures |r| == |s| - 1
    ensures forall x :: x in r ==> x in s
  {
    s[..i] + s[i + 1..]
  }

  /** Taking out the last entry, or one before it. */
  lemma RemoveLast<T>(s: seq<T>, i: nat)
    requires i < |s|
    ensures var n := |s| - 1;
            if i == n then Remove(s, i) == s[..n]
            else Remove(s, i) == Remove(s[..n], i) + [s[n]]
  {
  }

  lemma RemoveMultiset<T>(s: seq<T>, i: nat)
    requires i < |s|
    ensures multiset(s) == multiset(Remove(s, i)) + multiset{s[i]}
    ensures multiset(Remove(s, i)) == multiset(s) - multiset{s[i]}
  {
    assert s == s[..i] + [s[i]] + s[i + 1..];
  }

  /** Two balances, one after the other. */
  lemma Balance<T>(x: multiset<T>, y: multiset<T>, z: multiset<T>,
                   outA: multiset<T>, outB: multiset<T>, inA: multiset<T>, inB: multiset<T>)
    requires y + outA == x + inA && z + outB == y + inB
    ensures z + (outA + outB) == x + (inA + inB)
  {
    assert z + (outA + outB) == (z + outB) + outA == (y + outA) + inB == x + (inA + inB);
  }
}
