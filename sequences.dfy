/**
 * Facts about sequences and their multisets that the shuffle and the
 * question bank both rely on.
 */
module Sequences {

  /** No element occurs twice. */
  ghost predicate Distinct<T>(s: seq<T>) {
    forall i, j :: 0 <= i < j < |s| ==> s[i] != s[j]
  }

  /** Removing the element at `i` removes one occurrence of it from the multiset. */
  lemma RemoveAt<T>(s: seq<T>, i: nat)
    requires i < |s|
    ensures multiset(s[..i] + s[i + 1..]) == multiset(s) - multiset{s[i]}
  {
    assert s == s[..i] + [s[i]] + s[i + 1..];
  }

  /** Taking the first element of `q` out of its permutation `r` leaves a
      permutation of the rest of `q`. */
  lemma RemoveMatching<T>(q: seq<T>, r: seq<T>, i: nat)
    requires q != [] && i < |r| && r[i] == q[0] && multiset(q) == multiset(r)
    ensures multiset(r[..i] + r[i + 1..]) == multiset(q[1..])
  {
    calc {
      multiset(r[..i] + r[i + 1..]);
      { RemoveAt(r, i); }
      multiset(r) - multiset{r[i]};
      multiset(q) - multiset{q[0]};
      { RemoveAt(q, 0); }
      multiset(q[..0] + q[1..]);
      { assert q[..0] + q[1..] == q[1..]; }
      multiset(q[1..]);
    }
  }

  /** Two sequences that end in the same element and are permutations of each
      other stay permutations without it. */
  lemma CancelLast<T>(a: seq<T>, b: seq<T>, x: T)
    requires multiset(a + [x]) == multiset(b + [x])
    ensures multiset(a) == multiset(b)
  {
    calc {
      multiset(a);
      multiset(a) + multiset{x} - multiset{x};
      multiset(a + [x]) - multiset{x};
      multiset(b + [x]) - multiset{x};
      multiset(b) + multiset{x} - multiset{x};
      multiset(b);
    }
  }

  /** A sequence of at most one element is its own only permutation. */
  lemma SingletonPermutation<T>(s: seq<T>, t: seq<T>)
    requires |s| <= 1 && multiset(s) == multiset(t)
    ensures s == t
  {
    assert |t| == |multiset(t)| == |s|;
    if |s| == 1 {
      assert multiset(s) == multiset{s[0]} && multiset(t) == multiset{t[0]};
      assert s[0] in multiset(t);
    }
  }
}
