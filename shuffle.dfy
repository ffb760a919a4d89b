/**
 * The Fisher-Yates shuffle used to randomise the question order of a session.
 *
 * The random draws are a parameter: `draws[k]` is the index `j` drawn on the
 * k-th pass of the loop, the pass that handles position `i = n - 1 - k`, and
 * `Math.floor(Math.random() * (i + 1))` always lies in `[0, i]`.
 */
module Shuffle {
  import opened Sequences

  /** The draws one run of the shuffle consumes on an input of length `n`:
      one per position from `n - 1` down to 1, each within `[0, i]`. */
  predicate ValidDraws(n: nat, draws: seq<nat>) {
    if n <= 1 then draws == []
    else |draws| == n - 1 && draws[0] < n && ValidDraws(n - 1, draws[1..])
  }

  /** `s` with the elements at `i` and `j` exchanged. */
  function Swap<T>(s: seq<T>, i: nat, j: nat): (r: seq<T>)
    requires i < |s| && j < |s|
    ensures |r| == |s| && r[i] == s[j] && r[j] == s[i]
    ensures forall k :: 0 <= k < |s| && k != i && k != j ==> r[k] == s[k]
  {
    s[i := s[j]][j := s[i]]
  }

  /** What the shuffle produces from `s` with the given draws: the last
      position receives `s[draws[0]]`, and the rest of the result is the
      shuffle of the remaining prefix with the remaining draws. */
  function Shuffled<T>(s: seq<T>, draws: seq<nat>): (r: seq<T>)
    requires ValidDraws(|s|, draws)
    ensures |r| == |s|
    decreases |s|
  {
    if |s| <= 1 then s
    else
      var n := |s|;
      var t := Swap(s, n - 1, draws[0]);
      Shuffled(t[..n - 1], draws[1..]) + [t[n - 1]]
  }

  /** Swapping two positions keeps the same elements. */
  lemma SwapIsPermutation<T>(s: seq<T>, i: nat, j: nat)
    requires i < |s| && j < |s|
    ensures multiset(Swap(s, i, j)) == multiset(s)
  {
  }

  /** One pass of the shuffle: unfolding Shuffled once. */
  lemma ShuffledUnfold<T>(s: seq<T>, draws: seq<nat>)
    requires |s| >= 2 && ValidDraws(|s|, draws)
    ensures draws[0] < |s| && ValidDraws(|s| - 1, draws[1..])
    ensures Shuffled(s, draws)
            == Shuffled(Swap(s, |s| - 1, draws[0])[..|s| - 1], draws[1..]) + [s[draws[0]]]
  {
  }

  /** The outcome a partly shuffled array is headed for: the pending prefix
      `a[..i + 1]` still to be shuffled with the remaining draws `rest`, in front
      of the positions already fixed. */
  function Pending<T>(a: seq<T>, i: nat, rest: seq<nat>): (r: seq<T>)
    requires i < |a| && ValidDraws(i + 1, rest)
    ensures |r| == |a|
  {
    Shuffled(a[..i + 1], rest) + a[i + 1..]
  }

  /** The loop step of ShuffleArray: swapping positions `i` and `rest[0]` moves
      position `i` from the pending prefix to the fixed suffix without changing
      the outcome. */
  lemma PassAt<T>(a: seq<T>, i: nat, rest: seq<nat>)
    requires 0 < i < |a| && ValidDraws(i + 1, rest)
    ensures rest[0] <= i && ValidDraws(i, rest[1..])
    ensures Pending(a, i, rest) == Pending(Swap(a, i, rest[0]), i - 1, rest[1..])
  {
    var j := rest[0];
    var b := Swap(a, i, j);
    ShuffledUnfold(a[..i + 1], rest);
    assert Swap(a[..i + 1], i, j)[..i] == b[..i];
    assert b[i..] == [a[j]] + a[i + 1..];
  }

  /** The loop of `shuffleArray`: for `i` from the last index down to 1, swap
      position `i` with the drawn position `j` in `[0, i]`. */
  method ShuffleInPlace<T>(a: array<T>, draws: seq<nat>)
    requires ValidDraws(a.Length, draws)
    modifies a
    ensures a[..] == Shuffled(old(a[..]), draws)
  {
    var n := a.Length;
    ghost var original := a[..];
    ghost var target := Shuffled(original, draws);
    if n > 0 {
      assert original[..n] == original;
      assert Pending(original, n - 1, draws) == target;
    }
    var i := n - 1;
    while i > 0
      invariant -1 <= i < n && (i == -1 <==> n == 0)
      invariant ValidDraws(i + 1, draws[n - 1 - i..])
      invariant i >= 0 ==> Pending(a[..], i, draws[n - 1 - i..]) == target
      decreases i
    {
      var j := draws[n - 1 - i];
      ghost var before, rest := a[..], draws[n - 1 - i..];
      PassAt(before, i, rest);
      a[i], a[j] := a[j], a[i];
      assert a[..] == Swap(before, i, j);
      assert rest[1..] == draws[n - i..];
      i := i - 1;
    }
    if n > 0 {
      assert a[..][..1] + a[..][1..] == a[..];
    }
    assert a[..] == target;
  }

  /** `shuffleArray`: shuffles a fresh copy of the input, which is left as it
      was; the copy ends up a permutation of the input. */
  method ShuffleArray<T>(input: array<T>, draws: seq<nat>) returns (newArray: array<T>)
    requires ValidDraws(input.Length, draws)
    ensures fresh(newArray)
    ensures newArray[..] == Shuffled(input[..], draws)
    ensures multiset(newArray[..]) == multiset(input[..])
    ensures input[..] == old(input[..])
  {
    var n := input.Length;
    newArray := new T[n](k requires 0 <= k < n reads input => input[k]);
    assert newArray[..] == input[..];
    ShuffleInPlace(newArray, draws);
    ShuffledIsPermutation(input[..], draws);
  }

  /** The shuffle only rearranges: its result holds the same elements, each
      as often as in the input. */
  lemma {:induction false} ShuffledIsPermutation<T>(s: seq<T>, draws: seq<nat>)
    requires ValidDraws(|s|, draws)
    ensures multiset(Shuffled(s, draws)) == multiset(s)
    decreases |s|
  {
    if |s| > 1 {
      ShuffledUnfold(s, draws);
      var front := Swap(s, |s| - 1, draws[0])[..|s| - 1];
      ShuffledIsPermutation(front, draws[1..]);
      PassIsPermutation(s, draws[0], Shuffled(front, draws[1..]));
    }
  }

  /** One pass keeps the elements: a rearrangement of the prefix left by the
      swap, followed by the element swapped to the end, is a permutation of `s`. */
  lemma PassIsPermutation<T>(s: seq<T>, j: nat, r: seq<T>)
    requires j < |s| && |s| >= 1
    requires multiset(r) == multiset(Swap(s, |s| - 1, j)[..|s| - 1])
    ensures multiset(r + [s[j]]) == multiset(s)
  {
    var n := |s|;
    var t := Swap(s, n - 1, j);
    SwapIsPermutation(s, n - 1, j);
    assert t == t[..n - 1] + [s[j]];
  }

  /** The first pass can bring any element of `s` to the last position; what
      is left in front is then a permutation of the rest of `t`. */
  lemma PickLast<T>(s: seq<T>, t: seq<T>) returns (j: nat)
    requires |s| >= 2 && multiset(s) == multiset(t)
    ensures |t| == |s| && j < |s| && s[j] == t[|s| - 1]
    ensures multiset(Swap(s, |s| - 1, j)[..|s| - 1]) == multiset(t[..|s| - 1])
  {
    var n := |s|;
    assert |t| == |multiset(t)| == n;
    var x := t[n - 1];
    assert t == t[..n - 1] + [x];
    assert x in multiset(s);
    j :| 0 <= j < n && s[j] == x;
    var u := Swap(s, n - 1, j);
    SwapIsPermutation(s, n - 1, j);
    assert u == u[..n - 1] + [x];
    CancelLast(u[..n - 1], t[..n - 1], x);
  }

  /** A draw `j` for the first pass followed by draws `rest` that arrange the
      remaining prefix as `t[..n - 1]` arrange all of `s` as `t`. */
  lemma PrependDraw<T>(s: seq<T>, j: nat, rest: seq<nat>, t: seq<T>)
    requires |s| >= 2 && j < |s| && |t| == |s| && t[|s| - 1] == s[j]
    requires ValidDraws(|s| - 1, rest)
    requires Shuffled(Swap(s, |s| - 1, j)[..|s| - 1], rest) == t[..|s| - 1]
    ensures ValidDraws(|s|, [j] + rest) && Shuffled(s, [j] + rest) == t
  {
    var draws := [j] + rest;
    assert draws[1..] == rest;
    ShuffledUnfold(s, draws);
    assert t == t[..|s| - 1] + [s[j]];
  }

  /** Draws that make the shuffle arrange `s` as its permutation `t`, built
      from the last position backwards. */
  lemma {:induction false} DrawsFor<T>(s: seq<T>, t: seq<T>) returns (draws: seq<nat>)
    requires multiset(s) == multiset(t)
    ensures ValidDraws(|s|, draws) && Shuffled(s, draws) == t
    decreases |s|
  {
    if |s| <= 1 {
      SingletonPermutation(s, t);
      draws := [];
    } else {
      var j := PickLast(s, t);
      var rest := DrawsFor(Swap(s, |s| - 1, j)[..|s| - 1], t[..|s| - 1]);
      PrependDraw(s, j, rest, t);
      draws := [j] + rest;
    }
  }

  /** Every arrangement of the input can come out of the shuffle: for each
      permutation `t` of `s` some admissible sequence of draws produces it. */
  lemma EveryPermutationReachable<T>(s: seq<T>, t: seq<T>)
    requires multiset(s) == multiset(t)
    ensures exists draws :: ValidDraws(|s|, draws) && Shuffled(s, draws) == t
  {
    var draws := DrawsFor(s, t);
  }

  /** On an input without repeated elements, different draws give different
      results: together with EveryPermutationReachable, the shuffle maps the
      admissible draw sequences one-to-one onto the permutations of the input. */
  lemma {:induction false} DrawsDetermineResult<T>(s: seq<T>, d1: seq<nat>, d2: seq<nat>)
    requires Distinct(s) && ValidDraws(|s|, d1) && ValidDraws(|s|, d2)
    requires Shuffled(s, d1) == Shuffled(s, d2)
    ensures d1 == d2
    decreases |s|
  {
    if |s| > 1 {
      ShuffledUnfold(s, d1);
      ShuffledUnfold(s, d2);
      var r := Shuffled(s, d1);
      assert r[|s| - 1] == s[d1[0]] == s[d2[0]];
      var front := Swap(s, |s| - 1, d1[0])[..|s| - 1];
      assert r[..|s| - 1] == Shuffled(front, d1[1..]) == Shuffled(front, d2[1..]);
      FrontDistinct(s, d1[0]);
      DrawsDetermineResult(front, d1[1..], d2[1..]);
      assert d1 == [d1[0]] + d1[1..];
      assert d2 == [d2[0]] + d2[1..];
    }
  }

  /** What one pass leaves in front of the swapped position keeps the
      elements of a repetition-free input apart. */
  lemma FrontDistinct<T>(s: seq<T>, j: nat)
    requires Distinct(s) && |s| >= 1 && j < |s|
    ensures Distinct(Swap(s, |s| - 1, j)[..|s| - 1])
  {
    var n := |s|;
    var u := Swap(s, n - 1, j)[..n - 1];
    forall a, b | 0 <= a < b < n - 1
      ensures u[a] != u[b]
    {
      var pa := if a == j then n - 1 else a;
      var pb := if b == j then n - 1 else b;
      assert u[a] == s[pa] && u[b] == s[pb];
    }
  }
}
