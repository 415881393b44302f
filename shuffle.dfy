/**
 * `shuffleArray`, as both catalogue pages write it: a Fisher-Yates pass
 * over a copy of the input, from the last position down to 1, swapping
 * position `i` with a position `j` drawn from `0..i`. The draws of
 * `Math.random()` are a parameter: `random(i)` is the draw made at `i`.
 */
module Shuffle {

  /** `Math.floor(r * (i + 1))` for a draw `r` in [0, 1): a position in `0..i`. */
  function Pick(r: real, i: nat): (j: nat)
    requires 0.0 <= r < 1.0
    ensures j <= i
  {
    (r * (i + 1) as real).Floor
  }

  /** `s` with positions `i` and `j` exchanged. */
  function Swap<T>(s: seq<T>, i: nat, j: nat): (r: seq<T>)
    requires i < |s| && j < |s|
  {
    s[i := s[j]][j := s[i]]
  }

  /** What the loop does from position `i` down: swap `i` with its pick, then go on from `i - 1`. */
  function ShuffleDown<T>(s: seq<T>, i: int, random: nat -> real): seq<T>
    requires i < |s|
    requires forall k :: 0.0 <= random(k) < 1.0
    decreases i
  {
    if i <= 0 then s
    else ShuffleDown(Swap(s, i, Pick(random(i), i)), i - 1, random)
  }

  /** The result of shuffling `s` with draws `random`. */
  function Shuffled<T>(s: seq<T>, random: nat -> real): seq<T>
    requires forall k :: 0.0 <= random(k) < 1.0
  {
    ShuffleDown(s, |s| - 1, random)
  }

  lemma SwapPermutes<T>(s: seq<T>, i: nat, j: nat)
    requires i < |s| && j < |s|
    ensures |Swap(s, i, j)| == |s|
    ensures multiset(Swap(s, i, j)) == multiset(s)
  {
    var t := s[i := s[j]];
    assert multiset(t) == multiset(s) - multiset{s[i]} + multiset{s[j]};
    assert multiset(t[j := s[i]]) == multiset(t) - multiset{t[j]} + multiset{s[i]};
  }

  lemma {:induction false} ShuffleDownPermutes<T>(s: seq<T>, i: int, random: nat -> real)
    requires i < |s|
    requires forall k :: 0.0 <= random(k) < 1.0
    ensures |ShuffleDown(s, i, random)| == |s|
    ensures multiset(ShuffleDown(s, i, random)) == multiset(s)
    decreases i
  {
    if i > 0 {
      var j := Pick(random(i), i);
      SwapPermutes(s, i, j);
      ShuffleDownPermutes(Swap(s, i, j), i - 1, random);
    }
  }

  /** Whatever the draws, the shuffle reorders the input: same length, same elements, same counts. */
  lemma ShuffledIsPermutation<T>(s: seq<T>, random: nat -> real)
    requires forall k :: 0.0 <= random(k) < 1.0
    ensures |Shuffled(s, random)| == |s|
    ensures multiset(Shuffled(s, random)) == multiset(s)
  {
    ShuffleDownPermutes(s, |s| - 1, random);
  }

  /**
   * `shuffleArray(array)`: the swap loop on a fresh copy. The input is a
   * value and stays as it was; the result is the input shuffled with the
   * given draws, hence a permutation of it.
   */
  method ShuffleArray<T>(input: seq<T>, random: nat -> real) returns (shuffled: seq<T>)
    requires forall k :: 0.0 <= random(k) < 1.0
    ensures shuffled == Shuffled(input, random)
    ensures |shuffled| == |input| && multiset(shuffled) == multiset(input)
  {
    var a := new T[|input|](k requires 0 <= k < |input| => input[k]);
    assert a[..] == input;
    var i := |input| - 1;
    while i > 0
      invariant i < a.Length
      invariant ShuffleDown(a[..], i, random) == Shuffled(input, random)
      decreases i
    {
      var j := Pick(random(i), i);
      assert Swap(a[..], i, j) == a[..][i := a[j]][j := a[i]];
      a[i], a[j] := a[j], a[i];
      i := i - 1;
    }
    shuffled := a[..];
    ShuffledIsPermutation(input, random);
  }
}
