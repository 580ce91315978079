/**
 * `shuffleQueue`: the Fisher–Yates swap loop every revision runs over the whole queue.
 * `Math.random` is replaced by the indices it would have produced: `picks[i]` is the `j`
 * drawn at step `i`, one of `0..i`.
 */
module Shuffle {

  /** The picks a run of the loop over `n` cells can draw. */
  predicate ValidPicks(picks: seq<int>, n: int)
  {
    |picks| == n && forall i :: 0 <= i < n ==> 0 <= picks[i] <= i
  }

  /** `[s[i], s[j]] = [s[j], s[i]]`. */
  function Swap<T>(s: seq<T>, i: nat, j: nat): (r: seq<T>)
    requires i < |s| && j < |s|
    ensures |r| == |s| && r[i] == s[j] && r[j] == s[i]
    ensures forall k :: 0 <= k < |s| && k != i && k != j ==> r[k] == s[k]
  {
    s[i := s[j]][j := s[i]]
  }

  /** The steps `i, i-1, ..., 1` of the loop, applied to `s`. */
  function FisherYatesFrom<T>(s: seq<T>, picks: seq<int>, i: int): seq<T>
    requires ValidPicks(picks, |s|) && i < |s|
    decreases i
  {
    if i <= 0 then s else FisherYatesFrom(Swap(s, i, picks[i]), picks, i - 1)
  }

  /** The whole loop, `i` running from `s.length - 1` down to 1. */
  function FisherYates<T>(s: seq<T>, picks: seq<int>): seq<T>
    requires ValidPicks(picks, |s|)
  {
    FisherYatesFrom(s, picks, |s| - 1)
  }

  lemma SwapPermutes<T>(s: seq<T>, i: nat, j: nat)
    requires i < |s| && j < |s|
    ensures multiset(Swap(s, i, j)) == multiset(s)
  {
  }

  /** Every step swaps two cells, so the steps from `i` down keep the length and the entries. */
  lemma {:induction false} FisherYatesFromPermutes<T>(s: seq<T>, picks: seq<int>, i: int)
    requires ValidPicks(picks, |s|) && i < |s|
    ensures |FisherYatesFrom(s, picks, i)| == |s|
    ensures multiset(FisherYatesFrom(s, picks, i)) == multiset(s)
    decreases i
  {
    if i > 0 {
      var t := Swap(s, i, picks[i]);
      SwapPermutes(s, i, picks[i]);
      FisherYatesFromPermutes(t, picks, i - 1);
    }
  }

  /** The shuffled queue is a permutation of the queue. */
  lemma FisherYatesPermutes<T>(s: seq<T>, picks: seq<int>)
    requires ValidPicks(picks, |s|)
    ensures |FisherYates(s, picks)| == |s| && multiset(FisherYates(s, picks)) == multiset(s)
  {
    FisherYatesFromPermutes(s, picks, |s| - 1);
  }

  /** `shuffleQueue(queue)`: the swap loop, in place. */
  method ShuffleQueue<T>(a: array<T>, picks: seq<int>)
    requires ValidPicks(picks, a.Length)
    modifies a
    ensures a[..] == FisherYates(old(a[..]), picks)
  {
    var i := a.Length - 1;
    while i > 0
      invariant -1 <= i < a.Length
      invariant ValidPicks(picks, |a[..]|)
      invariant FisherYatesFrom(a[..], picks, i) == FisherYates(old(a[..]), picks)
      decreases i
    {
      var j := picks[i];
      a[i], a[j] := a[j], a[i];
      i := i - 1;
    }
  }

  /**
   * The shuffle the queue needs: the head, which is the song playing, stays first and only
   * the songs after it are mixed. `picks` are the draws for the tail.
   */
  function ShuffleUpcoming<T>(q: seq<T>, picks: seq<int>): seq<T>
    requires q != [] ==> ValidPicks(picks, |q| - 1)
  {
    if q == [] then [] else [q[0]] + FisherYates(q[1..], picks)
  }

  /** Mixing only the upcoming songs keeps the head and permutes the queue. */
  lemma ShuffleUpcomingKeepsHead<T>(q: seq<T>, picks: seq<int>)
    requires q != [] && ValidPicks(picks, |q| - 1)
    ensures ShuffleUpcoming(q, picks)[0] == q[0]
    ensures multiset(ShuffleUpcoming(q, picks)) == multiset(q)
  {
    FisherYatesPermutes(q[1..], picks);
    assert q == [q[0]] + q[1..];
  }
}
