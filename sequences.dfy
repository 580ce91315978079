/**
 * The JavaScript array edits the queue commands use: `shift`, `splice(i, 1)` and
 * `splice(i, 0, x)`, and the move that combines the last two.
 */
module Sequences {

  /** `a.shift()` keeping only the array: the first element goes, an empty array stays empty. */
  function Shift<T>(s: seq<T>): (r: seq<T>)
    ensures s == [] ==> r == []
    ensures s != [] ==> [s[0]] + r == s
  {
    if s == [] then [] else s[1..]
  }

  /** `a.splice(i, 1)`: the element at index `i` is taken out, the others close up. */
  function RemoveAt<T>(s: seq<T>, i: nat): (r: seq<T>)
    requires i < |s|
    ensures |r| == |s| - 1
    ensures forall k :: 0 <= k < i ==> r[k] == s[k]
    ensures forall k :: i <= k < |r| ==> r[k] == s[k + 1]
  {
    s[..i] + s[i + 1..]
  }

  /** `a.splice(i, 0, x)`: `x` is placed at index `i`, the elements from `i` on move up one. */
  function InsertAt<T>(s: seq<T>, i: nat, x: T): (r: seq<T>)
    requires i <= |s|
    ensures |r| == |s| + 1 && r[i] == x
    ensures forall k :: 0 <= k < i ==> r[k] == s[k]
    ensures forall k :: i < k < |r| ==> r[k] == s[k - 1]
  {
    s[..i] + [x] + s[i..]
  }

  /** Taking out what was just put in gives the original back. */
  lemma RemoveInserted<T>(s: seq<T>, i: nat, x: T)
    requires i <= |s|
    ensures RemoveAt(InsertAt(s, i, x), i) == s
  {
    var r := RemoveAt(InsertAt(s, i, x), i);
    assert |r| == |s|;
    forall k | 0 <= k < |s|
      ensures r[k] == s[k]
    {
      if k >= i {
        assert r[k] == InsertAt(s, i, x)[k + 1];
      }
    }
  }

  /** Putting back what was just taken out gives the original back. */
  lemma InsertRemoved<T>(s: seq<T>, i: nat)
    requires i < |s|
    ensures InsertAt(RemoveAt(s, i), i, s[i]) == s
  {
    var r := InsertAt(RemoveAt(s, i), i, s[i]);
    assert |r| == |s|;
    forall k | 0 <= k < |s|
      ensures r[k] == s[k]
    {
      if k > i {
        assert r[k] == RemoveAt(s, i)[k - 1];
      }
    }
  }

  /** The bag of elements loses exactly the removed one. */
  lemma RemoveAtMultiset<T>(s: seq<T>, i: nat)
    requires i < |s|
    ensures multiset(RemoveAt(s, i)) + multiset{s[i]} == multiset(s)
  {
    assert s == s[..i] + [s[i]] + s[i + 1..];
  }

  /** The bag of elements gains exactly the inserted one. */
  lemma InsertAtMultiset<T>(s: seq<T>, i: nat, x: T)
    requires i <= |s|
    ensures multiset(InsertAt(s, i, x)) == multiset(s) + multiset{x}
  {
    assert s == s[..i] + s[i..];
  }

  /**
   * `const x = a.splice(from, 1)[0]; a.splice(to, 0, x)`: the move of the `move` command
   * with 0-based positions.
   */
  function Move<T>(s: seq<T>, from: nat, to: nat): seq<T>
    requires from < |s| && to < |s|
  {
    InsertAt(RemoveAt(s, from), to, s[from])
  }

  /** The moved element lands at `to`, and the length does not change. */
  lemma MoveLands<T>(s: seq<T>, from: nat, to: nat)
    requires from < |s| && to < |s|
    ensures |Move(s, from, to)| == |s| && Move(s, from, to)[to] == s[from]
  {
  }

  /** The other elements keep their relative order: without the moved one, nothing changed. */
  lemma MoveKeepsOthers<T>(s: seq<T>, from: nat, to: nat)
    requires from < |s| && to < |s|
    ensures RemoveAt(Move(s, from, to), to) == RemoveAt(s, from)
  {
    RemoveInserted(RemoveAt(s, from), to, s[from]);
  }

  /** A move is a permutation. */
  lemma MovePermutes<T>(s: seq<T>, from: nat, to: nat)
    requires from < |s| && to < |s|
    ensures multiset(Move(s, from, to)) == multiset(s)
  {
    RemoveAtMultiset(s, from);
    InsertAtMultiset(RemoveAt(s, from), to, s[from]);
  }

  /** Moving back from `to` to `from` undoes the move. */
  lemma MoveUndone<T>(s: seq<T>, from: nat, to: nat)
    requires from < |s| && to < |s|
    ensures Move(Move(s, from, to), to, from) == s
  {
    MoveLands(s, from, to);
    MoveKeepsOthers(s, from, to);
    InsertRemoved(s, from);
  }
}
