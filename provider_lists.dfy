/**
 * The ordered provider list of the tracker, an ArrayList of providers.
 * Appending is sequence concatenation; `ArrayList.remove(Object)` drops the
 * first element equal to its argument and leaves the list alone when there is none.
 */
module ProviderLists {

  /** Position of the first occurrence of `x` in `s`. */
  function IndexOf<P(==)>(s: seq<P>, x: P): (i: nat)
    requires x in s
    ensures i < |s| && s[i] == x
    ensures x !in s[..i]
  {
    if s[0] == x then 0
    else
      var j := IndexOf(s[1..], x);
      assert s[..j + 1] == [s[0]] + s[1..][..j];
      j + 1
  }

  /** The list after `remove(x)`: its first occurrence of `x` is gone, nothing else moves. */
  function RemoveFirst<P(==)>(s: seq<P>, x: P): (r: seq<P>)
    ensures x !in s ==> r == s
    ensures x in s ==> r == s[..IndexOf(s, x)] + s[IndexOf(s, x) + 1..]
  {
    if s == [] then []
    else if s[0] == x then s[1..]
    else
      var t := RemoveFirst(s[1..], x);
      assert x in s ==> x in s[1..] && IndexOf(s, x) == IndexOf(s[1..], x) + 1;
      [s[0]] + t
  }

  /** One copy of `x` leaves the multiset of providers, and only when one was there. */
  lemma {:induction false} RemoveFirstMultiset<P>(s: seq<P>, x: P)
    ensures multiset(RemoveFirst(s, x)) == multiset(s) - multiset{x}
    ensures |RemoveFirst(s, x)| == if x in s then |s| - 1 else |s|
  {
    if x in s {
      var i := IndexOf(s, x);
      assert s == s[..i] + [x] + s[i + 1..];
      calc {
        multiset(s);
        multiset(s[..i]) + multiset{x} + multiset(s[i + 1..]);
        multiset(RemoveFirst(s, x)) + multiset{x};
      }
    }
  }

  /** Every provider other than `x` is in the list after removal exactly when it was before. */
  lemma RemoveFirstKeepsOthers<P>(s: seq<P>, x: P, y: P)
    requires y != x
    ensures y in RemoveFirst(s, x) <==> y in s
  {
  }

  /** The list after removal is empty only if it was empty or held `x` alone. */
  lemma RemoveFirstEmpty<P>(s: seq<P>, x: P)
    ensures RemoveFirst(s, x) == [] <==> s == [] || s == [x]
  {
  }
}
