/**
 * Singly linked lists that only grow at the front. A list built by pushing
 * e1, e2, ..., en to the front holds them in reverse order of pushing.
 */
module Lists {

  /** The elements of `s` in reverse order. */
  function Reverse<T>(s: seq<T>): (r: seq<T>)
    ensures |r| == |s|
  {
    if s == [] then [] else [s[|s| - 1]] + Reverse(s[..|s| - 1])
  }

  /** Pushing one more element to the front of a list built by pushing `s`. */
  lemma ReversePush<T>(s: seq<T>, e: T)
    ensures [e] + Reverse(s) == Reverse(s + [e])
  {
    assert (s + [e])[..|s|] == s;
  }

  /** Pushing a block after a prefix. */
  lemma {:induction false} ReverseAppend<T>(a: seq<T>, b: seq<T>)
    ensures Reverse(a + b) == Reverse(b) + Reverse(a)
    decreases |b|
  {
    if b == [] {
      assert a + b == a;
    } else {
      var b' := b[..|b| - 1];
      assert a + b == (a + b') + [b[|b| - 1]];
      ReversePush(a + b', b[|b| - 1]);
      ReverseAppend(a, b');
      ReversePush(b', b[|b| - 1]);
      assert b' + [b[|b| - 1]] == b;
    }
  }

  /** The k-th element of the list is the k-th last element pushed. */
  lemma {:induction false} ReverseIndex<T>(s: seq<T>, k: nat)
    requires k < |s|
    ensures Reverse(s)[k] == s[|s| - 1 - k]
    decreases |s|
  {
    if k > 0 {
      ReverseIndex(s[..|s| - 1], k - 1);
    }
  }

  lemma ReverseOne<T>(a: T)
    ensures Reverse([a]) == [a]
  {
  }

  lemma ReverseTwo<T>(a: T, b: T)
    ensures Reverse([a, b]) == [b, a]
  {
    ReversePush([a], b);
    ReverseOne(a);
  }

  lemma ReverseFive<T>(a: T, b: T, c: T, d: T, e: T)
    ensures Reverse([a, b, c, d, e]) == [e, d, c, b, a]
  {
    ReverseTwo(a, b);
    ReversePush([a, b], c);
    assert [a, b] + [c] == [a, b, c];
    ReversePush([a, b, c], d);
    assert [a, b, c] + [d] == [a, b, c, d];
    ReversePush([a, b, c, d], e);
    assert [a, b, c, d] + [e] == [a, b, c, d, e];
  }
}
