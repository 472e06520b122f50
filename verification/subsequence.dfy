/** Order-preserving selection: `a` is a subsequence of `b` when `a` is `b`
    with some elements removed and the rest kept in order. This is what
    `Vec::retain_mut` and `Vec::remove(0)` do to the voice pool. */
module Subsequences {

  /** Matched from the back, the way a left-to-right filter grows its output. */
  ghost predicate IsSubsequence<T>(a: seq<T>, b: seq<T>)
    decreases |b|
  {
    if a == [] then true
    else if b == [] then false
    else
      (a[|a| - 1] == b[|b| - 1] && IsSubsequence(a[..|a| - 1], b[..|b| - 1]))
      || IsSubsequence(a, b[..|b| - 1])
  }

  /** Keeping an element on both sides preserves the relation. */
  lemma KeepLast<T>(a: seq<T>, b: seq<T>, x: T)
    requires IsSubsequence(a, b)
    ensures IsSubsequence(a + [x], b + [x])
  {
    assert (a + [x])[..|a|] == a;
    assert (b + [x])[..|b|] == b;
  }

  /** Dropping an element of `b` preserves the relation. */
  lemma DropLast<T>(a: seq<T>, b: seq<T>, x: T)
    requires IsSubsequence(a, b)
    ensures IsSubsequence(a, b + [x])
  {
    assert (b + [x])[..|b|] == b;
  }

  /** Every sequence is a subsequence of itself. */
  lemma {:induction false} Reflexive<T>(a: seq<T>)
    ensures IsSubsequence(a, a)
    decreases |a|
  {
    if a != [] {
      Reflexive(a[..|a| - 1]);
    }
  }

  /** Selecting from a selection is a selection. */
  lemma {:induction false} Transitive<T>(a: seq<T>, b: seq<T>, c: seq<T>)
    requires IsSubsequence(a, b) && IsSubsequence(b, c)
    ensures IsSubsequence(a, c)
    decreases |c|
  {
    if a == [] {
    } else if IsSubsequence(b, c[..|c| - 1]) {
      Transitive(a, b, c[..|c| - 1]);
    } else {
      // b's last element is matched with c's last element
      if a[|a| - 1] == b[|b| - 1] && IsSubsequence(a[..|a| - 1], b[..|b| - 1]) {
        Transitive(a[..|a| - 1], b[..|b| - 1], c[..|c| - 1]);
      } else {
        Transitive(a, b[..|b| - 1], c[..|c| - 1]);
      }
      assert IsSubsequence(a, c[..|c| - 1]) || (a[|a| - 1] == c[|c| - 1] && IsSubsequence(a[..|a| - 1], c[..|c| - 1]));
    }
  }
}
