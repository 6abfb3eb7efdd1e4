/** Small shared vocabulary: optional values, results, and order-preserving filtering. */
module Common {

  /** A value that may be absent (`undefined` / `null` in the source). */
  datatype Option<T> = None | Some(value: T)

  /** The outcome of an operation that can fail with an error value. */
  datatype Result<T, E> = Ok(value: T) | Err(error: E)

  /** `sub` can be obtained from `s` by deleting elements, keeping the order of the rest. */
  predicate IsSubsequence<T(==)>(sub: seq<T>, s: seq<T>)
    decreases |s|
  {
    if sub == [] then true
    else if s == [] then false
    else if sub[0] == s[0] then IsSubsequence(sub[1..], s[1..])
    else IsSubsequence(sub, s[1..])
  }

  /** `Array.prototype.filter`: the elements satisfying `keep`, in their original order. */
  function Filter<T(==,!new)>(s: seq<T>, keep: T -> bool): (r: seq<T>)
    ensures |r| <= |s|
    ensures forall x :: x in r <==> x in s && keep(x)
    ensures IsSubsequence(r, s)
  {
    if s == [] then []
    else if keep(s[0]) then [s[0]] + Filter(s[1..], keep)
    else Filter(s[1..], keep)
  }

  /** Filtering keeps everything exactly when every element passes. */
  lemma {:induction false} FilterAllKept<T(!new)>(s: seq<T>, keep: T -> bool)
    ensures Filter(s, keep) == s <==> forall i :: 0 <= i < |s| ==> keep(s[i])
  {
    if s != [] {
      FilterAllKept(s[1..], keep);
      if !keep(s[0]) {
        assert |Filter(s, keep)| <= |s[1..]| < |s|;
      } else {
        assert forall i :: 1 <= i < |s| ==> s[i] == s[1..][i - 1];
      }
    }
  }

  /** Being a subsequence is transitive, so chained filters keep the catalogue order. */
  lemma {:induction false} SubsequenceTransitive<T>(a: seq<T>, b: seq<T>, c: seq<T>)
    requires IsSubsequence(a, b) && IsSubsequence(b, c)
    ensures IsSubsequence(a, c)
    decreases |c|
  {
    if a == [] {
    } else if c == [] {
    } else if b == [] {
    } else if b[0] == c[0] {
      if a[0] == b[0] {
        SubsequenceTransitive(a[1..], b[1..], c[1..]);
      } else {
        SubsequenceTransitive(a, b[1..], c[1..]);
      }
    } else {
      SubsequenceTransitive(a, b, c[1..]);
      if a[0] == c[0] {
        SubsequenceDropHead(a, c[1..]);
      }
    }
  }

  /** Dropping the first element of a subsequence leaves a subsequence. */
  lemma {:induction false} SubsequenceDropHead<T>(a: seq<T>, s: seq<T>)
    requires a != [] && IsSubsequence(a, s)
    ensures IsSubsequence(a[1..], s)
    decreases |s|
  {
    if a[0] != s[0] {
      SubsequenceDropHead(a, s[1..]);
    }
    // in both cases a[1..] is now a subsequence of s[1..]
    if a[1..] != [] && a[1] == s[0] {
      SubsequenceDropHead(a[1..], s[1..]);
    }
  }

  /** The tail of a sequence from `i` is its slice up to `j` followed by its tail from `j`. */
  lemma SplitTail<T>(s: seq<T>, i: nat, j: nat)
    requires i <= j <= |s|
    ensures s[i..] == s[i..j] + s[j..]
  {
    assert forall k :: 0 <= k < |s| - i ==> s[i..][k] == (s[i..j] + s[j..])[k];
  }
}
