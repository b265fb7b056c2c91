/** Python's `min`, `max` and `sorted` on reals, list repetition, and
    counting how many entries of a list satisfy a predicate; counting is what
    the order-statistic lemmas of the voting strategy are proved with. */
module Sorting {

  /** `[x] * n` */
  function Repeat<T>(x: T, n: nat): (r: seq<T>)
    ensures |r| == n
  {
    if n == 0 then [] else Repeat(x, n - 1) + [x]
  }

  /** Every entry of `[x] * n` is `x`. */
  lemma {:induction false} RepeatAt<T>(x: T, n: nat, k: nat)
    requires k < n
    ensures Repeat(x, n)[k] == x
  {
    if k < n - 1 {
      RepeatAt(x, n - 1, k);
    }
  }

  /** Python's `min(a, b)`: the first argument unless the second is smaller. */
  function Min(a: real, b: real): (r: real)
    ensures r <= a && r <= b && (r == a || r == b)
  {
    if b < a then b else a
  }

  /** Python's `max(a, b)`: the first argument unless the second is larger. */
  function Max(a: real, b: real): (r: real)
    ensures a <= r && b <= r && (r == a || r == b)
  {
    if a < b then b else a
  }

  ghost predicate Sorted(s: seq<real>) {
    forall i, j :: 0 <= i < j < |s| ==> s[i] <= s[j]
  }

  /** Putting a value no larger than the head in front of a sorted list keeps it sorted. */
  lemma SortedCons(x: real, s: seq<real>)
    requires Sorted(s) && (s == [] || x <= s[0])
    ensures Sorted([x] + s)
  {
    forall i, j | 0 <= i < j < |[x] + s| ensures ([x] + s)[i] <= ([x] + s)[j] {
      if 0 < i {
        assert ([x] + s)[i] == s[i - 1];
      }
    }
  }

  function Insert(x: real, s: seq<real>): (r: seq<real>)
    requires Sorted(s)
    ensures Sorted(r)
    ensures multiset(r) == multiset(s) + multiset{x}
    ensures |r| == |s| + 1 && (r[0] == x || (s != [] && r[0] == s[0]))
  {
    if s == [] || x <= s[0] then
      SortedCons(x, s);
      [x] + s
    else
      var t := Insert(x, s[1..]);
      assert s == [s[0]] + s[1..];
      SortedCons(s[0], t);
      [s[0]] + t
  }

  /** `sorted(s)`: ascending, and a permutation of `s`. */
  function Sort(s: seq<real>): (r: seq<real>)
    ensures |r| == |s|
    ensures Sorted(r)
    ensures multiset(r) == multiset(s)
  {
    if s == [] then []
    else
      assert s == [s[0]] + s[1..];
      Insert(s[0], Sort(s[1..]))
  }

  /** Number of entries of `s` that satisfy `p`. */
  function Count(s: seq<real>, p: real -> bool): (n: nat)
    ensures n <= |s|
  {
    if s == [] then 0 else (if p(s[0]) then 1 else 0) + Count(s[1..], p)
  }

  lemma {:induction false} CountAppend(a: seq<real>, b: seq<real>, p: real -> bool)
    ensures Count(a + b, p) == Count(a, p) + Count(b, p)
  {
    if a == [] {
      assert a + b == b;
    } else {
      assert (a + b)[1..] == a[1..] + b;
      CountAppend(a[1..], b, p);
    }
  }

  lemma {:induction false} CountAll(s: seq<real>, p: real -> bool)
    requires forall i :: 0 <= i < |s| ==> p(s[i])
    ensures Count(s, p) == |s|
  {
    if s != [] {
      CountAll(s[1..], p);
    }
  }

  lemma {:induction false} CountNone(s: seq<real>, p: real -> bool)
    requires forall i :: 0 <= i < |s| ==> !p(s[i])
    ensures Count(s, p) == 0
  {
    if s != [] {
      CountNone(s[1..], p);
    }
  }

  /** A list whose first `k` entries satisfy `p` has at least `k` such entries. */
  lemma {:induction false} CountPrefix(s: seq<real>, k: nat, p: real -> bool)
    requires k <= |s|
    requires forall j :: 0 <= j < k ==> p(s[j])
    ensures Count(s, p) >= k
  {
    if 0 < k {
      CountPrefix(s[1..], k - 1, p);
    }
  }

  /** A list whose entries from `k` on satisfy `p` has at least `|s| - k`
      such entries. */
  lemma {:induction false} CountSuffix(s: seq<real>, k: nat, p: real -> bool)
    requires k <= |s|
    requires forall j :: k <= j < |s| ==> p(s[j])
    ensures Count(s, p) >= |s| - k
  {
    if k == 0 {
      CountAll(s, p);
    } else {
      CountSuffix(s[1..], k - 1, p);
    }
  }

  /** A list none of whose entries from `k` on satisfy `p` has at most `k`
      such entries. */
  lemma {:induction false} CountOnlyPrefix(s: seq<real>, k: nat, p: real -> bool)
    requires k <= |s|
    requires forall j :: k <= j < |s| ==> !p(s[j])
    ensures Count(s, p) <= k
  {
    if k == 0 {
      CountNone(s, p);
    } else {
      CountOnlyPrefix(s[1..], k - 1, p);
    }
  }

  /** Counting does not depend on the order of the entries. */
  lemma {:induction false} CountPermutation(a: seq<real>, b: seq<real>, p: real -> bool)
    requires multiset(a) == multiset(b)
    ensures Count(a, p) == Count(b, p)
  {
    if a == [] {
      assert |multiset(b)| == 0;
    } else {
      var x := a[0];
      assert x in multiset(b);
      var j :| 0 <= j < |b| && b[j] == x;
      var b' := b[..j] + b[j+1..];
      assert b == b[..j] + [x] + b[j+1..];
      assert a == [x] + a[1..];
      assert multiset(b') == multiset(b) - multiset{x};
      CountPermutation(a[1..], b', p);
      CountAppend(b[..j] + [x], b[j+1..], p);
      CountAppend(b[..j], [x], p);
      CountAppend(b[..j], b[j+1..], p);
    }
  }

  /** If every entry of `b` that satisfies `p` sits where `a` also satisfies
      `p`, then `b` has no more such entries than `a`. */
  lemma {:induction false} CountDominated(a: seq<real>, b: seq<real>, p: real -> bool)
    requires |a| == |b|
    requires forall i :: 0 <= i < |b| && p(b[i]) ==> p(a[i])
    ensures Count(b, p) <= Count(a, p)
  {
    if b != [] {
      CountDominated(a[1..], b[1..], p);
    }
  }
}
