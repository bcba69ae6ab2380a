/** `Array.prototype.sort` with a comparator, specified as "sorted and a permutation".
    The engine's own algorithm is not part of the source; an insertion sort stands in for it. */
module Sorting {

  /** `le` orders every pair of values and is transitive. */
  ghost predicate TotalPreorder<T(!new)>(le: (T, T) -> bool) {
    && (forall a, b :: le(a, b) || le(b, a))
    && (forall a, b, c :: le(a, b) && le(b, c) ==> le(a, c))
  }

  /** Every element comes no later, in `le`, than each element after it. */
  predicate SortedBy<T>(s: seq<T>, le: (T, T) -> bool) {
    forall i, j :: 0 <= i < j < |s| ==> le(s[i], s[j])
  }

  function Insert<T(!new)>(x: T, s: seq<T>, le: (T, T) -> bool): (r: seq<T>)
    requires TotalPreorder(le)
    requires SortedBy(s, le)
    ensures SortedBy(r, le)
    ensures multiset(r) == multiset(s) + multiset{x}
    ensures |r| == |s| + 1
  {
    if s == [] then [x]
    else if le(x, s[0]) then
      ConsSorted(x, s, le);
      [x] + s
    else
      var t := Insert(x, s[1..], le);
      assert s == [s[0]] + s[1..];
      InsertAfterHead(x, s, t, le);
      ConsSorted(s[0], t, le);
      [s[0]] + t
  }

  /** Putting in front an element that comes no later than the first keeps a sequence sorted. */
  lemma ConsSorted<T(!new)>(y: T, t: seq<T>, le: (T, T) -> bool)
    requires TotalPreorder(le)
    requires SortedBy(t, le)
    requires t != [] ==> le(y, t[0])
    ensures SortedBy([y] + t, le)
  {
    var r := [y] + t;
    forall i, j | 0 <= i < j < |r| ensures le(r[i], r[j]) {
      if i == 0 {
        assert r[j] == t[j - 1];
        if j > 1 {
          assert le(t[0], t[j - 1]);
        }
      } else {
        assert r[i] == t[i - 1] && r[j] == t[j - 1];
      }
    }
  }

  /** When `x` goes after the head of `s`, every element of the insertion into the tail comes
      no earlier than that head. */
  lemma InsertAfterHead<T(!new)>(x: T, s: seq<T>, t: seq<T>, le: (T, T) -> bool)
    requires TotalPreorder(le)
    requires SortedBy(s, le) && s != [] && !le(x, s[0])
    requires multiset(t) == multiset(s[1..]) + multiset{x}
    ensures t != [] ==> le(s[0], t[0])
  {
    if t != [] {
      assert t[0] in multiset(t);
      if t[0] != x {
        assert t[0] in multiset(s[1..]);
        var m :| 0 <= m < |s[1..]| && s[1..][m] == t[0];
        assert s[m + 1] == t[0];
      }
    }
  }

  /** A sorted permutation of `s`. */
  function SortBy<T(!new)>(s: seq<T>, le: (T, T) -> bool): (r: seq<T>)
    requires TotalPreorder(le)
    ensures SortedBy(r, le)
    ensures multiset(r) == multiset(s)
    ensures |r| == |s|
  {
    if s == [] then []
    else
      assert s == [s[0]] + s[1..];
      Insert(s[0], SortBy(s[1..], le), le)
  }

  /** An element of a sorted sequence that is not among its first `n` comes no earlier than
      each of them. */
  lemma SortedPrefixFirst<T>(s: seq<T>, le: (T, T) -> bool, n: nat, x: T, k: nat)
    requires SortedBy(s, le)
    requires k < n <= |s| && x in s && x !in s[..n]
    ensures le(s[k], x)
  {
    var j :| 0 <= j < |s| && s[j] == x;
    assert forall i :: 0 <= i < n ==> s[..n][i] == s[i];
    assert j >= n;
  }

  /** The first element of a sorted sequence comes no later than any element of it. */
  lemma SortedHeadFirst<T(!new)>(s: seq<T>, le: (T, T) -> bool, x: T)
    requires TotalPreorder(le)
    requires SortedBy(s, le)
    requires x in s
    ensures le(s[0], x)
  {
    var k :| 0 <= k < |s| && s[k] == x;
  }
}
