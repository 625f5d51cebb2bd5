/** The `orderBy: { createdAt: "desc" }` of the list queries: the rows a query selects, newest
    first. Rows created at the same time may come in either order. */
module Ordering {

  /** No element is newer than one before it. */
  ghost predicate NewestFirst<T>(s: seq<T>, createdAt: T -> nat) {
    forall i, j :: 0 <= i < j < |s| ==> createdAt(s[i]) >= createdAt(s[j])
  }

  /** `s` with `x` placed before the first element older than it. */
  function Insert<T>(x: T, s: seq<T>, createdAt: T -> nat): (r: seq<T>)
    requires NewestFirst(s, createdAt)
    ensures NewestFirst(r, createdAt)
    ensures multiset(r) == multiset(s) + multiset{x}
    decreases |s|
  {
    if s == [] || createdAt(x) >= createdAt(s[0]) then
      assert forall i :: 0 < i < |[x] + s| ==> ([x] + s)[i] == s[i - 1];
      [x] + s
    else
      var rest := Insert(x, s[1..], createdAt);
      assert s == [s[0]] + s[1..];
      assert forall y :: y in multiset(rest) ==> y == x || y in multiset(s[1..]);
      assert forall i :: 0 <= i < |rest| ==> createdAt(s[0]) >= createdAt(rest[i]) by {
        forall i | 0 <= i < |rest| ensures createdAt(s[0]) >= createdAt(rest[i]) {
          assert rest[i] in multiset(rest);
          if rest[i] != x {
            var k :| 0 <= k < |s[1..]| && s[1..][k] == rest[i];
            assert s[k + 1] == rest[i];
          }
        }
      }
      assert forall i :: 0 < i < |[s[0]] + rest| ==> ([s[0]] + rest)[i] == rest[i - 1];
      [s[0]] + rest
  }

  /** The rows of `items`, each once, newest first. */
  method NewestFirstOf<T(==)>(items: set<T>, createdAt: T -> nat) returns (r: seq<T>)
    ensures multiset(r) == multiset(items)
    ensures NewestFirst(r, createdAt)
  {
    r := [];
    var remaining := items;
    while remaining != {}
      invariant remaining <= items
      invariant multiset(r) == multiset(items - remaining)
      invariant NewestFirst(r, createdAt)
      decreases |remaining|
    {
      var x :| x in remaining;
      r := Insert(x, r, createdAt);
      assert items - (remaining - {x}) == (items - remaining) + {x};
      remaining := remaining - {x};
    }
    assert items - remaining == items;
  }

  /** A sequence with the multiset of a set holds each element of the set exactly once. */
  lemma EachOnce<T>(r: seq<T>, items: set<T>)
    requires multiset(r) == multiset(items)
    ensures forall x :: x in r <==> x in items
    ensures |r| == |items|
    ensures forall i, j :: 0 <= i < j < |r| ==> r[i] != r[j]
  {
    assert forall x :: x in r <==> x in multiset(r);
    assert |r| == |multiset(r)| == |multiset(items)| == |items|;
    forall i, j | 0 <= i < j < |r| ensures r[i] != r[j] {
      assert r == r[..j] + r[j..];
      assert r[i] in r[..j] && r[j] in r[j..];
      assert multiset(r)[r[i]] <= 1;
    }
  }
}
