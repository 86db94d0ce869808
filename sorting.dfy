/** Python's `sorted` / `list.sort`: a stable sort by a total preorder.
    `le(a, b)` means "a may come before b"; a descending sort (Python's
    `reverse=True`) is the same sort with the key comparison turned around,
    and stability keeps elements with equal keys in their input order. */
module Sorting {

  /** `le` is total and transitive on the values in `dom`. */
  ghost predicate PreorderOn<T>(dom: set<T>, le: (T, T) -> bool)
  {
    && (forall a, b :: a in dom && b in dom ==> le(a, b) || le(b, a))
    && (forall a, b, c :: a in dom && b in dom && c in dom && le(a, b) && le(b, c) ==> le(a, c))
  }

  predicate SortedBy<T>(s: seq<T>, le: (T, T) -> bool)
  {
    forall i, j :: 0 <= i < j < |s| ==> le(s[i], s[j])
  }

  /** Insert `x` after every leading element that may precede it, so that an
      element inserted later stays behind the equal elements already there. */
  function Insert<T>(x: T, t: seq<T>, le: (T, T) -> bool): (r: seq<T>)
    ensures multiset(r) == multiset(t) + multiset{x}
    ensures |r| == |t| + 1
  {
    if t == [] then [x]
    else if le(t[0], x) then
      assert t == [t[0]] + t[1..];
      [t[0]] + Insert(x, t[1..], le)
    else [x] + t
  }

  /** Insertion sort, taking the elements in input order. */
  function SortBy<T>(s: seq<T>, le: (T, T) -> bool): (r: seq<T>)
    ensures multiset(r) == multiset(s)
    ensures |r| == |s|
  {
    if s == [] then []
    else
      var init := s[..|s| - 1];
      assert s == init + [s[|s| - 1]];
      Insert(s[|s| - 1], SortBy(init, le), le)
  }

  lemma {:induction false} InsertSorted<T>(x: T, t: seq<T>, le: (T, T) -> bool, dom: set<T>)
    requires PreorderOn(dom, le)
    requires x in dom && forall y :: y in t ==> y in dom
    requires SortedBy(t, le)
    ensures SortedBy(Insert(x, t, le), le)
  {
    if t == [] {
    } else if le(t[0], x) {
      var rest := Insert(x, t[1..], le);
      assert SortedBy(t[1..], le) by { TailSorted(t, le); }
      InsertSorted(x, t[1..], le, dom);
      forall y | y in rest
        ensures le(t[0], y)
      {
        assert y in multiset(rest);
        if y != x {
          var j :| 0 <= j < |t[1..]| && t[1..][j] == y;
          assert t[j + 1] == y;
        }
      }
      ConsSorted(t[0], rest, le);
    } else {
      assert le(x, t[0]);
      forall y | y in t
        ensures le(x, y)
      {
        var j :| 0 <= j < |t| && t[j] == y;
        if j > 0 {
          assert le(t[0], t[j]);
          assert t[0] in dom && y in dom;
        }
      }
      ConsSorted(x, t, le);
    }
  }

  lemma TailSorted<T>(t: seq<T>, le: (T, T) -> bool)
    requires t != [] && SortedBy(t, le)
    ensures SortedBy(t[1..], le)
  {
    forall i, j | 0 <= i < j < |t| - 1 ensures le(t[1..][i], t[1..][j]) {
      assert t[1..][i] == t[i + 1] && t[1..][j] == t[j + 1];
    }
  }

  lemma ConsSorted<T>(h: T, t: seq<T>, le: (T, T) -> bool)
    requires forall y :: y in t ==> le(h, y)
    requires SortedBy(t, le)
    ensures SortedBy([h] + t, le)
  {
    var r := [h] + t;
    forall i, j | 0 <= i < j < |r|
      ensures le(r[i], r[j])
    {
      if i == 0 {
        assert r[j] == t[j - 1];
      } else {
        assert r[i] == t[i - 1] && r[j] == t[j - 1];
      }
    }
  }

  lemma {:induction false} SortBySorted<T>(s: seq<T>, le: (T, T) -> bool, dom: set<T>)
    requires PreorderOn(dom, le)
    requires forall y :: y in s ==> y in dom
    ensures SortedBy(SortBy(s, le), le)
  {
    if s != [] {
      var init := s[..|s| - 1];
      forall y | y in init ensures y in dom {
        var j :| 0 <= j < |init| && init[j] == y;
        assert s[j] == y;
      }
      SortBySorted(init, le, dom);
      var sorted := SortBy(init, le);
      forall y | y in sorted ensures y in dom {
        assert y in multiset(sorted);
      }
      InsertSorted(s[|s| - 1], sorted, le, dom);
    }
  }

  /** A sequence that is already sorted is left as it is. */
  lemma {:induction false} SortBySortedUnchanged<T>(s: seq<T>, le: (T, T) -> bool)
    requires SortedBy(s, le)
    ensures SortBy(s, le) == s
  {
    if s != [] {
      var init := s[..|s| - 1];
      assert SortedBy(init, le) by {
        forall i, j | 0 <= i < j < |init| ensures le(init[i], init[j]) {
          assert init[i] == s[i] && init[j] == s[j];
        }
      }
      SortBySortedUnchanged(init, le);
      InsertAtEnd(s[|s| - 1], init, le);
      assert init + [s[|s| - 1]] == s;
    }
  }

  lemma {:induction false} InsertAtEnd<T>(x: T, t: seq<T>, le: (T, T) -> bool)
    requires forall y :: y in t ==> le(y, x)
    ensures Insert(x, t, le) == t + [x]
  {
    if t != [] {
      InsertAtEnd(x, t[1..], le);
      assert [t[0]] + (t[1..] + [x]) == t + [x];
    }
  }
  /** `a` and `b` have equal keys: each may come before the other. */
  predicate Tied<T>(le: (T, T) -> bool, a: T, b: T)
  {
    le(a, b) && le(b, a)
  }

  /** The entries of `s` whose key equals that of `y`, in their order in `s`. */
  function TiesWith<T>(s: seq<T>, le: (T, T) -> bool, y: T): (r: seq<T>)
    ensures forall x :: x in r ==> x in s && Tied(le, x, y)
    ensures (forall x :: x in s ==> !Tied(le, x, y)) ==> r == []
  {
    if s == [] then []
    else
      assert forall x :: x in s[1..] ==> x in s;
      (if Tied(le, s[0], y) then [s[0]] else []) + TiesWith(s[1..], le, y)
  }

  lemma {:induction false} TiesWithAppend<T>(a: seq<T>, b: seq<T>, le: (T, T) -> bool, y: T)
    ensures TiesWith(a + b, le, y) == TiesWith(a, le, y) + TiesWith(b, le, y)
  {
    if a == [] {
      assert a + b == b;
    } else {
      assert (a + b)[0] == a[0];
      assert (a + b)[1..] == a[1..] + b;
      TiesWithAppend(a[1..], b, le, y);
    }
  }

  /** In a sorted list whose head must come after `x`, nothing ties with a
      value that ties with `x`. */
  lemma NoTiesAfter<T>(x: T, t: seq<T>, le: (T, T) -> bool, y: T, dom: set<T>)
    requires PreorderOn(dom, le)
    requires x in dom && y in dom && forall e :: e in t ==> e in dom
    requires SortedBy(t, le) && t != [] && !le(t[0], x) && Tied(le, x, y)
    ensures TiesWith(t, le, y) == []
  {
    forall e | e in t
      ensures !Tied(le, e, y)
    {
      var j :| 0 <= j < |t| && t[j] == e;
      if j > 0 {
        assert le(t[0], t[j]);
      }
    }
  }

  lemma TiesWithCons<T>(h: T, t: seq<T>, le: (T, T) -> bool, y: T)
    ensures TiesWith([h] + t, le, y) == (if Tied(le, h, y) then [h] else []) + TiesWith(t, le, y)
  {
    assert ([h] + t)[0] == h && ([h] + t)[1..] == t;
  }

  /** Inserting `x` adds it behind every entry that ties with it. */
  lemma {:induction false} TiesWithInsert<T>(x: T, t: seq<T>, le: (T, T) -> bool, y: T, dom: set<T>)
    requires PreorderOn(dom, le)
    requires x in dom && y in dom && forall e :: e in t ==> e in dom
    requires SortedBy(t, le)
    ensures TiesWith(Insert(x, t, le), le, y) == TiesWith(t, le, y) + (if Tied(le, x, y) then [x] else [])
  {
    var own := if Tied(le, x, y) then [x] else [];
    if t == [] {
      TiesWithCons(x, [], le, y);
      assert [x] + [] == [x];
    } else if le(t[0], x) {
      TailSorted(t, le);
      TiesWithInsert(x, t[1..], le, y, dom);
      TiesWithInsertSkip(x, t, le, y);
    } else {
      TiesWithCons(x, t, le, y);
      if Tied(le, x, y) {
        NoTiesAfter(x, t, le, y, dom);
      }
    }
  }

  /** One step of `Insert` past the head: the head's tie, if any, stays in front. */
  lemma TiesWithInsertSkip<T>(x: T, t: seq<T>, le: (T, T) -> bool, y: T)
    requires t != [] && le(t[0], x)
    requires TiesWith(Insert(x, t[1..], le), le, y)
             == TiesWith(t[1..], le, y) + (if Tied(le, x, y) then [x] else [])
    ensures TiesWith(Insert(x, t, le), le, y) == TiesWith(t, le, y) + (if Tied(le, x, y) then [x] else [])
  {
    var head := if Tied(le, t[0], y) then [t[0]] else [];
    var own := if Tied(le, x, y) then [x] else [];
    assert Insert(x, t, le) == [t[0]] + Insert(x, t[1..], le);
    TiesWithCons(t[0], Insert(x, t[1..], le), le, y);
    assert TiesWith(t, le, y) == head + TiesWith(t[1..], le, y);
    ConcatAssoc(head, TiesWith(t[1..], le, y), own);
  }

  lemma ConcatAssoc<T>(a: seq<T>, b: seq<T>, c: seq<T>)
    ensures a + (b + c) == (a + b) + c
  {
  }

  /** The sort is stable: the entries sharing a key keep their input order. */
  lemma {:induction false} SortByStable<T>(s: seq<T>, le: (T, T) -> bool, y: T, dom: set<T>)
    requires PreorderOn(dom, le)
    requires y in dom && forall e :: e in s ==> e in dom
    ensures TiesWith(SortBy(s, le), le, y) == TiesWith(s, le, y)
  {
    if s != [] {
      var init, last := s[..|s| - 1], s[|s| - 1];
      assert s == init + [last];
      SortByStable(init, le, y, dom);
      SortBySorted(init, le, dom);
      SortByInDom(init, le, dom);
      TiesWithInsert(last, SortBy(init, le), le, y, dom);
      TiesWithAppend(init, [last], le, y);
    }
  }

  lemma SortByInDom<T>(s: seq<T>, le: (T, T) -> bool, dom: set<T>)
    requires forall e :: e in s ==> e in dom
    ensures forall e :: e in SortBy(s, le) ==> e in dom
  {
    forall e | e in SortBy(s, le) ensures e in dom {
      assert e in multiset(SortBy(s, le));
    }
  }
}
