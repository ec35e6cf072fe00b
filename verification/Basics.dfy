/** Shared vocabulary: optional values, the string order used by ORDER BY, and a stable sort. */
module Basics {

  datatype Option<+T> = None | Some(value: T)

  /** The selected images of the elements of s, in order. */
  function FilterMap<T, U>(s: seq<T>, f: T -> Option<U>): seq<U>
  {
    if s == [] then []
    else FilterMap(s[..|s| - 1], f) + (match f(s[|s| - 1]) case None => [] case Some(u) => [u])
  }

  lemma FilterMapSnoc<T, U>(s: seq<T>, x: T, f: T -> Option<U>)
    ensures FilterMap(s + [x], f) == FilterMap(s, f) + (match f(x) case None => [] case Some(u) => [u])
  {
    assert (s + [x])[..|s|] == s;
  }

  lemma {:induction false} FilterMapMembers<T, U>(s: seq<T>, f: T -> Option<U>, u: U)
    ensures u in FilterMap(s, f) <==> exists t :: t in s && f(t) == Some(u)
  {
    if s != [] {
      var init := s[..|s| - 1];
      FilterMapMembers(init, f, u);
      assert s == init + [s[|s| - 1]];
    }
  }

  /** Two selections that keep the same elements line up position by position. */
  lemma {:induction false} FilterMapAligned<T, U, V>(s: seq<T>, f: T -> Option<U>, g: T -> Option<V>)
    requires forall t | t in s :: f(t).Some? <==> g(t).Some?
    ensures |FilterMap(s, f)| == |FilterMap(s, g)|
    ensures forall i | 0 <= i < |FilterMap(s, f)| ::
              exists t :: t in s && f(t) == Some(FilterMap(s, f)[i]) && g(t) == Some(FilterMap(s, g)[i])
  {
    if s != [] {
      var init, last := s[..|s| - 1], s[|s| - 1];
      assert s == init + [last];
      FilterMapAligned(init, f, g);
      forall i | 0 <= i < |FilterMap(s, f)|
        ensures exists t :: t in s && f(t) == Some(FilterMap(s, f)[i]) && g(t) == Some(FilterMap(s, g)[i])
      {
        if i < |FilterMap(init, f)| {
          var t :| t in init && f(t) == Some(FilterMap(init, f)[i]) && g(t) == Some(FilterMap(init, g)[i]);
          assert t in s;
        } else {
          assert last in s;
        }
      }
    }
  }

  /** Strings ordered character by character, a prefix first. */
  predicate StrLe(a: string, b: string)
  {
    a == [] || (b != [] && (a[0] < b[0] || (a[0] == b[0] && StrLe(a[1..], b[1..]))))
  }

  lemma {:induction false} StrLeTotal(a: string, b: string)
    ensures StrLe(a, b) || StrLe(b, a)
  {
    if a != [] && b != [] && a[0] == b[0] {
      StrLeTotal(a[1..], b[1..]);
    }
  }

  lemma {:induction false} StrLeTransitive(a: string, b: string, c: string)
    requires StrLe(a, b) && StrLe(b, c)
    ensures StrLe(a, c)
  {
    if a != [] && a[0] == b[0] == c[0] {
      StrLeTransitive(a[1..], b[1..], c[1..]);
    }
  }

  lemma {:induction false} StrLeAntisymmetric(a: string, b: string)
    requires StrLe(a, b) && StrLe(b, a)
    ensures a == b
  {
    if a != [] {
      StrLeAntisymmetric(a[1..], b[1..]);
      assert a == [a[0]] + a[1..] && b == [b[0]] + b[1..];
    }
  }
}

/** Sorting by a caller-supplied order; the database's ORDER BY is modelled by InsertionSort. */
module Sorting {

  ghost predicate TotalPreorder<T(!new)>(le: (T, T) -> bool)
  {
    && (forall a, b :: le(a, b) || le(b, a))
    && (forall a, b, c :: le(a, b) && le(b, c) ==> le(a, c))
  }

  ghost predicate Sorted<T>(s: seq<T>, le: (T, T) -> bool)
  {
    forall i, j | 0 <= i < j < |s| :: le(s[i], s[j])
  }

  function Insert<T>(x: T, s: seq<T>, le: (T, T) -> bool): (r: seq<T>)
    ensures multiset(r) == multiset([x]) + multiset(s)
  {
    if s == [] then [x]
    else if le(x, s[0]) then [x] + s
    else
      assert s == [s[0]] + s[1..];
      [s[0]] + Insert(x, s[1..], le)
  }

  function InsertionSort<T>(s: seq<T>, le: (T, T) -> bool): (r: seq<T>)
    ensures multiset(r) == multiset(s)
  {
    if s == [] then []
    else
      assert s == [s[0]] + s[1..];
      Insert(s[0], InsertionSort(s[1..], le), le)
  }

  lemma {:induction false} InsertSorted<T(!new)>(x: T, s: seq<T>, le: (T, T) -> bool)
    requires TotalPreorder(le) && Sorted(s, le)
    ensures Sorted(Insert(x, s, le), le)
  {
    if s != [] {
      if le(x, s[0]) {
        forall i, j | 0 <= i < j < |s| + 1 ensures le(([x] + s)[i], ([x] + s)[j]) {
          if i == 0 && j > 1 { assert le(s[0], s[j - 1]); }
        }
      } else {
        InsertSorted(x, s[1..], le);
        var r := Insert(x, s[1..], le);
        forall k | 0 <= k < |r| ensures le(s[0], r[k]) {
          assert r[k] in multiset(r);
          assert r[k] == x || r[k] in s[1..];
        }
      }
    }
  }

  lemma {:induction false} SortSorted<T(!new)>(s: seq<T>, le: (T, T) -> bool)
    requires TotalPreorder(le)
    ensures Sorted(InsertionSort(s, le), le)
  {
    if s != [] {
      SortSorted(s[1..], le);
      InsertSorted(s[0], InsertionSort(s[1..], le), le);
    }
  }

  lemma SameElements<T>(a: seq<T>, b: seq<T>, x: T)
    requires multiset(a) == multiset(b)
    ensures x in a <==> x in b
  {
    assert x in multiset(a) <==> x in a;
    assert x in multiset(b) <==> x in b;
  }

  lemma SortedHead<T>(s: seq<T>, le: (T, T) -> bool, x: T)
    requires Sorted(s, le) && x in s && x != s[0]
    ensures le(s[0], x)
  {
    var i :| 0 <= i < |s| && s[i] == x;
  }

  lemma RestOf<T>(s: seq<T>)
    requires s != []
    ensures multiset(s[1..]) == multiset(s) - multiset{s[0]}
  {
    assert s == [s[0]] + s[1..];
  }

  /** A sorted arrangement of given elements is unique when no two different elements tie. */
  lemma {:induction false} SortedUnique<T(!new)>(a: seq<T>, b: seq<T>, le: (T, T) -> bool)
    requires Sorted(a, le) && Sorted(b, le)
    requires multiset(a) == multiset(b)
    requires forall x, y | x in a && y in a && le(x, y) && le(y, x) :: x == y
    ensures a == b
    decreases |a|
  {
    assert |multiset(a)| == |a| && |multiset(b)| == |b|;
    if a != [] {
      var x, y := a[0], b[0];
      SameElements(a, b, x);
      SameElements(a, b, y);
      if x != y {
        SortedHead(a, le, y);
        SortedHead(b, le, x);
      }
      assert a == [x] + a[1..] && b == [y] + b[1..];
      RestOf(a);
      RestOf(b);
      SortedUnique(a[1..], b[1..], le);
      assert a[1..] == b[1..];
    }
  }

  /** An already sorted sequence is left alone. */
  lemma {:induction false} SortFixpoint<T(!new)>(s: seq<T>, le: (T, T) -> bool)
    requires Sorted(s, le)
    ensures InsertionSort(s, le) == s
  {
    if s != [] {
      SortFixpoint(s[1..], le);
      if |s| > 1 { assert le(s[0], s[1]); }
    }
  }
}
