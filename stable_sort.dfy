/** The contract of a stable Array.prototype.sort, given as a functional
    insertion sort over a "may come before" relation `le`.

    A JavaScript comparator `cmp` corresponds to `le(a, b) == (cmp(a, b) <= 0)`;
    for the comparators of the dashboard (numeric differences and
    localeCompare) this relation is a total preorder. The lemmas below state
    what callers rely on: the output is sorted, a permutation of the input,
    weighs the same under any measure, and elements that compare equal keep
    their input order. */
module StableSort {
  import opened Seqs

  ghost predicate TotalPreorder<T(!new)>(le: (T, T) -> bool)
  {
    && (forall a, b :: le(a, b) || le(b, a))
    && (forall a, b, c :: le(a, b) && le(b, c) ==> le(a, c))
  }

  ghost predicate SortedBy<T>(s: seq<T>, le: (T, T) -> bool)
  {
    forall i, j :: 0 <= i < j < |s| ==> le(s[i], s[j])
  }

  /** `x` goes in front of the first element it may come before; elements
      that compare equal to `x` therefore stay behind it. */
  function Insert<T>(x: T, s: seq<T>, le: (T, T) -> bool): (r: seq<T>)
    ensures |r| == |s| + 1
    ensures multiset(r) == multiset{x} + multiset(s)
  {
    if s == [] || le(x, s[0]) then [x] + s
    else
      assert s == [s[0]] + s[1..];
      [s[0]] + Insert(x, s[1..], le)
  }

  function Sort<T>(s: seq<T>, le: (T, T) -> bool): (r: seq<T>)
    ensures |r| == |s|
    ensures multiset(r) == multiset(s)
  {
    if s == [] then []
    else
      assert s == [s[0]] + s[1..];
      Insert(s[0], Sort(s[1..], le), le)
  }

  lemma {:induction false} InsertSorted<T(!new)>(x: T, s: seq<T>, le: (T, T) -> bool)
    requires TotalPreorder(le) && SortedBy(s, le)
    ensures SortedBy(Insert(x, s, le), le)
  {
    if s == [] || le(x, s[0]) {
    } else {
      var rest := Insert(x, s[1..], le);
      InsertSorted(x, s[1..], le);
      assert le(s[0], x);
      forall k | 0 <= k < |rest| ensures le(s[0], rest[k]) {
        assert rest[k] in multiset(rest);
        assert rest[k] == x || rest[k] in multiset(s[1..]);
        if rest[k] != x {
          var j :| 0 <= j < |s[1..]| && s[1..][j] == rest[k];
          assert s[1 + j] == rest[k];
        }
      }
    }
  }

  lemma {:induction false} SortSorted<T(!new)>(s: seq<T>, le: (T, T) -> bool)
    requires TotalPreorder(le)
    ensures SortedBy(Sort(s, le), le)
  {
    if s != [] {
      SortSorted(s[1..], le);
      InsertSorted(s[0], Sort(s[1..], le), le);
    }
  }

  /** The elements that compare equal to `y`. */
  function EquivalentTo<T>(le: (T, T) -> bool, y: T): T -> bool
  {
    z => le(z, y) && le(y, z)
  }

  lemma {:induction false} InsertStable<T(!new)>(x: T, s: seq<T>, le: (T, T) -> bool, y: T)
    requires SeparatesClass(le, y)
    ensures Filter(Insert(x, s, le), EquivalentTo(le, y)) == Filter([x], EquivalentTo(le, y)) + Filter(s, EquivalentTo(le, y))
  {
    var p := EquivalentTo(le, y);
    if s == [] || le(x, s[0]) {
      FilterAppend([x], s, p);
    } else {
      var rest := Insert(x, s[1..], le);
      assert Insert(x, s, le) == [s[0]] + rest;
      FilterAppend([s[0]], rest, p);
      InsertStable(x, s[1..], le, y);
      FilterAppend([s[0]], s[1..], p);
      assert [s[0]] + s[1..] == s;
      NotBothInClass(le, y, x, s[0]);
      FilterSingleton(x, p);
      FilterSingleton(s[0], p);
    }
  }

  /** Two elements of one class may come before each other, so an element
      that may not come before another is not in its class. */
  lemma NotBothInClass<T(!new)>(le: (T, T) -> bool, y: T, x: T, z: T)
    requires SeparatesClass(le, y) && !le(x, z)
    ensures !EquivalentTo(le, y)(x) || !EquivalentTo(le, y)(z)
  {
  }

  /** Any two elements equivalent to `y` may come before each other. */
  ghost predicate SeparatesClass<T(!new)>(le: (T, T) -> bool, y: T)
  {
    forall a, b :: EquivalentTo(le, y)(a) && EquivalentTo(le, y)(b) ==> le(a, b)
  }

  lemma TotalPreorderSeparatesClasses<T(!new)>(le: (T, T) -> bool, y: T)
    requires TotalPreorder(le)
    ensures SeparatesClass(le, y)
  {
  }

  /** Stability: the elements equivalent to any `y` appear in the output in
      exactly the order they had in the input. */
  lemma {:induction false} SortStable<T(!new)>(s: seq<T>, le: (T, T) -> bool, y: T)
    requires TotalPreorder(le)
    ensures Filter(Sort(s, le), EquivalentTo(le, y)) == Filter(s, EquivalentTo(le, y))
  {
    if s != [] {
      SortStable(s[1..], le, y);
      TotalPreorderSeparatesClasses(le, y);
      InsertStable(s[0], Sort(s[1..], le), le, y);
      FilterAppend([s[0]], s[1..], EquivalentTo(le, y));
      assert [s[0]] + s[1..] == s;
    }
  }

  /** Stability for any predicate that picks out exactly one class of the
      preorder. */
  lemma SortKeepsClassOrder<T(!new)>(s: seq<T>, le: (T, T) -> bool, y: T, p: T -> bool)
    requires TotalPreorder(le)
    requires forall z :: p(z) <==> le(z, y) && le(y, z)
    ensures Filter(Sort(s, le), p) == Filter(s, p)
  {
    SortStable(s, le, y);
    FilterExtensional(Sort(s, le), EquivalentTo(le, y), p);
    FilterExtensional(s, EquivalentTo(le, y), p);
  }

  /** In a sorted sequence, everything before position `n` may come before
      everything from `n` on. */
  lemma SortedPrefixComesFirst<T>(s: seq<T>, le: (T, T) -> bool, n: nat)
    requires SortedBy(s, le) && n <= |s|
    ensures forall i, j :: 0 <= i < |s[n..]| && 0 <= j < |s[..n]| ==> le(s[..n][j], s[n..][i])
  {
    forall i, j | 0 <= i < |s[n..]| && 0 <= j < |s[..n]| ensures le(s[..n][j], s[n..][i]) {
      assert s[..n][j] == s[j] && s[n..][i] == s[n + i];
    }
  }

  lemma {:induction false} InsertPreservesSum<T>(x: T, s: seq<T>, le: (T, T) -> bool, w: T -> nat)
    ensures Sum(Insert(x, s, le), w) == w(x) + Sum(s, w)
  {
    if s != [] && !le(x, s[0]) {
      InsertPreservesSum(x, s[1..], le, w);
    }
  }

  lemma {:induction false} SortPreservesSum<T>(s: seq<T>, le: (T, T) -> bool, w: T -> nat)
    ensures Sum(Sort(s, le), w) == Sum(s, w)
  {
    if s != [] {
      SortPreservesSum(s[1..], le, w);
      InsertPreservesSum(s[0], Sort(s[1..], le), le, w);
    }
  }
}
