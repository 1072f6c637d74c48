/** Sequence helpers for the JavaScript collection idioms the core uses: a `Set`
    or an `includes`-guarded list as a duplicate-free sequence, `filter`, and
    removal of every occurrence. */
module Seqs {

  /** No element occurs twice: how a JavaScript `Set`, or a list kept with an
      `includes` check, looks as a sequence. */
  ghost predicate NoDup<T(!new)>(s: seq<T>)
  {
    forall y :: multiset(s)[y] <= 1
  }

  /** `s.filter(p => p !== x)` and `Set.delete(x)`. */
  function RemoveAll<T(==)>(s: seq<T>, x: T): (r: seq<T>)
    ensures multiset(r) == multiset(s)[x := 0]
    ensures x !in r
    ensures |r| <= |s|
  {
    if s == [] then []
    else
      assert s == [s[0]] + s[1..];
      (if s[0] == x then [] else [s[0]]) + RemoveAll(s[1..], x)
  }

  /** Adding to a `Set`, and `push` after an `includes` check: appended once. */
  function AddOnce<T(==,!new)>(s: seq<T>, x: T): (r: seq<T>)
    ensures x in r
    ensures forall y :: y in r <==> y in s || y == x
    ensures NoDup(s) ==> NoDup(r)
    ensures x in s ==> r == s
  {
    if x in s then s else s + [x]
  }

  lemma {:induction false} RemoveAllAbsent<T>(s: seq<T>, x: T)
    requires x !in s
    ensures RemoveAll(s, x) == s
    decreases |s|
  {
    if s != [] {
      RemoveAllAbsent(s[1..], x);
    }
  }

  lemma {:induction false} RemoveAllAppend<T>(s: seq<T>, t: seq<T>, x: T)
    ensures RemoveAll(s + t, x) == RemoveAll(s, x) + RemoveAll(t, x)
    decreases |s|
  {
    if s == [] {
      assert s + t == t;
    } else {
      assert (s + t)[1..] == s[1..] + t;
      RemoveAllAppend(s[1..], t, x);
    }
  }

  /** Removing what was just added once restores the original sequence: leaving
      undoes joining, unsubscribing undoes subscribing. */
  lemma RemoveUndoesAdd<T(!new)>(s: seq<T>, x: T)
    requires x !in s
    ensures RemoveAll(AddOnce(s, x), x) == s
  {
    RemoveAllAppend(s, [x], x);
    RemoveAllAbsent(s, x);
    assert RemoveAll([x], x) == [];
  }

  lemma RemoveAllKeepsNoDup<T(!new)>(s: seq<T>, x: T)
    ensures NoDup(s) ==> NoDup(RemoveAll(s, x))
  {
  }

  /** `s.filter(keep)`. */
  function Filter<T(==,!new)>(s: seq<T>, keep: T -> bool): (r: seq<T>)
    ensures |r| <= |s|
    ensures forall i :: 0 <= i < |r| ==> keep(r[i])
    ensures forall x {:trigger x in r} :: x in r <==> x in s && keep(x)
    ensures (forall i :: 0 <= i < |s| ==> keep(s[i])) ==> r == s
  {
    if s == [] then []
    else (if keep(s[0]) then [s[0]] else []) + Filter(s[1..], keep)
  }

  /** `filter` keeps every occurrence of a passing element and none of a failing one. */
  lemma {:induction false} FilterCounts<T(!new)>(s: seq<T>, keep: T -> bool, x: T)
    ensures multiset(Filter(s, keep))[x] == if keep(x) then multiset(s)[x] else 0
    decreases |s|
  {
    if s != [] {
      var head := if keep(s[0]) then [s[0]] else [];
      FilterCounts(s[1..], keep, x);
      assert s == [s[0]] + s[1..];
      assert multiset(s) == multiset([s[0]]) + multiset(s[1..]);
      assert multiset(Filter(s, keep)) == multiset(head) + multiset(Filter(s[1..], keep));
    }
  }

  lemma SplitLast<T>(s: seq<T>)
    requires s != []
    ensures s == s[..|s| - 1] + [s[|s| - 1]]
  {
  }

  lemma WholePrefix<T>(s: seq<T>)
    ensures s[..|s|] == s
  {
  }

  /** Filtering a concatenation filters each part: the order of what is kept is the
      order it had. */
  lemma {:induction false} FilterAppend<T(!new)>(a: seq<T>, b: seq<T>, keep: T -> bool)
    ensures Filter(a + b, keep) == Filter(a, keep) + Filter(b, keep)
    decreases |a|
  {
    if a == [] {
      assert a + b == b;
    } else {
      FilterAppend(a[1..], b, keep);
      FilterAppendStep(a, b, keep);
    }
  }

  lemma FilterAppendStep<T(!new)>(a: seq<T>, b: seq<T>, keep: T -> bool)
    requires a != [] && Filter(a[1..] + b, keep) == Filter(a[1..], keep) + Filter(b, keep)
    ensures Filter(a + b, keep) == Filter(a, keep) + Filter(b, keep)
  {
    var head := if keep(a[0]) then [a[0]] else [];
    ConsAppend(a, b);
    assert Filter(a + b, keep) == head + Filter(a[1..] + b, keep);
    AppendAssoc(head, Filter(a[1..], keep), Filter(b, keep));
  }

  lemma ConsAppend<T>(a: seq<T>, b: seq<T>)
    requires a != []
    ensures (a + b)[0] == a[0] && (a + b)[1..] == a[1..] + b
  {
  }

  lemma AppendAssoc<T>(x: seq<T>, y: seq<T>, z: seq<T>)
    ensures x + (y + z) == (x + y) + z
  {
  }
}
