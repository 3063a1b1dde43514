/**
 * The list idioms the screens use on selections held in React state:
 * `list.filter(x => x !== item)` and the membership toggle
 * `list.includes(item) ? list.filter(x => x !== item) : [...list, item]`.
 */
module ListOps {

  /** `s.filter(y => y !== x)`: every copy of `x` goes, the rest keep their order. */
  function Remove<T(==, !new)>(s: seq<T>, x: T): (r: seq<T>)
    ensures |r| <= |s|
    ensures x !in r
    ensures forall y :: y in r <==> y in s && y != x
    ensures forall y :: y != x ==> multiset(r)[y] == multiset(s)[y]
  {
    if s == [] then []
    else
      var rest := Remove(s[1..], x);
      assert s == [s[0]] + s[1..];
      if s[0] == x then rest else [s[0]] + rest
  }

  /** Removing an absent item changes nothing. */
  lemma {:induction false} RemoveAbsent<T(!new)>(s: seq<T>, x: T)
    requires x !in s
    ensures Remove(s, x) == s
  {
    if s != [] {
      RemoveAbsent(s[1..], x);
    }
  }

  /** Removal works piecewise, so the survivors keep their relative order. */
  lemma {:induction false} RemoveConcat<T(!new)>(a: seq<T>, b: seq<T>, x: T)
    ensures Remove(a + b, x) == Remove(a, x) + Remove(b, x)
  {
    if a == [] {
      assert a + b == b;
    } else {
      var head, ra, rb := a[0], Remove(a[1..], x), Remove(b, x);
      assert (a + b)[0] == head && (a + b)[1..] == a[1..] + b;
      RemoveConcat(a[1..], b, x);
      if head != x {
        assert [head] + (ra + rb) == ([head] + ra) + rb;
      }
    }
  }

  /** Select an item that is not selected, deselect one that is. */
  function Toggle<T(==, !new)>(s: seq<T>, x: T): (r: seq<T>)
    ensures x in r <==> x !in s
    ensures forall y :: y != x ==> (y in r <==> y in s)
    ensures x !in s ==> r == s + [x]
    ensures x in s ==> r == Remove(s, x)
  {
    if x in s then Remove(s, x) else s + [x]
  }

  /** Toggling an unselected item twice gives the same list back. */
  lemma ToggleTwiceAbsent<T(!new)>(s: seq<T>, x: T)
    requires x !in s
    ensures Toggle(Toggle(s, x), x) == s
  {
    var t := s + [x];
    RemoveConcat(s, [x], x);
    RemoveAbsent(s, x);
    assert Remove([x], x) == [];
  }

  /** Toggling a selected item twice keeps the same members, but the item
      moves to the end and its duplicates collapse into one. */
  lemma ToggleTwicePresent<T(!new)>(s: seq<T>, x: T)
    requires x in s
    ensures Toggle(Toggle(s, x), x) == Remove(s, x) + [x]
    ensures forall y :: y in Toggle(Toggle(s, x), x) <==> y in s
  {
  }

  /** `s.filter(f)`. */
  function Filter<T(!new)>(s: seq<T>, f: T -> bool): (r: seq<T>)
    ensures |r| <= |s|
    ensures forall y :: y in r <==> y in s && f(y)
    ensures forall k :: 0 <= k < |r| ==> f(r[k])
    ensures (forall k :: 0 <= k < |s| ==> !f(s[k])) ==> r == []
  {
    if s == [] then []
    else
      var rest := Filter(s[1..], f);
      assert s == [s[0]] + s[1..];
      if f(s[0]) then [s[0]] + rest else rest
  }

  /** An element the filter rejects adds nothing at the end. */
  lemma {:induction false} FilterAppendRejected<T(!new)>(s: seq<T>, x: T, f: T -> bool)
    requires !f(x)
    ensures Filter(s + [x], f) == Filter(s, f)
  {
    if s == [] {
      assert Filter([x], f) == Filter([x][1..], f);
    } else {
      assert (s + [x])[1..] == s[1..] + [x];
      FilterAppendRejected(s[1..], x, f);
    }
  }

  /** A filter every element passes keeps the whole list. */
  lemma {:induction false} FilterKeepsAll<T(!new)>(s: seq<T>, f: T -> bool)
    requires forall k :: 0 <= k < |s| ==> f(s[k])
    ensures Filter(s, f) == s
  {
    if s != [] {
      assert forall k :: 0 <= k < |s| - 1 ==> s[1..][k] == s[k + 1];
      FilterKeepsAll(s[1..], f);
    }
  }

  /** `a` is `b` with some elements left out, in order. */
  predicate IsSubsequence<T(==, !new)>(a: seq<T>, b: seq<T>)
    decreases |b|
  {
    if a == [] then true
    else if b == [] then false
    else if a[0] == b[0] then IsSubsequence(a[1..], b[1..])
    else IsSubsequence(a, b[1..])
  }

  /** A filter keeps a subsequence of its input. */
  lemma {:induction false} FilterSubsequence<T(!new)>(s: seq<T>, f: T -> bool)
    ensures IsSubsequence(Filter(s, f), s)
  {
    if s != [] {
      FilterSubsequence(s[1..], f);
      var r := Filter(s, f);
      if f(s[0]) {
        assert r[1..] == Filter(s[1..], f);
      } else {
        SkipHead(Filter(s[1..], f), s);
      }
    }
  }

  /** A subsequence of the tail is a subsequence of the whole. */
  lemma {:induction false} SkipHead<T(!new)>(a: seq<T>, b: seq<T>)
    requires b != [] && IsSubsequence(a, b[1..])
    ensures IsSubsequence(a, b)
    decreases |b|, 0
  {
    if a != [] && a[0] == b[0] {
      SubsequenceTail(a, b[1..]);
    }
  }

  /** Dropping the head of a subsequence keeps it a subsequence. */
  lemma {:induction false} SubsequenceTail<T(!new)>(a: seq<T>, b: seq<T>)
    requires a != [] && IsSubsequence(a, b)
    ensures IsSubsequence(a[1..], b)
    decreases |b|, 1
  {
    if b == [] {
    } else if a[0] == b[0] {
      if a[1..] != [] { SkipHead(a[1..], b); }
    } else {
      SubsequenceTail(a, b[1..]);
      if a[1..] != [] { SkipHead(a[1..], b); }
    }
  }
}
