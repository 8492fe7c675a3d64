/** Facts about sequences shared by the id lists of the game state and the scenes. */
module Lists {

  /** No element occurs twice. */
  predicate NoDup<T(==)>(s: seq<T>) {
    forall i, j :: 0 <= i < j < |s| ==> s[i] != s[j]
  }

  /** `s.indexOf(x)` for an element that occurs: the position of its first occurrence. */
  function FirstIndex<T(==)>(s: seq<T>, x: T): (i: nat)
    requires x in s
    ensures i < |s| && s[i] == x
    ensures forall k :: 0 <= k < i ==> s[k] != x
  {
    if s[0] == x then 0 else 1 + FirstIndex(s[1..], x)
  }

  /** Appending `y` moves no first occurrence, and a new `y` first occurs at the end. */
  lemma FirstIndexAppend<T>(s: seq<T>, y: T)
    ensures forall x :: x in s ==> FirstIndex(s + [y], x) == FirstIndex(s, x)
    ensures y !in s ==> FirstIndex(s + [y], y) == |s|
  {
    forall x | x in s
      ensures FirstIndex(s + [y], x) == FirstIndex(s, x)
    {
      var i, j := FirstIndex(s + [y], x), FirstIndex(s, x);
      assert (s + [y])[j] == x;
    }
  }

  /** `s.filter(e => e !== x)`: every occurrence of `x` removed, the rest in order. */
  function Without<T(==,!new)>(s: seq<T>, x: T): (r: seq<T>)
    ensures forall y :: y in r <==> y in s && y != x
    ensures |r| <= |s|
    ensures multiset(r) == multiset(s)[x := 0]
  {
    if s == [] then []
    else
      assert s == [s[0]] + s[1..];
      if s[0] == x then Without(s[1..], x)
      else [s[0]] + Without(s[1..], x)
  }

  /** The filter distributes over concatenation, so the kept elements stay in their order, each with
      its copies (each single element is kept or dropped by WithoutOne). */
  lemma {:induction false} WithoutAppend<T(!new)>(a: seq<T>, b: seq<T>, x: T)
    ensures Without(a + b, x) == Without(a, x) + Without(b, x)
    decreases |a|
  {
    if a == [] {
      assert a + b == b;
    } else {
      var ab := a + b;
      assert ab[0] == a[0] && ab[1..] == a[1..] + b;
      WithoutAppend(a[1..], b, x);
      if a[0] == x {
        assert Without(ab, x) == Without(ab[1..], x);
      } else {
        assert Without(ab, x) == [a[0]] + Without(ab[1..], x);
      }
    }
  }

  /** A single element is kept exactly when it differs from `x`. */
  lemma WithoutOne<T(!new)>(y: T, x: T)
    ensures Without([y], x) == if y == x then [] else [y]
  {
    assert [y][1..] == [];
  }

  /** Removing an element that occurs exactly once shortens the list by one and keeps it duplicate-free. */
  lemma {:induction false} WithoutPresent<T(!new)>(s: seq<T>, x: T)
    requires NoDup(s) && x in s
    ensures |Without(s, x)| == |s| - 1
    ensures NoDup(Without(s, x))
  {
    if s[0] == x {
      assert x !in s[1..];
      WithoutAbsent(s[1..], x);
    } else {
      assert NoDup(s[1..]);
      WithoutPresent(s[1..], x);
      assert s[0] !in Without(s[1..], x);
    }
  }

  /** Removing an element that does not occur changes nothing. */
  lemma {:induction false} WithoutAbsent<T(!new)>(s: seq<T>, x: T)
    requires x !in s
    ensures Without(s, x) == s
  {
    if s != [] {
      WithoutAbsent(s[1..], x);
    }
  }

  /** A duplicate-free sequence has as many distinct elements as it has entries. */
  lemma {:induction false} NoDupCard<T>(s: seq<T>)
    requires NoDup(s)
    ensures |set x | x in s| == |s|
  {
    if s != [] {
      var tail := s[1..];
      assert NoDup(tail);
      NoDupCard(tail);
      assert s[0] !in tail;
      assert (set x | x in s) == (set x | x in tail) + {s[0]};
    }
  }
}
