/**
 * The java.util.List operations the controllers apply to their child lists
 * (`add(index, e)`, `remove(index)`, `remove(Object)`, `indexOf`), and the
 * early-returning linear searches of the `find*View` methods, on sequences.
 * Java compares the controllers' objects by reference; here the elements are
 * values. The pipeline's objects carry an identity field, so for them value
 * equality is reference equality. Views carry no identity of their own: two
 * views of one object are equal here though distinct in Java. Every removal by
 * value removes the first equal element, which is the view the search found
 * (`FoundElementIsFirstEqual`), so the difference never shows.
 */
module JavaLists {
  import opened Outcomes

  /** `List.add(index, x)`: `x` lands at `index`, the elements from `index` on move one place right. */
  function Insert<T>(s: seq<T>, index: nat, x: T): (r: seq<T>)
    requires index <= |s|
    ensures |r| == |s| + 1 && r[index] == x
    ensures forall k :: 0 <= k < index ==> r[k] == s[k]
    ensures forall k :: index < k < |r| ==> r[k] == s[k - 1]
    ensures multiset(r) == multiset(s) + multiset{x}
  {
    assert s == s[..index] + s[index..];
    s[..index] + [x] + s[index..]
  }

  /** `List.remove(int index)`: the element at `index` leaves, the later ones move one place left. */
  function RemoveAt<T>(s: seq<T>, index: nat): (r: seq<T>)
    requires index < |s|
    ensures |r| == |s| - 1
    ensures forall k :: 0 <= k < index ==> r[k] == s[k]
    ensures forall k :: index <= k < |r| ==> r[k] == s[k + 1]
    ensures multiset(r) == multiset(s) - multiset{s[index]}
  {
    assert s == s[..index] + [s[index]] + s[index + 1..];
    s[..index] + s[index + 1..]
  }

  /** Removing what was just inserted gives the list back. */
  lemma InsertThenRemove<T>(s: seq<T>, index: nat, x: T)
    requires index <= |s|
    ensures RemoveAt(Insert(s, index, x), index) == s
  {
  }

  /** Re-inserting a removed element at its old place gives the list back. */
  lemma RemoveThenInsert<T>(s: seq<T>, index: nat)
    requires index < |s|
    ensures Insert(RemoveAt(s, index), index, s[index]) == s
  {
  }

  /** The key function that makes a keyed search an equality search (`List.indexOf`). */
  function Self<T>(x: T): T { x }

  /**
   * The index of the first element whose key is `m`, or None when there is
   * none: the loops of `findSourceView`, `findStepView` and
   * `findConnectionView`, and `List.indexOf` with the key `Self`.
   */
  function FirstMatch<V, M(==)>(s: seq<V>, m: M, key: V -> M): (r: Option<nat>)
    ensures r.Some? ==> r.value < |s| && key(s[r.value]) == m
    ensures r.Some? ==> forall k :: 0 <= k < r.value ==> key(s[k]) != m
    ensures r.None? <==> forall k :: 0 <= k < |s| ==> key(s[k]) != m
    decreases |s|
  {
    if |s| == 0 then None
    else if key(s[0]) == m then Some(0)
    else match FirstMatch(s[1..], m, key)
      case None => None
      case Some(i) => Some(i + 1)
  }

  /** The early-returning search loop itself. */
  method IndexWhere<V, M(==)>(s: seq<V>, m: M, key: V -> M) returns (r: Option<nat>)
    ensures r == FirstMatch(s, m, key)
  {
    var i := 0;
    while i < |s|
      invariant 0 <= i <= |s|
      invariant forall k :: 0 <= k < i ==> key(s[k]) != m
    {
      if key(s[i]) == m {
        return Some(i);
      }
      i := i + 1;
    }
    return None;
  }

  /**
   * The position of the first occurrence of `x` in a list of rows, scanning the
   * rows in order and each row in order: the nested loops of
   * `findInputSocketView` and `findOutputSocketView`.
   */
  function FirstInRows<T(==)>(rows: seq<seq<T>>, x: T): (r: Option<(nat, nat)>)
    ensures r.Some? ==> r.value.0 < |rows| && r.value.1 < |rows[r.value.0]|
    ensures r.Some? ==> rows[r.value.0][r.value.1] == x
    ensures r.Some? ==> forall k :: 0 <= k < r.value.0 ==> x !in rows[k]
    ensures r.Some? ==> forall l :: 0 <= l < r.value.1 ==> rows[r.value.0][l] != x
    ensures r.None? <==> forall k :: 0 <= k < |rows| ==> x !in rows[k]
    decreases |rows|
  {
    if |rows| == 0 then None
    else match FirstMatch(rows[0], x, Self)
      case Some(j) => Some((0, j))
      case None =>
        match FirstInRows(rows[1..], x)
        case None => None
        case Some(p) => Some((p.0 + 1, p.1))
  }

  /** The nested search loops. */
  method IndexInRows<T(==)>(rows: seq<seq<T>>, x: T) returns (r: Option<(nat, nat)>)
    ensures r == FirstInRows(rows, x)
  {
    var i := 0;
    while i < |rows|
      invariant 0 <= i <= |rows|
      invariant forall k :: 0 <= k < i ==> x !in rows[k]
    {
      var j := 0;
      while j < |rows[i]|
        invariant 0 <= j <= |rows[i]|
        invariant forall l :: 0 <= l < j ==> rows[i][l] != x
      {
        if rows[i][j] == x {
          return Some((i, j));
        }
        j := j + 1;
      }
      i := i + 1;
    }
    return None;
  }

  /** `List.remove(Object x)`: drops the first element equal to `x`, if there is one. */
  function RemoveFirst<T(==)>(s: seq<T>, x: T): (r: seq<T>)
    ensures x !in s ==> r == s
    ensures x in s ==> |r| == |s| - 1 && multiset(r) == multiset(s) - multiset{x}
    decreases |s|
  {
    if |s| == 0 then s
    else if s[0] == x then assert s == [s[0]] + s[1..]; s[1..]
    else
      assert s == [s[0]] + s[1..];
      assert multiset(s) == multiset{s[0]} + multiset(s[1..]);
      assert x in s <==> x in s[1..];
      [s[0]] + RemoveFirst(s[1..], x)
  }

  /** Removing a position past the head keeps the head and removes from the tail. */
  lemma RemoveAtTail<T>(s: seq<T>, i: nat)
    requires 0 < i < |s|
    ensures RemoveAt(s, i) == [s[0]] + RemoveAt(s[1..], i - 1)
  {
    assert s[..i] == [s[0]] + s[1..][..i - 1];
    assert s[i + 1..] == s[1..][i..];
  }

  /** When no element before position `i` equals `s[i]`, removing `s[i]` by value removes position `i`. */
  lemma {:induction false} RemoveFirstAt<T>(s: seq<T>, i: nat)
    requires i < |s|
    requires forall k :: 0 <= k < i ==> s[k] != s[i]
    ensures RemoveFirst(s, s[i]) == RemoveAt(s, i)
    decreases i
  {
    if i > 0 {
      var tail := s[1..];
      assert tail[i - 1] == s[i];
      assert forall k :: 0 <= k < i - 1 ==> tail[k] == s[k + 1];
      RemoveFirstAt(tail, i - 1);
      RemoveAtTail(s, i);
    } else {
      assert RemoveAt(s, 0) == s[1..];
    }
  }

  /**
   * The view a `find*View` loop returns sits at the index it was found at, so
   * `indexOf` of that view gives the same index and `remove(view)` removes
   * exactly that position.
   */
  lemma FoundElementIsFirstEqual<V, M>(s: seq<V>, m: M, key: V -> M, i: nat)
    requires FirstMatch(s, m, key) == Some(i)
    ensures FirstMatch(s, s[i], Self) == Some(i)
    ensures RemoveFirst(s, s[i]) == RemoveAt(s, i)
  {
    assert forall k :: 0 <= k < i ==> s[k] != s[i] by {
      forall k | 0 <= k < i ensures s[k] != s[i] {
        assert key(s[k]) != m;
      }
    }
    RemoveFirstAt(s, i);
  }

  /** `remove(from)` then `add(to, element)`: the reordering of `onStepMoved`. */
  function Move<T>(s: seq<T>, from: nat, to: nat): (r: seq<T>)
    requires from < |s| && to < |s|
    ensures |r| == |s| && r[to] == s[from]
  {
    Insert(RemoveAt(s, from), to, s[from])
  }

  /**
   * A move is a permutation that puts the moved element at `to` and keeps every
   * other element in its relative order: taking the moved element out of the
   * result and out of the input leaves the same list.
   */
  lemma MoveIsReordering<T>(s: seq<T>, from: nat, to: nat)
    requires from < |s| && to < |s|
    ensures |Move(s, from, to)| == |s|
    ensures multiset(Move(s, from, to)) == multiset(s)
    ensures Move(s, from, to)[to] == s[from]
    ensures RemoveAt(Move(s, from, to), to) == RemoveAt(s, from)
  {
    InsertThenRemove(RemoveAt(s, from), to, s[from]);
  }

  /** Moving an element to where it already is changes nothing. */
  lemma MoveInPlace<T>(s: seq<T>, i: nat)
    requires i < |s|
    ensures Move(s, i, i) == s
  {
    RemoveThenInsert(s, i);
  }

  /** No element occurs twice. */
  predicate NoDuplicates<T(==)>(s: seq<T>)
  {
    forall i, j :: 0 <= i < j < |s| ==> s[i] != s[j]
  }
}
