/** The ordered operator list of an execution unit, and the list operations
    `replace` performs on it: indexOf, remove and add-at-index. */
module OperatorLists {

  /** Identity of an operator object. */
  type OpId = nat

  /** An operator occurs at most once in an execution unit. */
  predicate NoDup(s: seq<OpId>)
  {
    forall i, j :: 0 <= i < j < |s| ==> s[i] != s[j]
  }

  /** List.indexOf for an element that is present: the first position holding `x`. */
  function IndexOf(s: seq<OpId>, x: OpId): (i: nat)
    requires x in s
    ensures i < |s| && s[i] == x
    ensures x !in s[..i]
  {
    if s[0] == x then 0
    else
      var j := IndexOf(s[1..], x);
      assert s[..j + 1] == [s[0]] + s[1..][..j];
      j + 1
  }

  /** List.remove(index): the element at `i` leaves, later elements move down by one. */
  function RemoveAt(s: seq<OpId>, i: nat): (r: seq<OpId>)
    requires i < |s|
    ensures |r| == |s| - 1
    ensures forall k :: 0 <= k < i ==> r[k] == s[k]
    ensures forall k :: i <= k < |r| ==> r[k] == s[k + 1]
  {
    s[..i] + s[i + 1..]
  }

  /** List.add(index, x): `x` lands at `i`, elements from `i` on move up by one. */
  function InsertAt(s: seq<OpId>, i: nat, x: OpId): (r: seq<OpId>)
    requires i <= |s|
    ensures |r| == |s| + 1 && r[i] == x
    ensures forall k :: 0 <= k < i ==> r[k] == s[k]
    ensures forall k :: i < k < |r| ==> r[k] == s[k - 1]
  {
    s[..i] + [x] + s[i..]
  }

  /** The list with every occurrence of `x` dropped: what the other operators look like in order. */
  function Without(s: seq<OpId>, x: OpId): seq<OpId>
  {
    if s == [] then []
    else if s[0] == x then Without(s[1..], x)
    else [s[0]] + Without(s[1..], x)
  }

  lemma {:induction false} WithoutAppend(a: seq<OpId>, b: seq<OpId>, x: OpId)
    ensures Without(a + b, x) == Without(a, x) + Without(b, x)
  {
    if a == [] {
      assert a + b == b;
    } else {
      assert (a + b)[0] == a[0] && (a + b)[1..] == a[1..] + b;
      WithoutAppend(a[1..], b, x);
    }
  }

  lemma {:induction false} WithoutAbsent(s: seq<OpId>, x: OpId)
    requires x !in s
    ensures Without(s, x) == s
  {
    if s != [] {
      WithoutAbsent(s[1..], x);
    }
  }

  /** After RemoveAt on a duplicate-free list, the list is still duplicate-free and
      holds exactly the other operators. */
  lemma RemovedMembers(s: seq<OpId>, i: nat)
    requires i < |s| && NoDup(s)
    ensures NoDup(RemoveAt(s, i))
    ensures forall x :: x in RemoveAt(s, i) <==> x in s && x != s[i]
  {
    var r := RemoveAt(s, i);
    forall k, l | 0 <= k < l < |r| ensures r[k] != r[l] {
      var k' := if k < i then k else k + 1;
      var l' := if l < i then l else l + 1;
      assert r[k] == s[k'] && r[l] == s[l'] && k' < l';
    }
    forall x ensures x in r <==> x in s && x != s[i] {
      if x in r {
        var k :| 0 <= k < |r| && r[k] == x;
        assert s[if k < i then k else k + 1] == x;
      }
      if x in s && x != s[i] {
        var j :| 0 <= j < |s| && s[j] == x;
        assert r[if j < i then j else j - 1] == x;
      }
    }
  }

  /** After InsertAt of a new operator into a duplicate-free list, the list is still
      duplicate-free and holds the old operators and the new one. */
  lemma InsertedMembers(s: seq<OpId>, i: nat, x: OpId)
    requires i <= |s| && NoDup(s) && x !in s
    ensures NoDup(InsertAt(s, i, x))
    ensures forall y :: y in InsertAt(s, i, x) <==> y in s || y == x
  {
    var r := InsertAt(s, i, x);
    forall k, l | 0 <= k < l < |r| ensures r[k] != r[l] {
      if k != i && l != i {
        var k' := if k < i then k else k - 1;
        var l' := if l < i then l else l - 1;
        assert r[k] == s[k'] && r[l] == s[l'] && k' < l';
      }
    }
    forall y ensures y in r <==> y in s || y == x {
      if y in r && y != x {
        var k :| 0 <= k < |r| && r[k] == y;
        assert s[if k < i then k else k - 1] == y;
      }
      if y in s {
        var j :| 0 <= j < |s| && s[j] == y;
        assert r[if j < i then j else j + 1] == y;
      }
    }
  }

  /** Two duplicate-free lists with no operator in common concatenate to a
      duplicate-free list. */
  lemma AppendedMembers(a: seq<OpId>, b: seq<OpId>)
    requires NoDup(a) && NoDup(b) && forall x :: x in a ==> x !in b
    ensures NoDup(a + b)
    ensures forall x :: x in a + b <==> x in a || x in b
  {
    var r := a + b;
    forall k, l | 0 <= k < l < |r| ensures r[k] != r[l] {
      if l < |a| {
        assert r[k] == a[k] && r[l] == a[l];
      } else if k < |a| {
        assert r[k] == a[k] && r[l] == b[l - |a|] && a[k] in a;
      } else {
        assert r[k] == b[k - |a|] && r[l] == b[l - |a|];
      }
    }
  }

  /** Removing the operator at `i` and inserting `y` at the same index puts `y` exactly
      where the old operator was and keeps every other operator at its position. */
  lemma ReplacedInPlace(s: seq<OpId>, i: nat, y: OpId)
    requires i < |s|
    ensures InsertAt(RemoveAt(s, i), i, y) == s[i := y]
  {
    var r := InsertAt(RemoveAt(s, i), i, y);
    assert forall k :: 0 <= k < |s| && k != i ==> r[k] == s[k];
  }

  /** Overwriting one operator of a duplicate-free list with a new one keeps it duplicate-free. */
  lemma OverwrittenMembers(s: seq<OpId>, i: nat, y: OpId)
    requires i < |s| && NoDup(s) && y !in s
    ensures NoDup(s[i := y])
  {
    var r: seq<OpId> := s[i := y];
    forall k, l | 0 <= k < l < |r| ensures r[k] != r[l] {
      if k != i && l != i {
        assert r[k] == s[k] && r[l] == s[l];
      } else if k == i {
        assert r[l] == s[l] && s[l] in s;
      } else {
        assert r[k] == s[k] && s[k] in s;
      }
    }
  }

  /** The same replacement leaves the other operators in their order. */
  lemma ReplacedKeepsOrder(s: seq<OpId>, i: nat, y: OpId)
    requires i < |s| && NoDup(s) && y !in s
    ensures Without(s[i := y], y) == Without(s, s[i])
  {
    var r := s[i := y];
    assert r == s[..i] + [y] + s[i + 1..];
    assert s == s[..i] + [s[i]] + s[i + 1..];
    assert s[i] !in s[..i] && s[i] !in s[i + 1..] by {
      forall k | 0 <= k < |s| && k != i ensures s[k] != s[i] { }
    }
    WithoutAppend(s[..i] + [y], s[i + 1..], y);
    WithoutAppend(s[..i], [y], y);
    WithoutAppend(s[..i] + [s[i]], s[i + 1..], s[i]);
    WithoutAppend(s[..i], [s[i]], s[i]);
    WithoutAbsent(s[..i], y);
    WithoutAbsent(s[i + 1..], y);
    WithoutAbsent(s[..i], s[i]);
    WithoutAbsent(s[i + 1..], s[i]);
    assert Without([y], y) == [] && Without([s[i]], s[i]) == [];
  }
}
