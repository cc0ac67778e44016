/**
 * Drag-and-drop reordering as the three priority lists do it: copy the list,
 * `splice(source, 1)` the dragged item out, then `splice(destination, 0, item)`
 * it back in.
 */
module Reorder {

  /** The list after the two `splice` calls; indices come from the drag library and are in range. */
  function Moved<T>(s: seq<T>, source: nat, destination: nat): (r: seq<T>)
    requires source < |s| && destination < |s|
    ensures |r| == |s|
  {
    var rest := s[..source] + s[source + 1..];
    rest[..destination] + [s[source]] + rest[destination..]
  }

  /** Position by position: where each element of the result comes from. */
  lemma MovedAt<T>(s: seq<T>, source: nat, destination: nat, k: nat)
    requires source < |s| && destination < |s| && k < |s|
    ensures Moved(s, source, destination)[k] ==
      if k == destination then s[source]
      else if source <= k < destination then s[k + 1]
      else if destination < k <= source then s[k - 1]
      else s[k]
  {
  }

  /** The dragged item lands at the destination index. */
  lemma MovedLands<T>(s: seq<T>, source: nat, destination: nat)
    requires source < |s| && destination < |s|
    ensures Moved(s, source, destination)[destination] == s[source]
  {
  }

  /** Removing the moved item from the result gives the input with it removed: the others keep their relative order. */
  lemma MovedKeepsOthers<T>(s: seq<T>, source: nat, destination: nat)
    requires source < |s| && destination < |s|
    ensures var r := Moved(s, source, destination);
      r[..destination] + r[destination + 1..] == s[..source] + s[source + 1..]
  {
    var rest := s[..source] + s[source + 1..];
    var r := Moved(s, source, destination);
    assert r[..destination] == rest[..destination];
    assert r[destination + 1..] == rest[destination..];
    assert rest[..destination] + rest[destination..] == rest;
  }

  /** Items outside the range between source and destination keep their index. */
  lemma MovedKeepsOutsideIndices<T>(s: seq<T>, source: nat, destination: nat)
    requires source < |s| && destination < |s|
    ensures forall k :: 0 <= k < |s| && (k < source || k > destination) && (k < destination || k > source) ==>
      Moved(s, source, destination)[k] == s[k]
  {
    forall k | 0 <= k < |s| && (k < source || k > destination) && (k < destination || k > source)
      ensures Moved(s, source, destination)[k] == s[k]
    {
      MovedAt(s, source, destination, k);
    }
  }

  /** The result is a permutation of the input. */
  lemma MovedPermutation<T>(s: seq<T>, source: nat, destination: nat)
    requires source < |s| && destination < |s|
    ensures multiset(Moved(s, source, destination)) == multiset(s)
  {
    var rest := s[..source] + s[source + 1..];
    assert s == s[..source] + [s[source]] + s[source + 1..];
    assert multiset(s) == multiset(rest) + multiset{s[source]};
    assert rest == rest[..destination] + rest[destination..];
    assert multiset(Moved(s, source, destination))
        == multiset(rest[..destination]) + multiset{s[source]} + multiset(rest[destination..]);
  }

  /** Dropping an item where it was picked up changes nothing. */
  lemma MovedInPlace<T>(s: seq<T>, k: nat)
    requires k < |s|
    ensures Moved(s, k, k) == s
  {
    assert s == s[..k] + [s[k]] + s[k + 1..];
  }

  /** The two `splice` calls, done in place on an array by shifting the elements between the two indices. */
  method MoveInPlace<T>(a: array<T>, source: nat, destination: nat)
    requires source < a.Length && destination < a.Length
    modifies a
    ensures a[..] == Moved(old(a[..]), source, destination)
  {
    ghost var s := a[..];
    var item := a[source];
    if source < destination {
      var k := source;
      while k < destination
        invariant source <= k <= destination
        invariant forall j :: 0 <= j < source ==> a[j] == s[j]
        invariant forall j :: source <= j < k ==> a[j] == s[j + 1]
        invariant forall j :: k <= j < a.Length ==> a[j] == s[j]
      {
        a[k] := a[k + 1];
        k := k + 1;
      }
    } else {
      var k := source;
      while k > destination
        invariant destination <= k <= source
        invariant forall j :: 0 <= j <= k ==> a[j] == s[j]
        invariant forall j :: k < j <= source ==> a[j] == s[j - 1]
        invariant forall j :: source < j < a.Length ==> a[j] == s[j]
      {
        a[k] := a[k - 1];
        k := k - 1;
      }
    }
    a[destination] := item;
    forall k | 0 <= k < a.Length ensures a[k] == Moved(s, source, destination)[k] {
      MovedAt(s, source, destination, k);
    }
  }
}
