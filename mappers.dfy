/** The two collection mappers the contract's storage is made of.

    - An unordered set mapper is a vector of distinct items; inserting appends a new
      item, and removing moves the last item into the hole ("swap remove").
    - A map mapper keeps its keys in insertion order (a linked list) beside one
      storage slot per key; removing a key unlinks it and keeps the others in order. */
module Mappers {
  import opened Types

  /** No item occurs twice. */
  predicate Distinct<T(==,!new)>(s: seq<T>)
  {
    forall i, j :: 0 <= i < j < |s| ==> s[i] != s[j]
  }

  /** The position of `x` in `s`. */
  function IndexOf<T(==,!new)>(s: seq<T>, x: T): (r: nat)
    requires x in s
    ensures r < |s| && s[r] == x
    ensures forall j :: 0 <= j < r ==> s[j] != x
  {
    if s[0] == x then 0 else 1 + IndexOf(s[1..], x)
  }

  /** Set-mapper insertion: a new item is appended, a present one leaves the vector alone. */
  function SetInsert<T(==,!new)>(s: seq<T>, x: T): (r: seq<T>)
    ensures Distinct(s) ==> Distinct(r)
    ensures forall y :: y in r <==> y in s || y == x
    ensures |s| <= |r| && r[..|s|] == s
  {
    if x in s then s else s + [x]
  }

  /** Set-mapper removal: the last item takes the removed item's place; an absent item changes nothing. */
  function SwapRemove<T(==,!new)>(s: seq<T>, x: T): (r: seq<T>)
    ensures forall y :: y in r ==> y in s
    ensures x !in s ==> r == s
    ensures Distinct(s) ==> Distinct(r) && x !in r && (forall y :: y in s && y != x ==> y in r)
    ensures Distinct(s) ==> |r| == if x in s then |s| - 1 else |s|
  {
    if x !in s then s
    else
      var i := IndexOf(s, x);
      var last := |s| - 1;
      if i == last then
        assert s == s[..i] + [x];
        s[..i]
      else
        var r := s[..i] + [s[last]] + s[i + 1..last];
        assert s == s[..i] + [x] + s[i + 1..last] + [s[last]];
        assert forall k :: 0 <= k < |r| ==> r[k] == (if k < i then s[k] else if k == i then s[last] else s[k]);
        r
  }

  /** A set mapper's length is the number of different items it holds. */
  lemma {:induction false} DistinctCardinality<T(!new)>(s: seq<T>)
    requires Distinct(s)
    ensures |set x | x in s| == |s|
  {
    if s != [] {
      var init := s[..|s| - 1];
      DistinctCardinality(init);
      assert s == init + [s[|s| - 1]];
      assert (set x | x in s) == (set x | x in init) + {s[|s| - 1]};
    }
  }

  /** Set-mapper `extend`: the items of `xs` inserted one after the other. */
  function Extended<T(==,!new)>(s: seq<T>, xs: seq<T>): (r: seq<T>)
    ensures Distinct(s) ==> Distinct(r)
    ensures |s| <= |r| && r[..|s|] == s
  {
    if xs == [] then s else SetInsert(Extended(s, xs[..|xs| - 1]), xs[|xs| - 1])
  }

  /** Extending holds exactly the old items and the new ones. */
  lemma {:induction false} ExtendedMembers<T(!new)>(s: seq<T>, xs: seq<T>, y: T)
    ensures y in Extended(s, xs) <==> y in s || y in xs
  {
    if xs != [] {
      ExtendedMembers(s, xs[..|xs| - 1], y);
      assert xs == xs[..|xs| - 1] + [xs[|xs| - 1]];
    }
  }

  /** The items of `xs` swap-removed one after the other. */
  function Pruned<T(==,!new)>(s: seq<T>, xs: seq<T>): (r: seq<T>)
    ensures Distinct(s) ==> Distinct(r)
    ensures |r| <= |s|
  {
    if xs == [] then s else SwapRemove(Pruned(s, xs[..|xs| - 1]), xs[|xs| - 1])
  }

  /** Pruning a set keeps exactly the old items not named for removal. */
  lemma {:induction false} PrunedMembers<T(!new)>(s: seq<T>, xs: seq<T>, y: T)
    requires Distinct(s)
    ensures y in Pruned(s, xs) <==> y in s && y !in xs
  {
    if xs != [] {
      PrunedMembers(s, xs[..|xs| - 1], y);
      assert xs == xs[..|xs| - 1] + [xs[|xs| - 1]];
    }
  }

  /** Removal that keeps the remaining items in order. */
  function Without<T(==,!new)>(s: seq<T>, x: T): (r: seq<T>)
    ensures forall y :: y in r <==> y in s && y != x
    ensures Distinct(s) ==> Distinct(r)
    ensures |r| <= |s|
  {
    if s == [] then []
    else if s[0] == x then Without(s[1..], x)
    else
      var rest := Without(s[1..], x);
      assert Distinct(s) ==> Distinct(s[1..]) && s[0] !in s[1..];
      [s[0]] + rest
  }

  /** A map mapper keeps its keys in insertion order beside the key-to-value
      slots: `keys` lists the keys of `values` once each. */
  predicate Listed<K(==,!new), V>(keys: seq<K>, values: map<K, V>)
  {
    Distinct(keys) && (forall k :: k in keys ==> k in values) && (forall k :: k in values ==> k in keys)
  }

  /** The values in key order, as the mapper's `values()` iterator yields them. */
  function InOrder<K(==,!new), V>(keys: seq<K>, values: map<K, V>): (r: seq<V>)
    requires forall k :: k in keys ==> k in values
    ensures |r| == |keys|
    ensures forall i :: 0 <= i < |keys| ==> r[i] == values[keys[i]]
  {
    seq(|keys|, i requires 0 <= i < |keys| => values[keys[i]])
  }

  /** The value stored under `k`, or the empty storage slot's `default`. */
  function Lookup<K(==,!new), V>(m: map<K, V>, k: K, default: V): (r: V)
    ensures k in m ==> r == m[k]
    ensures k !in m ==> r == default
  {
    if k in m then m[k] else default
  }
}
