/**
 * The list operations every collection of the store shares, over a sequence
 * of records and the function that reads a record's `Id`: lookup of the first
 * record with an id, the next id (one more than the largest), and removal of
 * the first record with an id.
 */
module Tables {
  import opened Wrappers
  import opened Int32

  /** Some record of `s` has id `id`. */
  predicate HasKey<T>(s: seq<T>, key: T -> int32, id: int32)
  {
    exists k :: 0 <= k < |s| && key(s[k]) == id
  }

  /** No two records of `s` share an id. */
  predicate UniqueKeys<T>(s: seq<T>, key: T -> int32)
  {
    forall i, j :: 0 <= i < j < |s| ==> key(s[i]) != key(s[j])
  }

  /** The position of the first record with id `id`, as `First` and `FirstOrDefault` find it. */
  function FirstIndex<T>(s: seq<T>, key: T -> int32, id: int32): (r: Option<nat>)
    ensures r.None? <==> !HasKey(s, key, id)
    ensures r.Some? ==> r.value < |s| && key(s[r.value]) == id
    ensures r.Some? ==> forall k :: 0 <= k < r.value ==> key(s[k]) != id
  {
    if |s| == 0 then None
    else if key(s[0]) == id then Some(0)
    else
      match FirstIndex(s[1..], key, id)
      case None => None
      case Some(i) => Some(i + 1)
  }

  /** In a table without duplicate ids, the lookup of a record's id finds that record. */
  lemma FirstIndexOfUnique<T>(s: seq<T>, key: T -> int32, k: nat)
    requires UniqueKeys(s, key)
    requires k < |s|
    ensures FirstIndex(s, key, key(s[k])) == Some(k)
  {
  }

  /** The largest id in a non-empty list (Program.cs:195, 333, 428). */
  function MaxKey<T>(s: seq<T>, key: T -> int32): (m: int32)
    requires |s| > 0
    ensures forall k :: 0 <= k < |s| ==> key(s[k]) <= m
    ensures HasKey(s, key, m)
  {
    if |s| == 1 then key(s[0])
    else
      var rest := MaxKey(s[1..], key);
      assert forall k :: 1 <= k < |s| ==> key(s[k]) == key(s[1..][k - 1]);
      if key(s[0]) >= rest then key(s[0]) else rest
  }

  /**
   * One more than the largest id, in unchecked 32-bit arithmetic. Unless some id is
   * already `int.MaxValue`, it is one more than an existing id and greater than
   * every id, hence unused; at `int.MaxValue` it wraps to `int.MinValue`.
   */
  function NextKey<T>(s: seq<T>, key: T -> int32): (r: int32)
    requires |s| > 0
    ensures !HasKey(s, key, MAX) ==> forall k :: 0 <= k < |s| ==> key(s[k]) < r
    ensures !HasKey(s, key, MAX) ==> exists k :: 0 <= k < |s| && r == key(s[k]) + 1
    ensures !HasKey(s, key, MAX) ==> !HasKey(s, key, r)
    ensures HasKey(s, key, MAX) ==> r == MIN
  {
    Wrap(MaxKey(s, key) + 1)
  }

  /** Appending a record whose id is unused keeps the ids unique. */
  lemma AppendFreshKeepsUnique<T>(s: seq<T>, key: T -> int32, x: T)
    requires UniqueKeys(s, key)
    requires !HasKey(s, key, key(x))
    ensures UniqueKeys(s + [x], key)
  {
    var t := s + [x];
    forall i, j | 0 <= i < j < |t| ensures key(t[i]) != key(t[j]) {
      if j < |s| {
        assert t[i] == s[i] && t[j] == s[j];
      } else {
        assert t[i] == s[i] && t[j] == x;
      }
    }
  }

  /** Overwriting a record with one of the same id keeps the ids unique. */
  lemma UpdateSameKeyKeepsUnique<T>(s: seq<T>, key: T -> int32, i: nat, x: T)
    requires UniqueKeys(s, key)
    requires i < |s| && key(x) == key(s[i])
    ensures UniqueKeys(s[i := x], key)
  {
    var t := s[i := x];
    forall a, b | 0 <= a < b < |t| ensures key(t[a]) != key(t[b]) {
      assert key(t[a]) == key(s[a]) && key(t[b]) == key(s[b]);
    }
  }

  /**
   * Removal by id (Program.cs:357-358, 454-455): the first record with id `id`
   * is taken out and the rest keep their order. With no such record the lookup
   * yields null, removing null finds nothing, and the list is unchanged.
   */
  function RemoveFirst<T>(s: seq<T>, key: T -> int32, id: int32): (r: seq<T>)
    ensures !HasKey(s, key, id) ==> r == s
    ensures HasKey(s, key, id) ==> |r| == |s| - 1
    ensures forall x :: x in r ==> x in s
    ensures HasKey(s, key, id) ==>
      exists i :: 0 <= i < |s| && key(s[i]) == id && (forall k :: 0 <= k < i ==> key(s[k]) != id) &&
        r == s[..i] + s[i + 1..]
  {
    match FirstIndex(s, key, id)
    case None => s
    case Some(i) => s[..i] + s[i + 1..]
  }

  /**
   * On a table without duplicate ids, removal by id leaves no record with that
   * id, keeps every other record, and keeps the ids unique.
   */
  lemma RemoveFirstOfUnique<T>(s: seq<T>, key: T -> int32, id: int32)
    requires UniqueKeys(s, key)
    ensures !HasKey(RemoveFirst(s, key, id), key, id)
    ensures UniqueKeys(RemoveFirst(s, key, id), key)
    ensures forall k :: 0 <= k < |s| && key(s[k]) != id ==> s[k] in RemoveFirst(s, key, id)
  {
    var r := RemoveFirst(s, key, id);
    match FirstIndex(s, key, id)
    case None =>
    case Some(i) =>
      assert r == s[..i] + s[i + 1..];
      assert forall k :: 0 <= k < i ==> r[k] == s[k];
      assert forall k :: i <= k < |r| ==> r[k] == s[k + 1];
      forall k | 0 <= k < |s| && key(s[k]) != id ensures s[k] in r {
        if k < i { assert r[k] == s[k]; } else { assert k != i; assert r[k - 1] == s[k]; }
      }
  }

  /**
   * Taking out a record whose id is not `c` does not change what a lookup of
   * `c` finds: the same record, or nothing.
   */
  lemma RemoveAtKeepsLookup<T>(s: seq<T>, key: T -> int32, i: nat, c: int32)
    requires i < |s| && key(s[i]) != c
    ensures FirstIndex(s[..i] + s[i + 1..], key, c).None? <==> FirstIndex(s, key, c).None?
    ensures FirstIndex(s, key, c).Some? ==>
      (s[..i] + s[i + 1..])[FirstIndex(s[..i] + s[i + 1..], key, c).value] == s[FirstIndex(s, key, c).value]
  {
    var r := s[..i] + s[i + 1..];
    assert forall k :: 0 <= k < i ==> r[k] == s[k];
    assert forall k :: i <= k < |r| ==> r[k] == s[k + 1];
    match FirstIndex(s, key, c)
    case None =>
      assert !HasKey(r, key, c);
    case Some(j) =>
      var m := if j < i then j else j - 1;
      assert r[m] == s[j];
      assert forall k :: 0 <= k < m ==> key(r[k]) != c;
  }

  /**
   * Removing the first record with id `id` does not change what a lookup of
   * any other id finds: the same record, or nothing.
   */
  lemma RemoveFirstKeepsOtherLookups<T>(s: seq<T>, key: T -> int32, id: int32, c: int32)
    requires c != id
    ensures FirstIndex(RemoveFirst(s, key, id), key, c).None? <==> FirstIndex(s, key, c).None?
    ensures FirstIndex(s, key, c).Some? ==>
      RemoveFirst(s, key, id)[FirstIndex(RemoveFirst(s, key, id), key, c).value] == s[FirstIndex(s, key, c).value]
  {
    match FirstIndex(s, key, id)
    case None =>
    case Some(i) =>
      RemoveAtKeepsLookup(s, key, i, c);
  }
}
