/**
 * Outcome recording and result aggregation.
 *
 * The request keeps two JavaScript objects, `success` and `failed`, used as
 * dictionaries from an upload identifier to the list of values its rendition
 * tasks reported. An `Index` is such an object: `entries` maps each own key to
 * its list, and `keys` is the order in which `for…in` enumerates them. Upload
 * identifiers are UUID strings, never array indices, so that order is the
 * order in which the keys were first created.
 */
module Outcomes {
  import opened Wrappers

  type Id = string

  /** No element occurs twice. */
  ghost predicate Distinct(s: seq<Id>) {
    forall i, j :: 0 <= i < j < |s| ==> s[i] != s[j]
  }

  lemma DistinctSnoc(s: seq<Id>, x: Id)
    requires Distinct(s) && x !in s
    ensures Distinct(s + [x])
  {
  }

  datatype Index = Index(keys: seq<Id>, entries: map<Id, seq<Option<string>>>) {

    /** Every key is enumerated exactly once. */
    ghost predicate Valid() {
      && Distinct(keys)
      && (forall k :: k in entries <==> k in keys)
    }

    /** The list under `id`, or an empty one when the key is absent. */
    function Entry(id: Id): seq<Option<string>> {
      if id in entries then entries[id] else []
    }

    /**
     * `photos[id] || (photos[id] = [])` followed by `photos.push(v)`: the
     * entry is created on first use, at the end of the enumeration order.
     */
    function Push(id: Id, v: Option<string>): (r: Index)
      requires Valid()
      ensures r.Valid()
      ensures id in r.entries && r.Entry(id) == Entry(id) + [v]
      ensures forall k :: k != id ==> (k in r.entries <==> k in entries) && r.Entry(k) == Entry(k)
      ensures id in entries ==> r.keys == keys
      ensures id !in entries ==> r.keys == keys + [id]
    {
      if id in entries then Index(keys, entries[id := entries[id] + [v]])
      else Index(keys + [id], entries[id := [v]])
    }
  }

  /** A fresh `[]`. */
  const Empty: Index := Index([], map[])

  /** The identifier test of the aggregation loop: an own key of `success` with no `failed` entry. */
  predicate Keeps(success: Index, failed: Index, id: Id) {
    id in success.entries && id !in failed.entries
  }

  /** The identifiers among `keys`, in order, that the aggregation loop pushes. */
  function CommittedAmong(keys: seq<Id>, success: Index, failed: Index): seq<Id>
  {
    if keys == [] then []
    else
      var last := keys[|keys| - 1];
      CommittedAmong(keys[..|keys| - 1], success, failed) + (if Keeps(success, failed, last) then [last] else [])
  }

  /** The committed list: the `photos` array built by the `for…in` loop over `success`. */
  function Committed(success: Index, failed: Index): seq<Id> {
    CommittedAmong(success.keys, success, failed)
  }

  lemma {:induction false} CommittedAmongMembers(keys: seq<Id>, success: Index, failed: Index)
    ensures forall x :: x in CommittedAmong(keys, success, failed) <==> x in keys && Keeps(success, failed, x)
  {
    if keys != [] {
      var init := keys[..|keys| - 1];
      CommittedAmongMembers(init, success, failed);
      assert keys == init + [keys[|keys| - 1]];
    }
  }

  /**
   * An identifier is committed exactly when some rendition of it succeeded
   * and none failed: a single failed rendition drops the whole identifier.
   */
  lemma CommittedMembers(success: Index, failed: Index)
    requires success.Valid()
    ensures forall x :: x in Committed(success, failed) <==> x in success.entries && x !in failed.entries
  {
    CommittedAmongMembers(success.keys, success, failed);
  }

  /** Filtering distributes over concatenation, so the loop keeps the enumeration order of `success`. */
  lemma {:induction false} CommittedAmongAppend(a: seq<Id>, b: seq<Id>, success: Index, failed: Index)
    ensures CommittedAmong(a + b, success, failed) == CommittedAmong(a, success, failed) + CommittedAmong(b, success, failed)
  {
    if b == [] {
      assert a + b == a;
    } else {
      var init := b[..|b| - 1];
      CommittedAmongAppend(a, init, success, failed);
      assert (a + b)[..|a + b| - 1] == a + init;
    }
  }

  /** No identifier is committed twice. */
  lemma {:induction false} CommittedDistinct(success: Index, failed: Index)
    requires success.Valid()
    ensures Distinct(Committed(success, failed))
  {
    DistinctAmong(success.keys, success, failed);
  }

  lemma {:induction false} DistinctAmong(keys: seq<Id>, success: Index, failed: Index)
    requires Distinct(keys)
    ensures Distinct(CommittedAmong(keys, success, failed))
  {
    if keys != [] {
      var init, last := keys[..|keys| - 1], keys[|keys| - 1];
      assert Distinct(init);
      DistinctAmong(init, success, failed);
      CommittedAmongMembers(init, success, failed);
      assert last !in init;
      if Keeps(success, failed, last) {
        DistinctSnoc(CommittedAmong(init, success, failed), last);
      }
    }
  }

  /** When no rendition failed, every identifier with an outcome is committed, in enumeration order. */
  lemma {:induction false} CommittedWithoutFailures(success: Index, failed: Index)
    requires success.Valid() && failed.entries == map[]
    ensures Committed(success, failed) == success.keys
  {
    AllKept(success.keys, success, failed);
  }

  lemma {:induction false} AllKept(keys: seq<Id>, success: Index, failed: Index)
    requires forall x :: x in keys ==> Keeps(success, failed, x)
    ensures CommittedAmong(keys, success, failed) == keys
  {
    if keys != [] {
      AllKept(keys[..|keys| - 1], success, failed);
    }
  }

  /**
   * The aggregation loop shared by the create and update callbacks. It reads
   * the two dictionaries and changes neither, so running it again on the same
   * outcomes gives the same list.
   */
  method CollectCommitted(success: Index, failed: Index) returns (photos: seq<Id>)
    requires success.Valid()
    ensures photos == Committed(success, failed)
    ensures forall x :: x in photos <==> x in success.entries && x !in failed.entries
  {
    photos := [];
    var i := 0;
    while i < |success.keys|
      invariant 0 <= i <= |success.keys|
      invariant photos == CommittedAmong(success.keys[..i], success, failed)
    {
      var photo := success.keys[i];
      assert success.keys[..i + 1][..i] == success.keys[..i];
      if photo in success.entries && photo !in failed.entries {
        photos := photos + [photo];
      }
      i := i + 1;
    }
    assert success.keys[..i] == success.keys;
    CommittedMembers(success, failed);
  }
}
