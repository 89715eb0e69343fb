/**
 * The two `done` callbacks `process` is given: `create` for a new vehicle and
 * the closure `update(old)` for an existing one. Each aggregates the committed
 * identifiers into `data.photos` and hands the record to the record store;
 * `update` also reconciles the stored vehicle's photos against the new list
 * and deletes the ones no longer referenced. Store calls and deletes are
 * returned as effects instead of being performed.
 */
module Handlers {
  import opened Wrappers
  import opened Outcomes
  import opened Process

  /** What the create callback does with a completion. */
  datatype CreateEffect =
    | CreateFailed                      // server error response; `cleanUploads` does nothing
    | CreateThrows                      // `data.photos = …` on an undefined `data`
    | StoreCreate(record: Descriptor)   // `Vehicles.create(data, …)`

  /** What the update callback does with a completion. */
  datatype UpdateEffect =
    | UpdateFailed                      // server error response, no store call, no delete
    | UpdateThrows                      // `data.photos.concat(…)` on an undefined `data` or `data.photos`
    | StoreUpdate(id: string, record: Descriptor, deletes: Option<seq<string>>)
      // `Vehicles.update({_id: id}, data, …)`, then one delete per entry of `deletes`;
      // `None` when the stored vehicle has no `photos` and the reconciliation throws

  /**
   * The create callback. On error it only reports a server error. Otherwise
   * `data.photos` is replaced by the committed identifiers and the record is
   * stored.
   */
  method Create(c: Completion) returns (e: CreateEffect)
    requires c.success.Valid()
    ensures c.err ==> e == CreateFailed
    ensures !c.err && c.data.None? ==> e == CreateThrows
    ensures !c.err && c.data.Some? ==>
      && e.StoreCreate?
      && e.record == c.data.value.(photos := Some(Committed(c.success, c.failed)))
      && (forall x :: x in e.record.photos.value <==> x in c.success.entries && x !in c.failed.entries)
      && Distinct(e.record.photos.value)
  {
    if c.err {
      return CreateFailed;
    }
    var photos := CollectCommitted(c.success, c.failed);
    if c.data.None? {
      return CreateThrows;
    }
    CommittedDistinct(c.success, c.failed);
    e := StoreCreate(c.data.value.(photos := Some(photos)));
  }

  /**
   * `Array.prototype.indexOf` on a list of strings: the first position of
   * `x`, or -1 when it does not occur.
   */
  function IndexOf(s: seq<string>, x: string): (r: int)
    ensures -1 <= r < |s|
    ensures r == -1 <==> x !in s
    ensures r != -1 ==> s[r] == x && x !in s[..r]
  {
    if s == [] then -1
    else if s[0] == x then 0
    else
      var i := IndexOf(s[1..], x);
      if i == -1 then -1 else i + 1
  }

  /** The entries of `previous`, in order and with repetitions, that do not occur in `photos`. */
  function Orphans(previous: seq<string>, photos: seq<string>): seq<string> {
    if previous == [] then []
    else Orphans(previous[..|previous| - 1], photos) + (if previous[|previous| - 1] in photos then [] else [previous[|previous| - 1]])
  }

  /** The reconciliation `forEach`: one delete for each stored photo missing from the final list. */
  method Reconcile(previous: seq<string>, photos: seq<string>) returns (deletes: seq<string>)
    ensures deletes == Orphans(previous, photos)
    ensures forall x :: x in deletes <==> x in previous && x !in photos
  {
    deletes := [];
    var i := 0;
    while i < |previous|
      invariant 0 <= i <= |previous|
      invariant deletes == Orphans(previous[..i], photos)
    {
      var photo := previous[i];
      assert previous[..i + 1][..i] == previous[..i];
      var index := IndexOf(photos, photo);
      if index == -1 {
        deletes := deletes + [photo];
      }
      i := i + 1;
    }
    assert previous[..i] == previous;
    OrphansMembers(previous, photos);
  }

  /** A value is deleted exactly when it is a stored photo the final list no longer references. */
  lemma {:induction false} OrphansMembers(previous: seq<string>, photos: seq<string>)
    ensures forall x :: x in Orphans(previous, photos) <==> x in previous && x !in photos
  {
    if previous != [] {
      var init := previous[..|previous| - 1];
      OrphansMembers(init, photos);
      assert previous == init + [previous[|previous| - 1]];
    }
  }

  /** Each occurrence of an unreferenced stored photo gets its own delete, and a referenced one none. */
  lemma {:induction false} OrphansMultiplicity(previous: seq<string>, photos: seq<string>, x: string)
    ensures multiset(Orphans(previous, photos))[x] == if x in photos then 0 else multiset(previous)[x]
  {
    if previous != [] {
      var init := previous[..|previous| - 1];
      OrphansMultiplicity(init, photos, x);
      assert previous == init + [previous[|previous| - 1]];
    }
  }

  /** When the submitted list still holds every stored photo, the update deletes nothing. */
  lemma OrphansOfSuperset(previous: seq<string>, photos: seq<string>)
    requires forall x :: x in previous ==> x in photos
    ensures Orphans(previous, photos) == []
  {
    OrphansMembers(previous, photos);
    if Orphans(previous, photos) != [] {
      assert Orphans(previous, photos)[0] in Orphans(previous, photos);
    }
  }

  /**
   * The update callback for the stored vehicle whose photos are `stored`.
   * On error it only reports a server error. Otherwise the committed
   * identifiers are appended to the submitted `data.photos`, the record is
   * updated, and every stored photo missing from the final list is deleted.
   */
  method Update(stored: Option<seq<string>>, id: string, c: Completion) returns (e: UpdateEffect)
    requires c.success.Valid()
    ensures c.err ==> e == UpdateFailed
    ensures !c.err && (c.data.None? || c.data.value.photos.None?) ==> e == UpdateThrows
    ensures !c.err && c.data.Some? && c.data.value.photos.Some? ==>
      var submitted, committed := c.data.value.photos.value, Committed(c.success, c.failed);
      && e.StoreUpdate?
      && e.id == id
      && e.record == c.data.value.(photos := Some(submitted + committed))
      && (stored.None? <==> e.deletes.None?)
      && (stored.Some? ==> e.deletes.value == Orphans(stored.value, submitted + committed))
      && (e.deletes.Some? ==> forall x :: x in e.deletes.value <==>
            x in stored.value && x !in submitted && x !in committed)
  {
    if c.err {
      return UpdateFailed;
    }
    var committed := CollectCommitted(c.success, c.failed);
    if c.data.None? || c.data.value.photos.None? {
      return UpdateThrows;
    }
    var photos := c.data.value.photos.value + committed;
    var record := c.data.value.(photos := Some(photos));
    if stored.None? {
      return StoreUpdate(id, record, None);
    }
    var deletes := Reconcile(stored.value, photos);
    e := StoreUpdate(id, record, Some(deletes));
  }
}
