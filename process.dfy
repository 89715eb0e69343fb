/**
 * The request-scoped state of `process`: the parsed `data` descriptor, the
 * `success` and `failed` outcome dictionaries and the `queue` counter, with
 * one method per event the form parser or a rendition task delivers.
 *
 * Ghost state records what happened so far: the signal sequence seen by the
 * counter, the upload identifiers of the file parts in arrival order and the
 * outcome each finished rendition task reported.
 */
module Process {
  import opened Wrappers
  import opened Renditions
  import opened Outcomes
  import opened FanIn

  /** The submitted `data` field once parsed; `photos` is its only attribute the pipeline touches. */
  datatype Descriptor = Descriptor(photos: Option<seq<string>>, attributes: map<string, string>)

  /** The arguments `process` passes to its `done` callback. */
  datatype Completion = Completion(err: bool, data: Option<Descriptor>, success: Index, failed: Index)

  /** One rendition task: the file part's upload identifier and the rendition it produces. */
  type Task = (Id, Rendition)

  /** Task (id, r) has reported, uploaded when `ok` and failed otherwise. */
  ghost predicate Reported(reports: map<Task, bool>, id: Id, r: Rendition, ok: bool) {
    (id, r) in reports && reports[(id, r)] == ok
  }

  ghost predicate Uploaded(reports: map<Task, bool>, id: Id, r: Rendition) {
    Reported(reports, id, r, true)
  }

  ghost predicate Broke(reports: map<Task, bool>, id: Id, r: Rendition) {
    Reported(reports, id, r, false)
  }

  /**
   * The value a task's callback pushes: the object name it reports on success,
   * and `undefined` when it reports only an error.
   */
  function Outcome(id: Id, r: Rendition, ok: bool): Option<string> {
    if ok then Some(ObjectName(r, id)) else None
  }

  /** The values pushed for `id` when its large and its thumbnail rendition did (or did not) report `ok`. */
  ghost function Bag(id: Id, ok: bool, large: bool, thumb: bool): multiset<Option<string>> {
    (if large then multiset{Outcome(id, Large, ok)} else multiset{})
    + (if thumb then multiset{Outcome(id, Thumb, ok)} else multiset{})
  }

  /** The values the renditions of `id` that reported `ok` have pushed, one per rendition. */
  ghost function Values(reports: map<Task, bool>, id: Id, ok: bool): multiset<Option<string>> {
    Bag(id, ok, Reported(reports, id, Large, ok), Reported(reports, id, Thumb, ok))
  }

  /** An identifier has an entry in `index` exactly when one of its renditions reported `ok`. */
  ghost predicate Keyed(index: Index, reports: map<Task, bool>, ok: bool) {
    forall id :: id in index.entries <==> Reported(reports, id, Large, ok) || Reported(reports, id, Thumb, ok)
  }

  /**
   * Each entry of `index` holds one value per rendition of its identifier
   * that reported `ok` (in the order the reports arrived, which `reports`
   * does not record).
   */
  ghost predicate Listed(index: Index, reports: map<Task, bool>, ok: bool) {
    forall id :: multiset(index.Entry(id)) == Values(reports, id, ok)
  }

  /** `index` holds exactly the outcomes `ok` reported so far. */
  ghost predicate Holds(index: Index, reports: map<Task, bool>, ok: bool) {
    index.Valid() && Keyed(index, reports, ok) && Listed(index, reports, ok)
  }

  /** `success` holds exactly the uploads and `failed` exactly the failures reported so far. */
  ghost predicate Recorded(success: Index, failed: Index, reports: map<Task, bool>) {
    Holds(success, reports, true) && Holds(failed, reports, false)
  }

  /** Pushing the outcome of a task that had not reported keeps the dictionary of that outcome exact. */
  lemma HoldsPush(index: Index, reports: map<Task, bool>, id: Id, r: Rendition, ok: bool)
    requires Holds(index, reports, ok) && (id, r) !in reports
    ensures Holds(index.Push(id, Outcome(id, r, ok)), reports[(id, r) := ok], ok)
  {
    KeyedPush(index, reports, id, r, ok);
    ListedPush(index, reports, id, r, ok);
  }

  lemma KeyedPush(index: Index, reports: map<Task, bool>, id: Id, r: Rendition, ok: bool)
    requires index.Valid() && Keyed(index, reports, ok)
    ensures Keyed(index.Push(id, Outcome(id, r, ok)), reports[(id, r) := ok], ok)
  {
    var reports' := reports[(id, r) := ok];
    assert Reported(reports', id, r, ok);
    forall k | k != id
      ensures Reported(reports', k, Large, ok) == Reported(reports, k, Large, ok)
      ensures Reported(reports', k, Thumb, ok) == Reported(reports, k, Thumb, ok)
    {
    }
  }

  lemma ListedPush(index: Index, reports: map<Task, bool>, id: Id, r: Rendition, ok: bool)
    requires index.Valid() && Listed(index, reports, ok) && (id, r) !in reports
    ensures Listed(index.Push(id, Outcome(id, r, ok)), reports[(id, r) := ok], ok)
  {
    var index', reports' := index.Push(id, Outcome(id, r, ok)), reports[(id, r) := ok];
    EntryPush(index, reports, id, r, ok);
    forall k | k != id
      ensures multiset(index'.Entry(k)) == Values(reports', k, ok)
    {
      ValuesFrame(reports, id, r, ok, k);
    }
  }

  /** A report about one identifier leaves the values of every other identifier alone. */
  lemma ValuesFrame(reports: map<Task, bool>, id: Id, r: Rendition, ok: bool, k: Id)
    requires k != id
    ensures Values(reports[(id, r) := ok], k, ok) == Values(reports, k, ok)
  {
    var reports' := reports[(id, r) := ok];
    assert Reported(reports', k, Large, ok) == Reported(reports, k, Large, ok);
    assert Reported(reports', k, Thumb, ok) == Reported(reports, k, Thumb, ok);
  }

  /** The entry the outcome is pushed to gains exactly the value of the reporting rendition. */
  lemma EntryPush(index: Index, reports: map<Task, bool>, id: Id, r: Rendition, ok: bool)
    requires index.Valid() && multiset(index.Entry(id)) == Values(reports, id, ok) && (id, r) !in reports
    ensures multiset(index.Push(id, Outcome(id, r, ok)).Entry(id)) == Values(reports[(id, r) := ok], id, ok)
  {
    var reports', v := reports[(id, r) := ok], Outcome(id, r, ok);
    var large, thumb := Reported(reports, id, Large, ok), Reported(reports, id, Thumb, ok);
    assert Reported(reports', id, Large, ok) == (large || r == Large);
    assert Reported(reports', id, Thumb, ok) == (thumb || r == Thumb);
    BagAdd(id, ok, r, large, thumb);
    calc {
      multiset(index.Push(id, v).Entry(id));
      multiset(index.Entry(id) + [v]);
      multiset(index.Entry(id)) + multiset{v};
      Bag(id, ok, large, thumb) + multiset{v};
      Bag(id, ok, large || r == Large, thumb || r == Thumb);
      Values(reports', id, ok);
    }
  }

  /** One more rendition reporting `ok` adds its value to the bag. */
  lemma BagAdd(id: Id, ok: bool, r: Rendition, large: bool, thumb: bool)
    requires if r == Large then !large else !thumb
    ensures Bag(id, ok, large || r == Large, thumb || r == Thumb) == Bag(id, ok, large, thumb) + multiset{Outcome(id, r, ok)}
  {
  }

  /** The report of a task leaves the dictionary of the other outcome exact. */
  lemma HoldsOther(index: Index, reports: map<Task, bool>, id: Id, r: Rendition, ok: bool)
    requires Holds(index, reports, !ok) && (id, r) !in reports
    ensures Holds(index, reports[(id, r) := ok], !ok)
  {
    var reports' := reports[(id, r) := ok];
    forall k
      ensures k in index.entries <==> Reported(reports', k, Large, !ok) || Reported(reports', k, Thumb, !ok)
      ensures multiset(index.Entry(k)) == Values(reports', k, !ok)
    {
      assert Reported(reports', k, Large, !ok) == Reported(reports, k, Large, !ok);
      assert Reported(reports', k, Thumb, !ok) == Reported(reports, k, Thumb, !ok);
    }
  }

  /** Recording a successful upload keeps the dictionaries in step with the reports. */
  lemma RecordUpload(success: Index, failed: Index, reports: map<Task, bool>, id: Id, r: Rendition)
    requires Recorded(success, failed, reports) && (id, r) !in reports
    ensures Recorded(success.Push(id, Some(ObjectName(r, id))), failed, reports[(id, r) := true])
  {
    HoldsPush(success, reports, id, r, true);
    HoldsOther(failed, reports, id, r, true);
  }

  /** Recording a failed task keeps the dictionaries in step with the reports. */
  lemma RecordFailure(success: Index, failed: Index, reports: map<Task, bool>, id: Id, r: Rendition)
    requires Recorded(success, failed, reports) && (id, r) !in reports
    ensures Recorded(success, failed.Push(id, None), reports[(id, r) := false])
  {
    HoldsPush(failed, reports, id, r, false);
    HoldsOther(success, reports, id, r, false);
  }

  /**
   * `success1` and `failed1` are `success` and `failed` after the outcome of
   * task (id, r) was pushed: its object name under `success[id]` when it
   * uploaded, `undefined` under `failed[id]` when it failed.
   */
  ghost predicate Pushed(success: Index, failed: Index, id: Id, r: Rendition, ok: bool, success1: Index, failed1: Index)
    requires success.Valid() && failed.Valid()
  {
    if ok then success1 == success.Push(id, Some(ObjectName(r, id))) && failed1 == failed
    else success1 == success && failed1 == failed.Push(id, None)
  }

  /** Only the tasks of file parts that arrived report, and every file part has its own identifier. */
  ghost predicate Started(ids: seq<Id>, reports: map<Task, bool>) {
    && Distinct(ids)
    && (forall id, r :: (id, r) in reports ==> id in ids)
  }

  /** Every rendition task of every file part in `ids` has reported. */
  ghost predicate Settled(ids: seq<Id>, reports: map<Task, bool>) {
    forall id, r :: id in ids ==> (id, r) in reports
  }

  /** How many of the two rendition tasks of `id` have not reported. */
  ghost function Missing(reports: map<Task, bool>, id: Id): nat {
    (if (id, Large) in reports then 0 else 1) + (if (id, Thumb) in reports then 0 else 1)
  }

  /** How many rendition tasks of the file parts `ids` are still running. */
  ghost function Outstanding(ids: seq<Id>, reports: map<Task, bool>): nat {
    if ids == [] then 0
    else Outstanding(ids[..|ids| - 1], reports) + Missing(reports, ids[|ids| - 1])
  }

  /** No task is running exactly when every task has reported. */
  lemma {:induction false} OutstandingSettled(ids: seq<Id>, reports: map<Task, bool>)
    ensures Outstanding(ids, reports) == 0 <==> Settled(ids, reports)
  {
    if ids != [] {
      var init, last := ids[..|ids| - 1], ids[|ids| - 1];
      OutstandingSettled(init, reports);
      assert ids == init + [last];
      if Outstanding(ids, reports) == 0 {
        forall id, r | id in ids
          ensures (id, r) in reports
        {
          if id != last {
            assert id in init;
          } else if r == Large {
            assert (last, Large) in reports;
          } else {
            assert (last, Thumb) in reports;
          }
        }
      } else if Missing(reports, last) != 0 {
        assert (last, Large) !in reports || (last, Thumb) !in reports;
      } else {
        var id, r :| id in init && (id, r) !in reports;
        assert id in ids;
      }
    }
  }

  /** A new file part starts two tasks, none of which has reported. */
  lemma OutstandingStart(ids: seq<Id>, reports: map<Task, bool>, id: Id)
    requires Started(ids, reports) && id !in ids
    ensures Started(ids + [id], reports)
    ensures Outstanding(ids + [id], reports) == Outstanding(ids, reports) + 2
  {
    DistinctSnoc(ids, id);
    assert (ids + [id])[..|ids|] == ids;
    assert (id, Large) !in reports && (id, Thumb) !in reports;
  }

  /** The report of a running task leaves one task fewer running; a task of no file part changes nothing. */
  lemma {:induction false} OutstandingReport(ids: seq<Id>, reports: map<Task, bool>, id: Id, r: Rendition, ok: bool)
    requires Distinct(ids) && (id, r) !in reports
    ensures Outstanding(ids, reports[(id, r) := ok]) == Outstanding(ids, reports) - (if id in ids then 1 else 0)
  {
    if ids != [] {
      var init, last := ids[..|ids| - 1], ids[|ids| - 1];
      assert ids == init + [last];
      assert Distinct(init);
      OutstandingReport(init, reports, id, r, ok);
      if id == last {
        assert id !in init;
      }
    }
  }

  /** The counter and the ghost counts follow the signals seen so far. */
  ghost predicate Counted(trace: seq<Signal>, queue: int, fired: nat, ids: seq<Id>, reports: map<Task, bool>) {
    && Admissible(trace)
    && queue == Queue(trace)
    && fired == Fires(trace)
    && Count(trace, FileArrived) == |ids|
    && Count(trace, TaskReported) + Outstanding(ids, reports) == 2 * |ids|
  }

  /** `queue` is the number of running tasks, plus one until the form has ended. */
  lemma QueueIsOutstandingWork(trace: seq<Signal>, queue: int, fired: nat, ids: seq<Id>, reports: map<Task, bool>)
    requires Counted(trace, queue, fired, ids, reports)
    ensures queue == Outstanding(ids, reports) + (if Count(trace, FormEnded) == 1 then 0 else 1)
    ensures Count(trace, FormEnded) <= 1
    ensures Count(trace, FormEnded) == 0 ==> fired == 0
  {
    QueueCounts(trace);
    AdmissibleBounds(trace);
    if Count(trace, FormEnded) == 0 {
      NoFireWithoutEnd(trace);
    }
  }

  /** A file part before the form's end raises the counter by two and never calls `done`. */
  lemma CountFile(trace: seq<Signal>, queue: int, fired: nat, ids: seq<Id>, reports: map<Task, bool>, id: Id)
    requires Counted(trace, queue, fired, ids, reports) && Started(ids, reports)
    requires Count(trace, FormEnded) != 1 && id !in ids
    ensures Counted(trace + [FileArrived], queue + 2, fired, ids + [id], reports) && Started(ids + [id], reports)
    ensures Count(trace + [FileArrived], FormEnded) == Count(trace, FormEnded)
  {
    AdmissibleBounds(trace);
    Step(trace, FileArrived);
    OutstandingStart(ids, reports, id);
  }

  /**
   * A task outcome calls `next`: the decremented counter is not positive
   * exactly when the form has ended and every task has reported.
   */
  lemma CountReport(trace: seq<Signal>, queue: int, fired: nat, ids: seq<Id>, reports: map<Task, bool>, id: Id, r: Rendition, ok: bool)
    requires Counted(trace, queue, fired, ids, reports) && Started(ids, reports)
    requires id in ids && (id, r) !in reports
    ensures var fired', reports' := fired + (if queue - 1 <= 0 then 1 else 0), reports[(id, r) := ok];
      && Counted(trace + [TaskReported], queue - 1, fired', ids, reports') && Started(ids, reports')
      && (queue - 1 <= 0 <==> Count(trace, FormEnded) == 1 && Settled(ids, reports'))
      && fired' <= 1
    ensures Count(trace + [TaskReported], FormEnded) == Count(trace, FormEnded)
    ensures Count(trace, FormEnded) == 0 ==> fired == 0 && queue - 1 > 0
  {
    var reports' := reports[(id, r) := ok];
    QueueIsOutstandingWork(trace, queue, fired, ids, reports);
    OutstandingReport(ids, reports, id, r, ok);
    OutstandingSettled(ids, reports');
    Step(trace, TaskReported);
    FiresExactlyOnce(trace + [TaskReported]);
    QueueCounts(trace + [TaskReported]);
  }

  /** The form's end calls `next`: the counter reaches zero exactly when every task has reported. */
  lemma CountEnd(trace: seq<Signal>, queue: int, fired: nat, ids: seq<Id>, reports: map<Task, bool>)
    requires Counted(trace, queue, fired, ids, reports)
    requires Count(trace, FormEnded) != 1
    ensures var fired' := fired + (if queue - 1 <= 0 then 1 else 0);
      && Counted(trace + [FormEnded], queue - 1, fired', ids, reports)
      && (queue - 1 <= 0 <==> Settled(ids, reports))
      && fired' <= 1
    ensures Count(trace + [FormEnded], FormEnded) == 1
  {
    QueueIsOutstandingWork(trace, queue, fired, ids, reports);
    OutstandingSettled(ids, reports);
    Step(trace, FormEnded);
    FiresExactlyOnce(trace + [FormEnded]);
    QueueCounts(trace + [FormEnded]);
  }

  /**
   * Once every task of every file part has reported, an identifier is
   * committed exactly when it belongs to a file part both of whose renditions
   * were uploaded.
   */
  lemma CommittedAtCompletion(ids: seq<Id>, reports: map<Task, bool>, success: Index, failed: Index)
    requires Recorded(success, failed, reports) && Started(ids, reports) && Settled(ids, reports)
    ensures forall id :: id in Committed(success, failed) <==>
      id in ids && Uploaded(reports, id, Large) && Uploaded(reports, id, Thumb)
  {
    CommittedMembers(success, failed);
  }

  /** The whole request state: the dictionaries, the ghost history and the counter agree. */
  ghost predicate Consistent(queue: int, success: Index, failed: Index, trace: seq<Signal>, ids: seq<Id>, reports: map<Task, bool>, fired: nat, interrupted: bool) {
    && Recorded(success, failed, reports)
    && Started(ids, reports)
    && Counted(trace, queue, fired, ids, reports)
    && (interrupted ==> Count(trace, FormEnded) == 0)
  }

  class Request {
    var queue: int
    var data: Option<Descriptor>
    var success: Index
    var failed: Index

    ghost var trace: seq<Signal>
    ghost var ids: seq<Id>
    ghost var reports: map<Task, bool>
    ghost var fired: nat
    ghost var interrupted: bool

    /** The form has emitted `end`. */
    ghost predicate Ended()
      reads this
    {
      Count(trace, FormEnded) == 1
    }

    /** The form has emitted its one terminal event: `end`, `error` or `aborted`. */
    ghost predicate Closed()
      reads this
    {
      Ended() || interrupted
    }

    /** How many times `done` has been called: by `next`, or at once on `error` or `aborted`. */
    ghost function Calls(): nat
      reads this
    {
      fired + (if interrupted then 1 else 0)
    }

    /** Rendition `r` of file part `id` was started and has not reported. */
    ghost predicate Running(id: Id, r: Rendition)
      reads this
    {
      id in ids && (id, r) !in reports
    }

    /** No rendition task is running. */
    ghost predicate Idle()
      reads this
    {
      Settled(ids, reports)
    }

    ghost predicate Valid()
      reads this
    {
      Consistent(queue, success, failed, trace, ids, reports, fired, interrupted)
    }

    /** Every identifier is committed exactly when it is a file part all of whose renditions were uploaded. */
    ghost predicate AllOrNothing(c: Completion)
      reads this
    {
      forall id :: id in Committed(c.success, c.failed) <==>
        id in ids && Uploaded(reports, id, Large) && Uploaded(reports, id, Thumb)
    }

    constructor ()
      ensures Valid() && Idle() && !Closed() && Calls() == 0
      ensures queue == 1 && data == None && success == Empty && failed == Empty
      ensures trace == [] && ids == [] && reports == map[]
    {
      queue := 1;
      data := None;
      success := Empty;
      failed := Empty;
      trace := [];
      ids := [];
      reports := map[];
      fired := 0;
      interrupted := false;
    }

    /** A `field` event: only the field named `data` is kept. */
    method OnField(name: string, value: Descriptor)
      modifies this`data
      ensures data == if name == "data" then Some(value) else old(data)
    {
      if name == "data" {
        data := Some(value);
      }
    }

    /**
     * A `file` event: both rendition tasks are registered with the counter
     * before control returns to the parser. `id` is the fresh identifier the
     * source obtains from `uuid.v4`.
     */
    method OnFile(id: Id)
      requires Valid()
      requires !Closed()
      requires id !in ids
      modifies this`queue, this`trace, this`ids
      ensures Valid() && !Closed()
      ensures queue == old(queue) + 2
      ensures trace == old(trace) + [FileArrived]
      ensures ids == old(ids) + [id]
      ensures Running(id, Large) && Running(id, Thumb)
    {
      ghost var trace', ids' := trace + [FileArrived], ids + [id];
      CountFile(trace, queue, fired, ids, reports, id);
      assert Consistent(queue + 2, success, failed, trace', ids', reports, fired, interrupted);
      queue, trace, ids := queue + 2, trace', ids';
    }

    /** `next`: decrement the counter and call `done` once it is no longer positive. */
    method Next() returns (done: Option<Completion>)
      modifies this`queue, this`fired
      ensures queue == old(queue) - 1
      ensures done.Some? <==> queue <= 0
      ensures fired == old(fired) + (if queue <= 0 then 1 else 0)
      ensures done.Some? ==> done.value == Completion(false, data, success, failed)
    {
      queue := queue - 1;
      if queue > 0 {
        return None;
      }
      fired := fired + 1;
      done := Some(Completion(false, data, success, failed));
    }

    /**
     * Outcome recording in a task's callback: the task's object name goes
     * under `success[id]` when it uploaded, and `undefined` (no name) under
     * `failed[id]` when encoding or uploading failed.
     */
    method Record(id: Id, r: Rendition, ok: bool)
      requires Recorded(success, failed, reports) && Started(ids, reports)
      requires Running(id, r)
      modifies this`success, this`failed, this`reports
      ensures Recorded(success, failed, reports) && Started(ids, reports)
      ensures Pushed(old(success), old(failed), id, r, ok, success, failed)
      ensures reports == old(reports)[(id, r) := ok]
    {
      if ok {
        RecordUpload(success, failed, reports, id, r);
      } else {
        RecordFailure(success, failed, reports, id, r);
      }
      var name := Outcome(id, r, ok);
      if ok {
        success := success.Push(id, name);
      } else {
        failed := failed.Push(id, name);
      }
      reports := reports[(id, r) := ok];
    }

    /** The callback of one rendition task: its outcome is recorded, then `next` runs. */
    method OnTaskDone(id: Id, r: Rendition, ok: bool) returns (done: Option<Completion>)
      requires Valid()
      requires Running(id, r)
      modifies this`queue, this`success, this`failed, this`trace, this`reports, this`fired
      ensures Valid() && !Running(id, r)
      ensures Pushed(old(success), old(failed), id, r, ok, success, failed)
      ensures queue == old(queue) - 1
      ensures trace == old(trace) + [TaskReported]
      ensures reports == old(reports)[(id, r) := ok]
      ensures done.Some? <==> Ended() && Idle()
      ensures Calls() == old(Calls()) + (if done.Some? then 1 else 0) && Calls() <= 1
      ensures done.Some? ==> done.value == Completion(false, data, success, failed) && AllOrNothing(done.value)
    {
      CountReport(trace, queue, fired, ids, reports, id, r, ok);
      ghost var calls := Calls();
      trace := trace + [TaskReported];
      Record(id, r, ok);
      done := Next();
      assert Calls() == calls + (if done.Some? then 1 else 0);
      assert Consistent(queue, success, failed, trace, ids, reports, fired, interrupted);
      if done.Some? {
        CommittedAtCompletion(ids, reports, success, failed);
      }
    }

    /** The form's `end` event: the sentinel share of the counter is released. */
    method OnEnd() returns (done: Option<Completion>)
      requires Valid()
      requires !Closed()
      modifies this`queue, this`trace, this`fired
      ensures Valid() && Ended()
      ensures queue == old(queue) - 1
      ensures trace == old(trace) + [FormEnded]
      ensures done.Some? <==> Idle()
      ensures Calls() == old(Calls()) + (if done.Some? then 1 else 0) && Calls() <= 1
      ensures done.Some? ==> done.value == Completion(false, data, success, failed) && AllOrNothing(done.value)
    {
      CountEnd(trace, queue, fired, ids, reports);
      trace := trace + [FormEnded];
      done := Next();
      assert Consistent(queue, success, failed, trace, ids, reports, fired, interrupted);
      if done.Some? {
        CommittedAtCompletion(ids, reports, success, failed);
      }
    }

    /**
     * The form's `error` and `aborted` events: `done` is called at once with
     * the error flag set, bypassing the counter, which keeps its value. It is
     * the first call of `done`, and the tasks still running never reach
     * another one because the form will not emit `end`.
     */
    method OnFailure() returns (done: Completion)
      requires Valid()
      requires !Closed()
      modifies this`interrupted
      ensures Valid() && Closed() && !Ended()
      ensures done == Completion(true, data, success, failed)
      ensures queue >= 1
      ensures Calls() == old(Calls()) + 1 == 1
    {
      QueueIsOutstandingWork(trace, queue, fired, ids, reports);
      interrupted := true;
      done := Completion(true, data, success, failed);
    }
  }
}
