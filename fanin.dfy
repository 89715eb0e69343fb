/**
 * The fan-in completion counter of one request, as a function of the order in
 * which its events arrive.
 *
 * `queue` starts at 1, the share of the form's `end` event. Every file part
 * adds 2, one per rendition task it starts. Every task outcome and the `end`
 * event call `next`, which decrements `queue` and calls `done` when the new
 * value is not positive. The asynchronous callbacks are modelled as an
 * arbitrary sequence of signals; `Admissible` bounds the sequences by counts
 * only. Which task a report belongs to is not visible here: `Process.Request`
 * ties each report to a distinct running task.
 */
module FanIn {

  datatype Signal = FileArrived | TaskReported | FormEnded

  /** How many times `s` occurs in `t`. */
  function Count(t: seq<Signal>, s: Signal): nat {
    if t == [] then 0
    else Count(t[..|t| - 1], s) + (if t[|t| - 1] == s then 1 else 0)
  }

  /** The value of `queue` after the signals `t`. */
  function Queue(t: seq<Signal>): int {
    if t == [] then 1
    else Queue(t[..|t| - 1]) + (if t[|t| - 1] == FileArrived then 2 else -1)
  }

  /** How many times `next` has called `done` after the signals `t`. */
  function Fires(t: seq<Signal>): nat {
    if t == [] then 0
    else Fires(t[..|t| - 1]) + (if t[|t| - 1] != FileArrived && Queue(t) <= 0 then 1 else 0)
  }

  /**
   * The orders admitted by counting: the form ends at most once, no file part
   * follows its end, and no more task reports arrive than tasks were started
   * (two per file part). Every prefix of an admissible order is admissible, so
   * orders with tasks still running are included.
   */
  ghost predicate Admissible(t: seq<Signal>) {
    t == [] ||
    var p := t[..|t| - 1];
    Admissible(p) && Allowed(p, t[|t| - 1])
  }

  /** Whether signal `e` can follow the signals `p`. */
  ghost predicate Allowed(p: seq<Signal>, e: Signal) {
    match e
    case FileArrived => Count(p, FormEnded) == 0
    case TaskReported => Count(p, TaskReported) < 2 * Count(p, FileArrived)
    case FormEnded => Count(p, FormEnded) == 0
  }

  /** Every started task has reported and the form has ended. */
  ghost predicate Complete(t: seq<Signal>) {
    Count(t, FormEnded) == 1 && Count(t, TaskReported) == 2 * Count(t, FileArrived)
  }

  /** One more signal: how each quantity above moves. */
  lemma Step(t: seq<Signal>, e: Signal)
    ensures forall s :: Count(t + [e], s) == Count(t, s) + (if e == s then 1 else 0)
    ensures Queue(t + [e]) == Queue(t) + (if e == FileArrived then 2 else -1)
    ensures Fires(t + [e]) == Fires(t) + (if e != FileArrived && Queue(t + [e]) <= 0 then 1 else 0)
    ensures Admissible(t + [e]) <==> Admissible(t) && Allowed(t, e)
  {
    assert (t + [e])[..|t + [e]| - 1] == t;
  }

  /** `queue` is the sentinel plus two per file part, less one per `next` call. */
  lemma {:induction false} QueueCounts(t: seq<Signal>)
    ensures Queue(t) == 1 + 2 * Count(t, FileArrived) - Count(t, TaskReported) - Count(t, FormEnded)
  {
    if t != [] {
      QueueCounts(t[..|t| - 1]);
    }
  }

  /** Before any task reports or the form ends, F file parts leave `queue` at 1 + 2F. */
  lemma QueueBeforeCompletions(t: seq<Signal>)
    requires Count(t, TaskReported) == 0 && Count(t, FormEnded) == 0
    ensures Queue(t) == 1 + 2 * Count(t, FileArrived)
  {
    QueueCounts(t);
  }

  /** In an admissible order the form has ended at most once and no more tasks reported than started. */
  lemma {:induction false} AdmissibleBounds(t: seq<Signal>)
    requires Admissible(t)
    ensures Count(t, FormEnded) <= 1
    ensures Count(t, TaskReported) <= 2 * Count(t, FileArrived)
  {
    if t != [] {
      AdmissibleBounds(t[..|t| - 1]);
    }
  }

  /**
   * Whatever the order of the events, `next` has called `done` once if the
   * form has ended and the task reports number two per file part, and not at
   * all otherwise.
   */
  lemma {:induction false} FiresExactlyOnce(t: seq<Signal>)
    requires Admissible(t)
    ensures Fires(t) == if Complete(t) then 1 else 0
  {
    if t != [] {
      var p := t[..|t| - 1];
      FiresExactlyOnce(p);
      AdmissibleBounds(p);
      QueueCounts(t);
    }
  }

  /** The call of `done` happens on the last event, a `next` call, and on no earlier one. */
  lemma FiresOnLastEvent(t: seq<Signal>)
    requires Admissible(t) && Complete(t)
    ensures t != [] && t[|t| - 1] != FileArrived
    ensures Fires(t[..|t| - 1]) == 0 && Fires(t) == 1
  {
    FiresExactlyOnce(t);
    assert t != [];
    var p := t[..|t| - 1];
    FiresExactlyOnce(p);
  }

  /**
   * When the form never ends (it was aborted or failed to parse), the tasks
   * already started still report, but `next` never calls `done`.
   */
  lemma NoFireWithoutEnd(t: seq<Signal>)
    requires Admissible(t) && Count(t, FormEnded) == 0
    ensures Fires(t) == 0 && Queue(t) >= 1
  {
    FiresExactlyOnce(t);
    AdmissibleBounds(t);
    QueueCounts(t);
  }

  /**
   * A task whose callback runs twice (its encoder and its uploader both
   * report an error): with one file part, the repeated report still counts as
   * admissible, so the extra `next` and the form's end bring `queue` to 0 and
   * call `done` while the sibling task is still running. Only the sibling's
   * later report leaves `Admissible`, and it calls `done` a second time.
   */
  lemma DoubleReportFiresTwice()
    ensures var t := [FileArrived, TaskReported, TaskReported, FormEnded, TaskReported];
      && Admissible(t[..4]) && !Admissible(t)
      && Fires(t[..4]) == 1 && Fires(t) == 2
  {
    var t0: seq<Signal> := [];
    var t1 := t0 + [FileArrived];
    var t2 := t1 + [TaskReported];
    var t3 := t2 + [TaskReported];
    var t4 := t3 + [FormEnded];
    var t5 := t4 + [TaskReported];
    Step(t0, FileArrived);
    Step(t1, TaskReported);
    Step(t2, TaskReported);
    Step(t3, FormEnded);
    Step(t4, TaskReported);
    assert t5 == [FileArrived, TaskReported, TaskReported, FormEnded, TaskReported] && t5[..4] == t4;
  }
}
