/** The completion protocol of a background task (utils/BackgroundTask.java):
    a task starts out RUNNING and ends in exactly one of SUCCEEDED, CANCELLED
    or FAILED, and its hooks run in a fixed order. What the hooks do is
    recorded as a trace of events; threads and the JavaFX task machinery are
    not modelled. */
module BackgroundTasks {

  /** `BackgroundTask.Result`. */
  datatype Result = Running | Succeeded | Cancelled | Failed

  predicate Terminal(r: Result) {
    r != Running
  }

  /** What a failed task threw: an `Exception` is recoverable, an `Error`
      is not. */
  datatype Throwable = RecoverableException | UnrecoverableError

  /** The observable steps of a task. */
  datatype Event =
    | WorkerEventPosted
    | ThreadStarted
    | Finished(state: Result)
    | CleanedUp
    | ResultSet(result: Result)
    | Logged(throwable: Throwable)
    | ErrorShown(throwable: Throwable)

  /** The events of the hook that completes a task with `outcome`:
      `finished` first, then `cleanUp` unless the task succeeded, then the
      result; a failure is then logged, and shown when there is a UI
      strategy. */
  function Completion(outcome: Result, hasUiStrategy: bool, throwable: Throwable): seq<Event>
    requires Terminal(outcome)
  {
    match outcome
    case Succeeded => [Finished(Succeeded), ResultSet(Succeeded)]
    case Cancelled => [Finished(Cancelled), CleanedUp, ResultSet(Cancelled)]
    case Failed =>
      [Finished(Failed), CleanedUp, ResultSet(Failed), Logged(throwable)]
      + (if hasUiStrategy then [ErrorShown(throwable)] else [])
  }

  /** `a` occurs in `trace` strictly before `b`. */
  predicate Precedes(trace: seq<Event>, a: Event, b: Event) {
    exists i, j :: 0 <= i < j < |trace| && trace[i] == a && trace[j] == b
  }

  /** How many results a trace sets. */
  function ResultsSet(trace: seq<Event>): nat {
    if trace == [] then 0
    else (if trace[|trace| - 1].ResultSet? then 1 else 0) + ResultsSet(trace[..|trace| - 1])
  }

  lemma {:induction false} ResultsSetConcat(a: seq<Event>, b: seq<Event>)
    ensures ResultsSet(a + b) == ResultsSet(a) + ResultsSet(b)
  {
    if b == [] {
      assert a + b == a;
    } else {
      assert (a + b)[..|a + b| - 1] == a + b[..|b| - 1];
      ResultsSetConcat(a, b[..|b| - 1]);
    }
  }

  /** Every completion sets exactly one result, the outcome, and begins with
      `finished` of that outcome. */
  lemma CompletionSetsOneResult(outcome: Result, hasUiStrategy: bool, throwable: Throwable)
    requires Terminal(outcome)
    ensures ResultsSet(Completion(outcome, hasUiStrategy, throwable)) == 1
    ensures ResultSet(outcome) in Completion(outcome, hasUiStrategy, throwable)
    ensures Completion(outcome, hasUiStrategy, throwable)[0] == Finished(outcome)
  {
    var c := Completion(outcome, hasUiStrategy, throwable);
    var f := [Finished(outcome)];
    assert f[..0] == [] && ResultsSet(f) == 0;
    if outcome == Succeeded {
      assert c == f + [ResultSet(outcome)];
      ResultsSetConcat(f, [ResultSet(outcome)]);
      assert [ResultSet(outcome)][..0] == [];
      assert c[1] == ResultSet(outcome);
    } else {
      var fc := f + [CleanedUp];
      ResultsSetConcat(f, [CleanedUp]);
      assert [CleanedUp][..0] == [];
      var fcr := fc + [ResultSet(outcome)];
      ResultsSetConcat(fc, [ResultSet(outcome)]);
      assert [ResultSet(outcome)][..0] == [];
      assert fcr[2] == ResultSet(outcome);
      if outcome == Cancelled {
        assert c == fcr;
      } else {
        var rest := [Logged(throwable)] + (if hasUiStrategy then [ErrorShown(throwable)] else []);
        assert c == fcr + rest;
        assert rest[..|rest| - 1] == [] || rest[..|rest| - 1] == [Logged(throwable)];
        assert [Logged(throwable)][..0] == [];
        ResultsSetConcat(fcr, rest);
        assert c[2] == ResultSet(outcome);
      }
    }
  }

  /** The hook order: `finished` comes before `cleanUp`, and `cleanUp`
      before the result and any error handling; `cleanUp` runs exactly when
      the task did not succeed, and the error is shown exactly when the task
      failed and there is a UI strategy. */
  lemma CompletionOrder(outcome: Result, hasUiStrategy: bool, throwable: Throwable)
    requires Terminal(outcome)
    ensures CleanedUp in Completion(outcome, hasUiStrategy, throwable) <==> outcome != Succeeded
    ensures outcome != Succeeded ==>
      && Precedes(Completion(outcome, hasUiStrategy, throwable), Finished(outcome), CleanedUp)
      && Precedes(Completion(outcome, hasUiStrategy, throwable), CleanedUp, ResultSet(outcome))
    ensures Logged(throwable) in Completion(outcome, hasUiStrategy, throwable) <==> outcome == Failed
    ensures ErrorShown(throwable) in Completion(outcome, hasUiStrategy, throwable) <==> outcome == Failed && hasUiStrategy
    ensures outcome == Failed ==>
      && Precedes(Completion(outcome, hasUiStrategy, throwable), CleanedUp, Logged(throwable))
      && Precedes(Completion(outcome, hasUiStrategy, throwable), ResultSet(outcome), Logged(throwable))
    ensures outcome == Failed && hasUiStrategy ==>
      Precedes(Completion(outcome, hasUiStrategy, throwable), Logged(throwable), ErrorShown(throwable))
  {
    var c := Completion(outcome, hasUiStrategy, throwable);
    if outcome != Succeeded {
      assert c[0] == Finished(outcome) && c[1] == CleanedUp && c[2] == ResultSet(outcome);
    }
    if outcome == Failed {
      assert c[3] == Logged(throwable);
      if hasUiStrategy {
        assert c[4] == ErrorShown(throwable);
      }
    }
  }

  /** The thread of a task. */
  class Worker {
    var started: bool

    constructor ()
      ensures !started
    {
      started := false;
    }

    method Start()
      modifies this
      ensures started
    {
      started := true;
    }
  }

  class BackgroundTask {
    const hasUiStrategy: bool
    const hasEventBus: bool
    const thread: Worker
    var result: Result
    /** What the task has done so far, in order. */
    var trace: seq<Event>

    /** A new task: RUNNING, with a thread of its own that has not started. */
    constructor (hasUiStrategy: bool, hasEventBus: bool)
      ensures this.hasUiStrategy == hasUiStrategy && this.hasEventBus == hasEventBus
      ensures fresh(thread) && !thread.started
      ensures result == Running && trace == []
    {
      this.hasUiStrategy := hasUiStrategy;
      this.hasEventBus := hasEventBus;
      thread := new Worker();
      result := Running;
      trace := [];
    }

    /** `start`: posts a worker event if there is an event bus, before the
        thread is started; returns the task's own thread. */
    method Start() returns (t: Worker)
      modifies this, thread
      ensures t == thread && thread.started
      ensures trace == old(trace) + (if hasEventBus then [WorkerEventPosted] else []) + [ThreadStarted]
      ensures result == old(result)
    {
      if hasEventBus {
        trace := trace + [WorkerEventPosted];
      }
      thread.Start();
      trace := trace + [ThreadStarted];
      return thread;
    }

    /** `succeeded`: `finished(SUCCEEDED)`, then the result. */
    method OnSucceeded()
      modifies this
      ensures result == Succeeded
      ensures trace == old(trace) + Completion(Succeeded, hasUiStrategy, RecoverableException)
    {
      trace := trace + [Finished(Succeeded)];
      trace := trace + [ResultSet(Succeeded)];
      result := Succeeded;
    }

    /** `cancelled`: `finished(CANCELLED)`, `cleanUp`, then the result. */
    method OnCancelled()
      modifies this
      ensures result == Cancelled
      ensures trace == old(trace) + Completion(Cancelled, hasUiStrategy, RecoverableException)
    {
      trace := trace + [Finished(Cancelled)];
      trace := trace + [CleanedUp];
      trace := trace + [ResultSet(Cancelled)];
      result := Cancelled;
    }

    /** `failed`: `finished(FAILED)`, `cleanUp`, the result, then the
        throwable is logged and, with a UI strategy, shown. */
    method OnFailed(throwable: Throwable)
      modifies this
      ensures result == Failed
      ensures trace == old(trace) + Completion(Failed, hasUiStrategy, throwable)
    {
      trace := trace + [Finished(Failed)];
      trace := trace + [CleanedUp];
      trace := trace + [ResultSet(Failed)];
      result := Failed;
      trace := trace + [Logged(throwable)];
      if hasUiStrategy {
        trace := trace + [ErrorShown(throwable)];
      }
    }

    /** The task machinery calls exactly one of the three hooks, once, when
        the running task ends with `outcome`. */
    method Complete(outcome: Result, throwable: Throwable)
      requires result == Running && Terminal(outcome)
      modifies this
      ensures result == outcome && Terminal(result)
      ensures outcome != Failed ==> trace == old(trace) + Completion(outcome, hasUiStrategy, RecoverableException)
      ensures outcome == Failed ==> trace == old(trace) + Completion(outcome, hasUiStrategy, throwable)
      ensures ResultsSet(trace) == ResultsSet(old(trace)) + 1
    {
      match outcome {
        case Succeeded => OnSucceeded();
        case Cancelled => OnCancelled();
        case Failed => OnFailed(throwable);
      }
      var t := if outcome == Failed then throwable else RecoverableException;
      CompletionSetsOneResult(outcome, hasUiStrategy, t);
      ResultsSetConcat(old(trace), Completion(outcome, hasUiStrategy, t));
    }
  }
}
