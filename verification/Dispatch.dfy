/** A workflow thread calling into the broker's main loop (broker/qdistro_admin_broker.py, `_WorkflowBrokerProxy`).

    The worker queues a callback and waits on a future; the main loop runs the callback.  Every operation on the future
    is atomic, and the two threads interleave between operations in any way.  `runs` records what the dispatched call
    returned or raised each time it ran. */
module Dispatch {
  datatype Outcome = Value(value: int) | Error(error: string)

  /** `Notified`: cancelled, and the callback has seen it. */
  datatype Future = Pending | Running | Finished(outcome: Outcome) | Cancelled | Notified

  datatype Report = Got(outcome: Outcome) | QueuedCanceled | Unconfirmed

  /** Where the worker is in `_invoke`. */
  datatype Worker = Entering | Waiting | TimedOut | NotDone | Left(report: Report)

  /** Where the main loop is in the callback. */
  datatype Callback = Absent | Queued | Admitted | Called(outcome: Outcome) | Over

  datatype State = State(worker: Worker, callback: Callback, future: Future, runs: seq<Outcome>)

  /** `gaveUp`: the wait ends by timeout, which may come at the same moment as the result.  `outcome`: what the call
      returns or raises if it runs in this step. */
  datatype Step = WorkerStep(gaveUp: bool, outcome: Outcome) | LoopStep(outcome: Outcome)

  const START := State(Entering, Absent, Pending, [])

  /** One operation of the worker; `onLoop` when the caller already is the main loop's thread. */
  function WorkerMove(s: State, onLoop: bool, gaveUp: bool, outcome: Outcome): State {
    match s.worker
    case Entering =>
      if onLoop then s.(worker := Left(Got(outcome)), runs := s.runs + [outcome])
      else s.(worker := Waiting, callback := Queued)
    case Waiting =>
      if gaveUp then s.(worker := TimedOut)
      else if s.future.Finished? then s.(worker := Left(Got(s.future.outcome)))
      else s
    case TimedOut => if s.future.Finished? then s.(worker := Left(Got(s.future.outcome))) else s.(worker := NotDone)
    case NotDone =>
      if s.future.Pending? then s.(future := Cancelled, worker := Left(QueuedCanceled))
          else s.(worker := Left(Unconfirmed))
    case Left(_) => s
  }

  /** One operation of the callback. */
  function LoopMove(s: State, outcome: Outcome): State {
    match s.callback
    case Queued =>
      if s.future.Cancelled? then s.(future := Notified, callback := Over)
          else s.(future := Running, callback := Admitted)
    case Admitted => s.(callback := Called(outcome), runs := s.runs + [outcome])
    case Called(o) => s.(future := Finished(o), callback := Over)
    case _ => s
  }

  function Move(onLoop: bool, s: State, step: Step): State {
    match step
    case WorkerStep(gaveUp, outcome) => WorkerMove(s, onLoop, gaveUp, outcome)
    case LoopStep(outcome) => LoopMove(s, outcome)
  }

  function After(onLoop: bool, s: State, run: seq<Step>): State {
    if run == [] then s else Move(onLoop, After(onLoop, s, run[..|run| - 1]), run[|run| - 1])
  }

  // ---------------------------------------------------------------- what every interleaving keeps

  ghost predicate Inv(onLoop: bool, s: State) {
    && (s.worker.Entering? ==> s == START)
    && (onLoop && !s.worker.Entering? ==>
          s.worker.Left? && s.callback.Absent? && s.future.Pending? && s.worker.report.Got?
              && s.runs == [s.worker.report.outcome])
    && (!onLoop && !s.worker.Entering? ==> LoopInv(s))
  }

  /** The callback, the future and the runs agree, and the worker's report fits. */
  ghost predicate LoopInv(s: State) {
    && (match s.callback
        case Absent => false
        case Queued => (s.future.Pending? || s.future.Cancelled?) && s.runs == []
        case Admitted => s.future.Running? && s.runs == []
        case Called(o) => s.future.Running? && s.runs == [o]
        case Over => (s.future.Notified? && s.runs == []) || (s.future.Finished? && s.runs == [s.future.outcome]))
    && (s.future.Cancelled? || s.future.Notified? <==> s.worker == Left(QueuedCanceled))
    && (s.worker.Left? && s.worker.report.Got? ==> s.future == Finished(s.worker.report.outcome))
    && (s.worker == Left(Unconfirmed) ==> s.future.Running? || s.future.Finished?)
  }

  lemma MoveKeepsInv(onLoop: bool, s: State, step: Step)
    requires Inv(onLoop, s)
    ensures Inv(onLoop, Move(onLoop, s, step))
  {
  }

  lemma {:induction false} RunKeepsInv(onLoop: bool, run: seq<Step>)
    ensures Inv(onLoop, After(onLoop, START, run))
  {
    if run != [] {
      RunKeepsInv(onLoop, run[..|run| - 1]);
      MoveKeepsInv(onLoop, After(onLoop, START, run[..|run| - 1]), run[|run| - 1]);
    }
  }

  /** In every interleaving the call runs at most once; what the worker got is what that one run gave; a worker told
      "queued operation canceled" was told the truth; and one told "already running" left a call that the loop has
      admitted. */
  lemma RunsAtMostOnce(onLoop: bool, run: seq<Step>)
    ensures var s := After(onLoop, START, run);
            && |s.runs| <= 1
            && (s.worker.Left? && s.worker.report.Got? ==> s.runs == [s.worker.report.outcome])
            && (s.worker == Left(QueuedCanceled) ==> s.runs == [])
            && (s.worker == Left(Unconfirmed) ==> s.future.Running? || s.future.Finished?)
  {
    RunKeepsInv(onLoop, run);
  }

  lemma {:induction false} AfterPrefix(onLoop: bool, run: seq<Step>, more: seq<Step>)
    ensures After(onLoop, START, run + more) == After(onLoop, After(onLoop, START, run), more)
  {
    if more == [] {
      assert run + more == run;
    } else {
      var n := |more| - 1;
      AfterPrefix(onLoop, run, more[..n]);
      assert (run + more)[..|run + more| - 1] == run + more[..n];
    }
  }

  lemma {:induction false} ReportsStand(onLoop: bool, s: State, more: seq<Step>)
    requires s.worker.Left?
    ensures After(onLoop, s, more).worker == s.worker
  {
    if more != [] {
      ReportsStand(onLoop, s, more[..|more| - 1]);
    }
  }

  /** A call reported canceled never runs, however the run goes on. */
  lemma CanceledNeverRuns(onLoop: bool, run: seq<Step>, more: seq<Step>)
    requires After(onLoop, START, run).worker == Left(QueuedCanceled)
    ensures After(onLoop, START, run + more).runs == []
  {
    AfterPrefix(onLoop, run, more);
    ReportsStand(onLoop, After(onLoop, START, run), more);
    RunsAtMostOnce(onLoop, run + more);
  }

  /** A call left unconfirmed is finished by the loop: three more of its steps and it has run exactly once. */
  lemma UnconfirmedCompletes(onLoop: bool, run: seq<Step>, a: Outcome, b: Outcome, d: Outcome)
    requires After(onLoop, START, run).worker == Left(Unconfirmed)
    ensures |After(onLoop, START, run + [LoopStep(a), LoopStep(b), LoopStep(d)]).runs| == 1
  {
    var s := After(onLoop, START, run);
    RunKeepsInv(onLoop, run);
    AfterPrefix(onLoop, run, [LoopStep(a), LoopStep(b), LoopStep(d)]);
    var more := [LoopStep(a), LoopStep(b), LoopStep(d)];
    assert more[..2] == [LoopStep(a), LoopStep(b)] && more[..2][..1] == [LoopStep(a)] && more[..2][..1][..0] == [];
    assert After(onLoop, s, more[..2][..1]) == LoopMove(s, a);
    assert After(onLoop, s, more[..2]) == LoopMove(LoopMove(s, a), b);
  }

  /** A worker still waiting, or just timed out, when the call is finished gets its outcome within two steps of its
      own; only one past its last look at the future leaves without it. */
  lemma {:induction false} FinishedIsReported(onLoop: bool, run: seq<Step>, gaveUp: bool, a: Outcome, b: Outcome,
                                              again: bool)
    requires After(onLoop, START, run).future.Finished? && !After(onLoop, START, run).worker.Left?
    requires !After(onLoop, START, run).worker.NotDone?
    ensures var s := After(onLoop, START, run);
            After(onLoop, START, run + [WorkerStep(gaveUp, a), WorkerStep(again, b)]).worker
            == Left(Got(s.future.outcome))
  {
    var s, more := After(onLoop, START, run), [WorkerStep(gaveUp, a), WorkerStep(again, b)];
    RunKeepsInv(onLoop, run);
    AfterPrefix(onLoop, run, more);
    assert more[..1] == [WorkerStep(gaveUp, a)] && more[..1][..0] == [];
    assert After(onLoop, s, more[..1]) == WorkerMove(s, onLoop, gaveUp, a);
  }
}
