/** Concrete runs of the admission controller, each a fresh service state
    driven through the operations; the postconditions say what the callers
    observe. */
module Scenarios {
  import opened Admission

  /** The first two tickets a fresh service issues are 0 and 1. */
  method FirstTickets() returns (t0: int, t1: int)
    ensures t0 == 0 && t1 == 1
  {
    var g := new GpuAdmission();
    t0 := g.GetQueueId();
    t1 := g.GetQueueId();
  }

  /** Releasing twice in a row is not idempotent: the second release finds
      no ticket to remove and raises ValueError; the lock stays free. */
  method ReleaseTwice() returns (first: Status, second: Status, busy: bool)
    ensures first == Ok && second == Throws(ValueError) && !busy
  {
    var g := new GpuAdmission();
    var t := g.GetQueueId();
    g.AcquireGpu(t);
    first := g.ReleaseGpu(t);
    second := g.ReleaseGpu(t);
    busy := g.busy;
  }

  /** A second release of the ticket after the lock was set again raises
      ValueError before it gets to clear the lock, so the lock stays set. */
  method ReleaseAfterReacquire() returns (second: Status, busy: bool)
    ensures second == Throws(ValueError) && busy
  {
    var g := new GpuAdmission();
    var t := g.GetQueueId();
    g.AcquireGpu(t);
    var first := g.ReleaseGpu(t);
    g.AcquireGpu(t);
    second := g.ReleaseGpu(t);
    busy := g.busy;
  }

  /** Three calls arrive in order. While the first holds the lock the second
      keeps waiting; once the first has released, the third still waits
      because the second heads the queue, and the second gets its turn. */
  method ThreeCallsInOrder() returns (second: Wait, thirdAfter: Wait, secondAfter: Wait)
    ensures second == StillWaiting(5)
    ensures thirdAfter == StillWaiting(0)
    ensures secondAfter == Granted(0)
  {
    var g := new GpuAdmission();
    var t1 := g.GetQueueId();
    var t2 := g.GetQueueId();
    var t3 := g.GetQueueId();
    var w1 := g.WaitTurn(t1, []);
    g.AcquireGpu(t1);
    // the first call computes for five polls of the second
    second := g.WaitTurn(t2, seq(5, _ => Idle));
    var st := g.ReleaseGpu(t1);
    thirdAfter := g.WaitTurn(t3, []);
    secondAfter := g.WaitTurn(t2, []);
  }

  /** The `except` clause run directly for a caller that does not head the
      queue: it retires only its own ticket and leaves the holder's lock
      alone. This exercises the clause on its own, not a path through
      `Forecast`, which enters it only after taking the lock; the path that
      does reach this branch is `ExceptionAfterRelease`. */
  method FailureBehindHolder() returns (st: Status, queue: seq<int>, busy: bool)
    ensures st == Ok && queue == [0] && busy
  {
    var g := new GpuAdmission();
    var holder := g.GetQueueId();
    var me := g.GetQueueId();
    var w := g.WaitTurn(holder, []);
    g.AcquireGpu(holder);
    st := g.Cleanup(me);
    queue, busy := g.queue, g.busy;
  }

  /** A call whose child process leaves no result reaches the `except`
      clause and answers "Fail"; it released the lock, so the next call is
      served at once. */
  method NoResultFailsAndReleases() returns (first: Call, second: Call)
    ensures first == Returned(Reply(FailOutput, OK, None))
    ensures second == Returned(Reply(Output("abc", "d", 0.5), OK, None))
  {
    var g := new GpuAdmission();
    var a, b;
    a, first := g.Forecast(NoResult, []);
    b, second := g.Forecast(Success("abc", "d", 0.5), []);
  }

  /** An exception raised after `release_gpu` reaches the `except` clause
      with the ticket already retired: alone in the queue, reading its head
      raises IndexError; with a later caller queued, the caller is no longer
      the head and the removal raises ValueError. Either way the lock is free
      and the exception escapes the call. */
  method ExceptionAfterRelease() returns (alone: Call, behind: Call, queueBehind: seq<int>, busyBehind: bool)
    ensures alone == Escaped(IndexError)
    ensures behind == Escaped(ValueError) && queueBehind == [1] && !busyBehind
  {
    var g := new GpuAdmission();
    var me;
    me, alone := g.Forecast(RaisedAfterRelease, []);
    var h := new GpuAdmission();
    var first := h.GetQueueId();
    var later := h.GetQueueId();
    var w := h.WaitTurn(first, []);
    behind := h.Serve(first, RaisedAfterRelease);
    queueBehind, busyBehind := h.queue, h.busy;
  }

  /** As written: a call whose computation reports an error returns INTERNAL
      but keeps the lock and its ticket, so the next call, with nobody else
      active, is still spinning after 3601 polls. */
  method ErrorResultStallsNextCall() returns (first: Call, second: Call)
    ensures first == Returned(Reply(EmptyOutput, INTERNAL, Some("no data")))
    ensures second == Spinning
  {
    var g := new GpuAdmission();
    var a, b;
    a, first := g.Forecast(ErrorResult("no data"), []);
    b, second := g.Forecast(Success("abc", "d", 0.5), seq(60 * 60 + 1, _ => Idle));
  }

  /** Corrected: after the error reply the lock is free and the queue empty,
      so the next call is served at once. */
  method ErrorResultReleasedWhenCorrected() returns (first: Call, second: Call)
    ensures first.Returned? && first.reply.code == INTERNAL
    ensures second == Returned(Reply(Output("abc", "d", 0.5), OK, None))
  {
    var g := new GpuAdmission();
    var a, b, ta, tb;
    a, first, ta := g.ForecastCorrected(ErrorResult("no data"), []);
    b, second, tb := g.ForecastCorrected(Success("abc", "d", 0.5), []);
  }

  /** As written: while an earlier call holds the lock for more than an hour,
      a later call with nobody else active passes the 3600-poll mark and
      keeps spinning; its ticket stays queued. */
  method LongHolderNoTimeout() returns (call: Call, queued: bool)
    ensures call == Spinning && queued
  {
    var g := new GpuAdmission();
    var holder := g.GetQueueId();
    var w := g.WaitTurn(holder, []);
    g.AcquireGpu(holder);
    var me;
    me, call := g.Forecast(Success("abc", "d", 0.5), seq(60 * 60 + 1, _ => Idle));
    queued := me in g.queue;
  }

  /** Corrected: the same call times out after 3601 polls with the
      "GPU Busy!" message, its ticket retired and the holder's lock kept. */
  method LongHolderTimesOutWhenCorrected() returns (call: Call, queue: seq<int>, busy: bool)
    ensures call == Returned(Reply(BusyOutput, OK, None))
    ensures queue == [0] && busy
  {
    var g := new GpuAdmission();
    var holder := g.GetQueueId();
    var w := g.WaitTurn(holder, []);
    g.AcquireGpu(holder);
    var me, timedOut;
    me, call, timedOut := g.ForecastCorrected(Success("abc", "d", 0.5), seq(60 * 60 + 1, _ => Idle));
    queue, busy := g.queue, g.busy;
  }
}
