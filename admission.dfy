/** The FIFO admission controller of the forecast service: the shared ticket
    registry and device lock (module globals of the service), their four
    operations, and the per-call orchestration of `ForecastServicer.forecast`
    with the forecast computation abstracted to its outcome. */
module Admission {
  import opened Tickets

  datatype Option<T> = None | Some(value: T)

  /** The Python exceptions the registry and the `except` clause can raise. */
  datatype Error = ValueError | IndexError

  /** Whether a registry operation returned normally or raised. */
  datatype Status = Ok | Throws(error: Error)

  /** The protobuf `Output` message. The float `position_in_sax_interval` is
      only copied through, so it is a `real` here. */
  datatype Output = Output(lastSaxWord: string, forecastSaxLetter: string, positionInSaxInterval: real)

  /** `Output()`: every field at its protobuf default. */
  const EmptyOutput := Output("", "", 0.0)
  /** The reply of the exception path. */
  const FailOutput := Output("Fail", "Fail", -1.0)
  /** The message the wait loop builds after 3600 polls. */
  const BusyOutput := Output("GPU Busy!", "GPU Busy!", -1.0)

  /** The gRPC status code left on the call context. */
  datatype Code = OK | INTERNAL

  /** What the caller receives: the message, the status code and the details
      string set with `context.set_details` (None when never set, or set to None). */
  datatype Reply = Reply(output: Output, code: Code, details: Option<string>)

  /** What the computation run in the child process hands back, as the
      servicer sees it:
      - Success: a result dictionary with the three fields and no "error" key;
      - ErrorResult: a result dictionary with an "error" key;
      - NoResult: no "response" entry, or an empty one (the child died or
        returned nothing); the error message is then None, and
        `context.set_details(None)` raises, so this path ends in `except`;
      - Raised: an exception in the servicer after the lock was taken and
        before the release (building the job, starting the process, a result
        lacking a field);
      - RaisedAfterRelease: a result with the three fields whose values the
        `Output` message refuses, so building the reply raises after
        `release_gpu` has already retired the ticket. */
  datatype Outcome =
    | Success(lastSaxWord: string, forecastSaxLetter: string, positionInSaxInterval: real)
    | ErrorResult(message: string)
    | NoResult
    | Raised
    | RaisedAfterRelease

  /** What other callers do to the shared state while this caller sleeps
      through one poll of its wait loop. Each is one of the registry or lock
      operations, made by some other call on its own ticket. */
  datatype Step =
    | Idle
    | OtherArrives
    | OtherAcquires
    | OtherReleases(ticket: int)
    | OtherLeaves(ticket: int)

  /** The step retires ticket `t` (another caller only ever retires its own). */
  predicate Retires(s: Step, t: int) {
    (s.OtherReleases? || s.OtherLeaves?) && s.ticket == t
  }

  /** No other caller does anything during the polls. */
  predicate AllIdle(env: seq<Step>) {
    forall k | 0 <= k < |env| :: env[k] == Idle
  }

  /** How the wait loop ended: its condition held after `polls` polls, or it
      was still spinning when the modelled polls ran out. */
  datatype Wait = Granted(polls: nat) | StillWaiting(polls: nat)

  /** How a call ended: it returned a reply, an exception escaped from its
      `except` clause, or it is still in its wait loop. */
  datatype Call = Returned(reply: Reply) | Escaped(error: Error) | Spinning

  /** The reply the corrected wait loop returns on timeout. */
  const TimedOutReply := Reply(BusyOutput, OK, None)

  /** The service's shared admission state: GPU_DEVICE_BUSY, GPU_QUEUE and
      GPU_QUEUE_ID, with the functions that change them. */
  class GpuAdmission {
    /** GPU_DEVICE_BUSY: the device lock. */
    var busy: bool
    /** GPU_QUEUE: outstanding tickets, in arrival order. */
    var queue: seq<int>
    /** GPU_QUEUE_ID: the most recently issued ticket, -1 before the first. */
    var queueId: int

    /** The registry invariant: queued tickets are strictly increasing (so
        distinct) and none exceeds the last ticket issued. */
    ghost predicate Valid()
      reads this
    {
      Increasing(queue) && AtMost(queue, queueId)
    }

    /** The negation of the wait loop's guard `GPU_DEVICE_BUSY or
        GPU_QUEUE[0] != gpu_queue_id`. On an increasing queue it holds only
        when no earlier ticket is still queued. */
    function Ready(me: int): (r: bool)
      reads this
      ensures r && Increasing(queue) ==> forall i | 0 <= i < |queue| :: me <= queue[i]
    {
      !busy && queue != [] && queue[0] == me
    }

    /** The module globals at import: free, empty, no ticket issued. */
    constructor ()
      ensures Valid()
      ensures !busy && queue == [] && queueId == -1
    {
      busy := false;
      queue := [];
      queueId := -1;
    }

    /** get_gpu_queue_id: issue the next ticket and queue it at the tail. */
    method GetQueueId() returns (t: int)
      requires Valid()
      modifies this
      ensures Valid()
      ensures t == old(queueId) + 1 && queueId == t
      ensures t !in old(queue) && queue == old(queue) + [t]
      ensures busy == old(busy)
    {
      AppendKeepsIncreasing(queue, queueId);
      queueId := queueId + 1;
      queue := queue + [queueId];
      t := queueId;
    }

    /** remove_from_queue: `GPU_QUEUE.remove(t)`. Raises ValueError, and
        changes nothing, when `t` is not queued. */
    method RemoveFromQueue(t: int) returns (st: Status)
      requires Valid()
      modifies this
      ensures Valid()
      ensures st == if t in old(queue) then Ok else Throws(ValueError)
      ensures queue == RemoveFirst(old(queue), t)
      ensures t !in old(queue) ==> queue == old(queue)
      ensures t in old(queue) ==>
        queue == old(queue)[..FirstIndex(old(queue), t)] + old(queue)[FirstIndex(old(queue), t) + 1..]
      ensures forall x :: x in queue <==> x in old(queue) && x != t
      ensures busy == old(busy) && queueId == old(queueId)
    {
      RemoveFirstFromIncreasing(queue, t);
      if t in queue {
        RemoveFirstIsSplice(queue, t);
        queue := RemoveFirst(queue, t);
        st := Ok;
      } else {
        RemoveFirstAbsent(queue, t);
        st := Throws(ValueError);
      }
    }

    /** acquire_gpu: set the lock; the ticket is only logged. */
    method AcquireGpu(me: int)
      requires Valid()
      modifies this
      ensures Valid()
      ensures busy
      ensures queue == old(queue) && queueId == old(queueId)
    {
      busy := true;
    }

    /** release_gpu: retire the ticket, then clear the lock. When the ticket
        is absent the removal raises first and the lock stays as it was. */
    method ReleaseGpu(me: int) returns (st: Status)
      requires Valid()
      modifies this
      ensures Valid()
      ensures st == if me in old(queue) then Ok else Throws(ValueError)
      ensures queue == RemoveFirst(old(queue), me)
      ensures forall x :: x in queue <==> x in old(queue) && x != me
      ensures busy == (old(busy) && me !in old(queue))
      ensures queueId == old(queueId)
    {
      st := RemoveFromQueue(me);
      if st == Ok {
        busy := false;
      }
    }

    /** One step of another caller, made while this caller sleeps. */
    method Interfere(s: Step)
      requires Valid()
      modifies this
      ensures Valid()
      ensures forall x | x in old(queue) && !Retires(s, x) :: x in queue
      ensures s.Idle? ==> busy == old(busy) && queue == old(queue) && queueId == old(queueId)
      ensures s.OtherArrives? ==>
        queueId == old(queueId) + 1 && queue == old(queue) + [queueId] && busy == old(busy)
      ensures s.OtherAcquires? ==> busy && queue == old(queue) && queueId == old(queueId)
      ensures s.OtherReleases? ==>
        queue == RemoveFirst(old(queue), s.ticket) && queueId == old(queueId) &&
        busy == (old(busy) && s.ticket !in old(queue))
      ensures s.OtherLeaves? ==>
        queue == RemoveFirst(old(queue), s.ticket) && queueId == old(queueId) && busy == old(busy)
    {
      match s
      case Idle =>
      case OtherArrives =>
        var t := GetQueueId();
      case OtherAcquires =>
        AcquireGpu(queueId);
      case OtherReleases(t) =>
        var st := ReleaseGpu(t);
      case OtherLeaves(t) =>
        var st := RemoveFromQueue(t);
    }

    /** The wait loop of `forecast` (lines 55-64): poll until the lock is free
        and `me` heads the queue. Other callers act during each poll's sleep,
        as `env` says (one step per poll). After 3600 polls the loop builds a
        "GPU Busy!" message and drops it: there is no exit but the guard.
        `StillWaiting` means the loop had not ended when `env` ran out. */
    method WaitTurn(me: int, env: seq<Step>) returns (w: Wait)
      requires Valid() && me in queue
      requires forall k | 0 <= k < |env| :: !Retires(env[k], me)
      modifies this
      ensures Valid() && me in queue
      ensures w.Granted? ==> Ready(me) && w.polls <= |env|
      ensures w.StillWaiting? ==> !Ready(me) && w.polls == |env|
      ensures w.Granted? ==> forall i | 0 <= i < |queue| :: me <= queue[i]
      ensures AllIdle(env) ==>
        busy == old(busy) && queue == old(queue) && queueId == old(queueId) &&
        w == if old(Ready(me)) then Granted(0) else StillWaiting(|env|)
    {
      var count := 0;
      while busy || queue[0] != me
        invariant Valid() && me in queue
        invariant 0 <= count <= |env|
        invariant AllIdle(env) ==> busy == old(busy) && queue == old(queue) && queueId == old(queueId)
        invariant AllIdle(env) && count > 0 ==> !old(Ready(me))
        decreases |env| - count
      {
        if count == |env| {
          return StillWaiting(count);
        }
        // time.sleep(1): the other callers act
        Interfere(env[count]);
        count := count + 1;
        if count > 60 * 60 {
          // lines 61-64: the message is built and discarded; the loop goes on
          var discarded := BusyOutput;
        }
      }
      HeadIsOldest(queue);
      w := Granted(count);
    }

    /** The `except` clause of `forecast` (lines 118-123): the head of the
        queue releases the lock, any other caller only retires its ticket.
        Reading the head of an empty queue raises IndexError. */
    method Cleanup(me: int) returns (st: Status)
      requires Valid()
      modifies this
      ensures Valid() && queueId == old(queueId)
      ensures old(queue) == [] ==> st == Throws(IndexError) && queue == [] && busy == old(busy)
      ensures old(queue) != [] && old(queue)[0] == me ==>
        st == Ok && queue == old(queue)[1..] && !busy
      ensures old(queue) != [] && old(queue)[0] != me ==>
        st == (if me in old(queue) then Ok else Throws(ValueError)) &&
        queue == RemoveFirst(old(queue), me) && busy == old(busy)
      ensures me !in old(queue) ==> queue == old(queue) && busy == old(busy)
    {
      if queue == [] {
        st := Throws(IndexError);
      } else if me == queue[0] {
        st := ReleaseGpu(me);
      } else {
        st := RemoveFromQueue(me);
      }
    }

    /** `forecast` from the moment the wait loop ends (lines 66-126): take the
        lock, run the computation, map its outcome to the reply. The success
        path releases; the error path returns with the lock still set and the
        ticket still queued; the no-result and exception paths reach the
        `except` clause, where the head releases and answers "Fail". An
        exception after the release reaches it with the ticket already gone,
        and the clause itself raises. */
    method Serve(me: int, outcome: Outcome) returns (call: Call)
      requires Valid() && Ready(me)
      modifies this
      ensures Valid() && queueId == old(queueId)
      ensures outcome.Success? ==>
        call == Returned(Reply(Output(outcome.lastSaxWord, outcome.forecastSaxLetter, outcome.positionInSaxInterval), OK, None)) &&
        queue == old(queue)[1..] && !busy
      ensures outcome.ErrorResult? ==>
        call == Returned(Reply(EmptyOutput, INTERNAL, Some(outcome.message))) && queue == old(queue) && busy
      ensures outcome.NoResult? || outcome.Raised? ==>
        call == Returned(Reply(FailOutput, OK, None)) && queue == old(queue)[1..] && !busy
      ensures outcome.RaisedAfterRelease? ==>
        call == Escaped(if queue == [] then IndexError else ValueError) &&
        queue == old(queue)[1..] && !busy
    {
      HeadIsOldest(queue);
      AcquireGpu(me);
      match outcome
      case NoResult =>
        // context.set_details(None) raises before the status code is set
        var st := Cleanup(me);
        call := Returned(Reply(FailOutput, OK, None));
      case ErrorResult(msg) =>
        call := Returned(Reply(EmptyOutput, INTERNAL, Some(msg)));
      case Success(word, letter, pos) =>
        // the ticket heads the queue, so this removal cannot raise
        var st := ReleaseGpu(me);
        call := Returned(Reply(Output(word, letter, pos), OK, None));
      case Raised =>
        var st := Cleanup(me);
        call := Returned(Reply(FailOutput, OK, None));
      case RaisedAfterRelease =>
        var released := ReleaseGpu(me);
        var st := Cleanup(me);
        call := Escaped(st.error);
    }

    /** `ForecastServicer.forecast` as written (lines 51-126): take a ticket,
        wait for the turn, serve. `me` is the caller's ticket. */
    method Forecast(outcome: Outcome, env: seq<Step>) returns (me: int, call: Call)
      requires Valid()
      requires forall k | 0 <= k < |env| :: !Retires(env[k], queueId + 1)
      modifies this
      ensures Valid()
      ensures me == old(queueId) + 1 && me <= queueId
      ensures call.Spinning? ==> me in queue
      ensures !call.Spinning? && outcome.Success? ==>
        call == Returned(Reply(Output(outcome.lastSaxWord, outcome.forecastSaxLetter, outcome.positionInSaxInterval), OK, None)) &&
        me !in queue && !busy
      ensures !call.Spinning? && outcome.ErrorResult? ==>
        call == Returned(Reply(EmptyOutput, INTERNAL, Some(outcome.message))) && me in queue && busy
      ensures !call.Spinning? && (outcome.NoResult? || outcome.Raised?) ==>
        call == Returned(Reply(FailOutput, OK, None)) && me !in queue && !busy
      ensures !call.Spinning? && outcome.RaisedAfterRelease? ==>
        call == Escaped(if queue == [] then IndexError else ValueError) && me !in queue && !busy
      ensures AllIdle(env) ==> (!call.Spinning? <==> !old(busy) && old(queue) == [])
      ensures AllIdle(env) ==> queueId == old(queueId) + 1
      ensures AllIdle(env) && call.Spinning? ==> queue == old(queue) + [me] && busy == old(busy)
      ensures AllIdle(env) && !call.Spinning? ==>
        queue == if outcome.ErrorResult? then [me] else []
    {
      me := GetQueueId();
      var w := WaitTurn(me, env);
      if w.StillWaiting? {
        call := Spinning;
      } else {
        ghost var q := queue;
        HeadIsOldest(q);
        call := Serve(me, outcome);
      }
    }

    /** `forecast` with the two evident omissions repaired: after 3600 polls
        the call retires its ticket and returns the "GPU Busy!" message, and
        the error path releases the lock before returning. */
    method ForecastCorrected(outcome: Outcome, env: seq<Step>) returns (me: int, call: Call, timedOut: bool)
      requires Valid()
      requires forall k | 0 <= k < |env| :: !Retires(env[k], queueId + 1)
      modifies this
      ensures Valid()
      ensures me == old(queueId) + 1 && me <= queueId
      ensures call.Spinning? ==> !timedOut && |env| <= 60 * 60 && me in queue
      ensures 60 * 60 < |env| ==> !call.Spinning?
      ensures !call.Spinning? ==> me !in queue
      ensures timedOut ==> call == Returned(TimedOutReply)
      ensures !call.Spinning? && !timedOut ==> !busy
      ensures !call.Spinning? && !timedOut && outcome.Success? ==>
        call == Returned(Reply(Output(outcome.lastSaxWord, outcome.forecastSaxLetter, outcome.positionInSaxInterval), OK, None))
      ensures !call.Spinning? && !timedOut && outcome.ErrorResult? ==>
        call == Returned(Reply(EmptyOutput, INTERNAL, Some(outcome.message)))
      ensures !call.Spinning? && !timedOut && (outcome.NoResult? || outcome.Raised?) ==>
        call == Returned(Reply(FailOutput, OK, None))
      ensures !call.Spinning? && !timedOut && outcome.RaisedAfterRelease? ==>
        call == Escaped(if queue == [] then IndexError else ValueError)
      ensures AllIdle(env) ==>
        (!call.Spinning? && !timedOut <==> !old(busy) && old(queue) == []) &&
        (timedOut <==> (old(busy) || old(queue) != []) && 60 * 60 < |env|) &&
        queue == (if call.Spinning? then old(queue) + [me] else old(queue)) &&
        busy == (if !call.Spinning? && !timedOut then false else old(busy))
    {
      me := GetQueueId();
      var w := WaitTurn(me, if |env| <= 60 * 60 then env else env[..60 * 60]);
      timedOut := false;
      if w.Granted? {
        ghost var q := queue;
        HeadIsOldest(q);
        call := Serve(me, outcome);
        if outcome.ErrorResult? {
          var st := ReleaseGpu(me);
        }
      } else if |env| <= 60 * 60 {
        call := Spinning;
      } else {
        // the 3601st sleep, after which the count exceeds 3600
        Interfere(env[60 * 60]);
        var st := RemoveFromQueue(me);
        RemoveLastAppended(old(queue), me);
        call, timedOut := Returned(TimedOutReply), true;
      }
    }
  }
}
