# FIFO admission control for one exclusive GPU

The forecast service runs each forecast on one exclusive GPU. Callers are
admitted in arrival order. Three module globals hold the shared state:

- `GPU_QUEUE`: a list of outstanding tickets.
- `GPU_QUEUE_ID`: the last ticket issued, -1 at start.
- `GPU_DEVICE_BUSY`: the device lock.

`get_gpu_queue_id` issues a ticket and `remove_from_queue` retires one.
`acquire_gpu` sets the lock. `release_gpu` retires the ticket and then
clears the lock. `ForecastServicer.forecast`:

1. takes a ticket;
2. polls until the lock is free and its ticket heads the queue;
3. takes the lock;
4. runs the forecast in a child process;
5. maps the result to an `Output` reply;
6. cleans up in an `except` clause.

The model has three modules:

- `Tickets` (`tickets.dfy`): the list operations on the queue, stated on
  sequences. `RemoveFirst` is Python's `list.remove`. The lemmas prove what
  removal keeps and what it drops.
- `Admission` (`admission.dfy`): the class `GpuAdmission`. Its fields model
  the three globals, and its methods model the four functions and `forecast`.
  The object invariant `Valid()` says the queue is strictly increasing (so no
  ticket occurs twice) and that no queued ticket exceeds `queueId`. Every
  method keeps it.
  The computation is an input `Outcome`: `Success(word, letter, position)`,
  `ErrorResult(message)`, `NoResult`, `Raised` (an exception before the
  release) or `RaisedAfterRelease` (building the reply raises after
  `release_gpu`).
  Other callers act while a caller sleeps in its wait loop. Their actions are
  an input `env: seq<Step>`, one step per poll. Each step is a registry or
  lock operation on another caller's ticket.
  When `env` runs out and the guard still holds, the call is `Spinning`: it
  has not returned. A call whose `except` clause itself raises ends as
  `Escaped(error)`.
- `Scenarios` (`scenarios.dfy`): concrete runs on a fresh state. Each has a
  postcondition stating what the callers observe.

The model follows the code as written, including where it departs from what
a FIFO lock is expected to do:

- Releasing twice raises `ValueError`. It is not idempotent.
- After 3600 polls the loop builds a "GPU Busy!" message and keeps
  polling. There is no timeout exit.
- The error-message path returns without releasing the lock or retiring
  the ticket.
- An exception after `release_gpu` makes the `except` clause itself raise.

The second and third are listed under Findings. `ForecastCorrected` repairs
both.

## Model

| member | source | states |
|---|---|---|
| `Tickets.FirstIndex` | generic/cntk-lstm-forecast/service/time_series_forecast_service.py:140 | the index `list.remove` deletes holds the ticket, and no earlier position does |
| `Tickets.RemoveFirst` | generic/cntk-lstm-forecast/service/time_series_forecast_service.py:140 | `list.remove` on the queue; its meaning is stated by the four `RemoveFirst…` lemmas below (splice at the first occurrence, absent value, multiset, increasing queue) |
| `Tickets.RemoveFirstIsSplice` | generic/cntk-lstm-forecast/service/time_series_forecast_service.py:138-140 | removing a queued ticket cuts out exactly its first position; the tickets before and after it keep their relative order |
| `Tickets.RemoveFirstAbsent` | generic/cntk-lstm-forecast/service/time_series_forecast_service.py:140 | removing an absent ticket leaves the queue unchanged |
| `Tickets.RemoveFirstMultiset` | generic/cntk-lstm-forecast/service/time_series_forecast_service.py:140 | removal drops one copy of the ticket and nothing else |
| `Tickets.RemoveFirstFromIncreasing` | generic/cntk-lstm-forecast/service/time_series_forecast_service.py:138-140 | on a strictly increasing queue, removal keeps it strictly increasing; afterwards a ticket is queued iff it was queued before and is not the removed one |
| `Tickets.AppendKeepsIncreasing` | generic/cntk-lstm-forecast/service/time_series_forecast_service.py:132-133 | appending the new counter value keeps the queue strictly increasing and bounded by the counter; the new ticket was not already queued |
| `Tickets.HeadIsOldest` | generic/cntk-lstm-forecast/service/time_series_forecast_service.py:56 | the head of an increasing queue is its smallest ticket and does not occur again behind it |
| `Tickets.RemoveLastAppended` | generic/cntk-lstm-forecast/service/time_series_forecast_service.py:129-140 | retiring a ticket that was just issued restores the queue as it was before |
| `Admission.GpuAdmission.Ready` | generic/cntk-lstm-forecast/service/time_series_forecast_service.py:56 | the negated loop guard: lock free and the caller heads the queue; on an increasing queue no earlier ticket is then queued |
| `Admission.GpuAdmission.constructor` | generic/cntk-lstm-forecast/service/time_series_forecast_service.py:20-22 | initial state: lock free, queue empty, counter -1; the invariant holds |
| `Admission.GpuAdmission.GetQueueId` | generic/cntk-lstm-forecast/service/time_series_forecast_service.py:129-135 | the counter goes up by one; the new value is returned and appended at the tail; it was not already queued; the lock is unchanged; the invariant is kept |
| `Admission.GpuAdmission.RemoveFromQueue` | generic/cntk-lstm-forecast/service/time_series_forecast_service.py:138-140 | a queued ticket is cut out of its position and the others keep their order; an absent ticket raises ValueError and changes nothing; lock and counter unchanged |
| `Admission.GpuAdmission.AcquireGpu` | generic/cntk-lstm-forecast/service/time_series_forecast_service.py:143-147 | the lock is set; queue and counter are unchanged |
| `Admission.GpuAdmission.ReleaseGpu` | generic/cntk-lstm-forecast/service/time_series_forecast_service.py:150-155 | a queued ticket is retired and then the lock is cleared; for an absent ticket the removal raises ValueError first and the lock keeps its value |
| `Admission.GpuAdmission.Interfere` | generic/cntk-lstm-forecast/service/time_series_forecast_service.py:129-155 | the effect of one other caller's operation during a sleep; it removes no ticket except the one it names |
| `Admission.GpuAdmission.WaitTurn` | generic/cntk-lstm-forecast/service/time_series_forecast_service.py:55-64 | the loop ends only when the lock is free and the caller heads the queue; no earlier ticket is then queued; the 3600-poll branch does not exit; with no other activity the state is unchanged and the loop ends at once or not at all |
| `Admission.GpuAdmission.Cleanup` | generic/cntk-lstm-forecast/service/time_series_forecast_service.py:118-123 | the queue head releases (ticket retired, lock cleared); another caller only removes its ticket and leaves the lock as it was; an empty queue raises IndexError |
| `Admission.GpuAdmission.Serve` | generic/cntk-lstm-forecast/service/time_series_forecast_service.py:66-126 | the lock is taken first. Success: the reply copies the three result fields, the ticket is retired and the lock cleared. Error message: empty `Output`, INTERNAL, the message as details, ticket still queued and lock still set. No result or exception before the release: the `except` clause releases and the reply is "Fail"/"Fail"/-1. Exception after the release: ticket retired, lock cleared, and the `except` clause raises IndexError (queue empty) or ValueError (someone queued behind) |
| `Admission.GpuAdmission.Forecast` | generic/cntk-lstm-forecast/service/time_series_forecast_service.py:51-126 | the ticket is the old counter plus one. Per outcome, the same reply or escaping exception and end state as `Serve`. A call still waiting keeps its ticket queued. With no other activity, the call ends iff the lock was free and the queue empty at entry, and only the error-message path leaves its ticket queued; otherwise it spins for any number of polls |
| `Admission.GpuAdmission.ForecastCorrected` | generic/cntk-lstm-forecast/service/time_series_forecast_service.py:51-126 | repaired: every call that ends has retired its ticket; a call that took the lock has released it; more than 3600 polls always end the call, with "GPU Busy!" on timeout |
| `Scenarios.FirstTickets` | generic/cntk-lstm-forecast/service/time_series_forecast_service.py:129-135 | the first two tickets issued are 0 and 1 |
| `Scenarios.ReleaseTwice` | generic/cntk-lstm-forecast/service/time_series_forecast_service.py:150-155 | two releases in a row: the second raises ValueError and the lock stays free |
| `Scenarios.ReleaseAfterReacquire` | generic/cntk-lstm-forecast/service/time_series_forecast_service.py:150-155 | a second release after the lock was set again raises ValueError before clearing the lock, which stays set |
| `Scenarios.ThreeCallsInOrder` | generic/cntk-lstm-forecast/service/time_series_forecast_service.py:56-67 | three calls T1, T2, T3: T2 waits while T1 holds the lock; after T1 releases, T3 is still refused and T2 is admitted |
| `Scenarios.FailureBehindHolder` | generic/cntk-lstm-forecast/service/time_series_forecast_service.py:118-123 | the `except` clause, called directly (not through `forecast`) for a caller behind the holder, retires only that caller's ticket; the holder's ticket and lock stay. `forecast` itself reaches this branch only after its own release (`ExceptionAfterRelease`) |
| `Scenarios.NoResultFailsAndReleases` | generic/cntk-lstm-forecast/service/time_series_forecast_service.py:96-126 | a missing result answers "Fail" through the `except` clause and frees the lock, so the next call is served at once |
| `Scenarios.ExceptionAfterRelease` | generic/cntk-lstm-forecast/service/time_series_forecast_service.py:113-123 | an exception after the release escapes the call: IndexError when the queue is then empty, ValueError when a later caller is queued; the later caller's ticket stays and the lock is free |
| `Scenarios.ErrorResultStallsNextCall` | generic/cntk-lstm-forecast/service/time_series_forecast_service.py:96-102 | after an error result (INTERNAL reply), the next call is still spinning after 3601 polls |
| `Scenarios.ErrorResultReleasedWhenCorrected` | generic/cntk-lstm-forecast/service/time_series_forecast_service.py:96-102 | with the repair, the call after an error result is served at once |
| `Scenarios.LongHolderNoTimeout` | generic/cntk-lstm-forecast/service/time_series_forecast_service.py:55-64 | while another call holds the lock, a waiter passes 3600 polls and keeps spinning with its ticket queued |
| `Scenarios.LongHolderTimesOutWhenCorrected` | generic/cntk-lstm-forecast/service/time_series_forecast_service.py:55-64 | with the repair, the waiter gets "GPU Busy!" after 3601 polls; its ticket is retired and the holder keeps the lock |

## Left out

- The gRPC server, `serve`, servicer registration and the `__main__` loop
  (lines 166-179): these are transport and process start-up.
- `multiprocessing.Manager`, `Process`, `mp_forecast` and `Forecast`
  (lines 25-26, 81-94): these are foreign calls. Only their outcome is
  modelled, as the input `Outcome`.
- `time.sleep`, `log.debug` or `log.error`, and logging every 60 polls: these
  are timing and logging only. A sleep is the point where other callers act.
- Real thread parallelism and the check-then-act race between the loop guard
  and `acquire_gpu`: calls are modelled sequentially. Other callers act only
  at the wait loop's sleeps, not during the computation.
- Copying the request fields into the servicer (lines 70-79): this is plain
  assignment with no other behaviour.
- `position_in_sax_interval`: a float, modelled as a `real` that is copied
  but never computed with.
- Exceptions that cannot be raised in this model:
  - the `IndexError` from `GPU_QUEUE[0]`, because the caller's own ticket is
    always queued while it waits;
  - the `ValueError` from `release_gpu` on the success path, because the
    ticket still heads the queue there.
  The model therefore has no branch for either.
- Admission.GpuAdmission.Interfere: its steps may set the lock for any
  caller, not only the queue head, which the source does not do. On the
  other hand it allows only one other-caller operation per poll, while one
  `time.sleep(1)` can span several; that difference only changes how many
  polls a wait takes.
- Admission.GpuAdmission.Serve: on a missing result, line 98 sets the error
  message to None and line 100 passes it to `context.set_details`. The model
  assumes this raises, because grpcio's servicer context encodes the
  details as a string. The call then goes to the `except` clause: the lock
  is released, the reply is "Fail", and no INTERNAL code is set. grpcio is
  not part of this model.

## Findings

| source | as written | input that shows it | evidently intended | confidence | as-written member | corrected member |
|---|---|---|---|---|---|---|
| generic/cntk-lstm-forecast/service/time_series_forecast_service.py:61-64 | after 3600 polls the `Output("GPU Busy!", …)` is built and discarded; the loop keeps polling | another call holds the GPU, and the waiter polls 3601 times with no other activity | return the "GPU Busy!" reply and retire the ticket | high; not executed | `Scenarios.LongHolderNoTimeout` | `Admission.GpuAdmission.ForecastCorrected` |
| generic/cntk-lstm-forecast/service/time_series_forecast_service.py:97-102 | a result carrying an error message returns INTERNAL with the lock set and the ticket queued, so every later call waits forever | one call whose result is `{"error": "no data"}`, then any other call | release the GPU (retire the ticket, clear the lock) before returning | high; not executed | `Scenarios.ErrorResultStallsNextCall` | `Admission.GpuAdmission.ForecastCorrected` |
