# Concurrent traffic light, sequential core

A traffic light toggles between red and green on a randomised timer and
publishes each new phase into a message queue; callers wait on that queue
until they receive green. This project models the sequential core of
`src/TrafficLight.cpp`:

- `MessageQueue<T>` (module `MessageQueues`): a class whose `queue` field is
  the vector the source pushes onto and pops from the back. `Send` appends,
  `Receive` takes the last element, so delivery is last-in, first-out. The
  condition-variable wait becomes the precondition "queue non-empty".
- `TrafficLight` (module `TrafficLights`): a class holding the current phase,
  the cycling loop's accumulated waiting time and dwell duration, and its
  `MessageQueue<Phase>`. `Step` is one iteration of `cycleThroughPhases` with
  the clock's advance and the random draw as inputs; `Cycle` runs the loop
  over a finite sequence of such readings; `WaitForGreen` receives until it
  receives green. The value-level functions `Next`, `Sent`, `Run` and
  `RunSent` specify the loop, and the lemmas about them state alternation,
  the dwell bounds and the resting invariant.

The loop locals `waiting_time` and `phase_duration` of `cycleThroughPhases`
are fields of the light here, initialised by the constructor (the first
random draw is a constructor argument). `TrafficLight.h` is not part of this
model; the queue is taken to be a vector, as the "remove last vector element"
comment in `receive` says.

## Model

| member | source | states |
|---|---|---|
| MessageQueues.MessageQueue.Send | src/TrafficLight.cpp:23-32 | the message is appended at the back: one more element, every earlier element unchanged and in place |
| MessageQueues.MessageQueue.Receive | src/TrafficLight.cpp:7-21 | callable only on a non-empty queue; returns the most recently sent element and removes exactly it, leaving the prefix unchanged |
| MessageQueues.Reverse | src/TrafficLight.cpp:17-18 | the order a stack returns its contents: element i of the result is element n-1-i of the input |
| MessageQueues.ReceiveMany | src/TrafficLight.cpp:17-18 | n receives in a row take n elements, and the pending sequence is what is left followed by the received ones in reverse |
| MessageQueues.SendAllReceiveAll | src/TrafficLight.cpp:17-30 | from any queue, sending vs then receiving |vs| times returns vs backwards and leaves the queue as it began |
| MessageQueues.ReceiveManyStep | src/TrafficLight.cpp:17-18 | the (i+1)-th receive in a row takes the element at position |s|-1-i |
| MessageQueues.ReceiveN | src/TrafficLight.cpp:7-21 | n calls of Receive on one queue return and leave exactly what ReceiveMany describes |
| MessageQueues.SendAllThenReceiveAll | src/TrafficLight.cpp:7-32 | sending any vs with Send and then calling Receive |vs| times returns vs reversed and restores the queue, whatever was pending |
| MessageQueues.SendThreeReceiveThree | src/TrafficLight.cpp:7-32 | send v1, v2, v3 then three receives yield v3, v2, v1 and restore the queue |
| TrafficLights.Toggle | src/TrafficLight.cpp:86-95 | the new phase always differs from the old one (red to green, green to red) |
| TrafficLights.Next | src/TrafficLight.cpp:80-98 | the phase changes exactly when the accumulated time reaches the dwell duration; with draws in 4000..6000 the accumulator stays below a duration in that range |
| TrafficLights.Sent | src/TrafficLight.cpp:84-95 | an iteration sends something exactly when the phase changes, and what it sends is the new phase, once |
| TrafficLights.RunAlternates | src/TrafficLight.cpp:78-102 | over any finite run the values sent alternate, starting with the phase after the initial one, and the light ends in the last phase sent |
| TrafficLights.FirstSentIsGreen | src/TrafficLight.cpp:38-95 | a light that starts red (as constructed) sends green first |
| TrafficLights.RunKeepsResting | src/TrafficLight.cpp:75-97 | between iterations the dwell duration stays in 4000..6000 ms and the accumulated time below it |
| TrafficLights.RunDwell | src/TrafficLight.cpp:80-97 | a run that sends k phases has readings totalling at least 4000 * k ms (plus what had accumulated at its start) |
| TrafficLights.NoSendAccumulates | src/TrafficLight.cpp:80-84 | a run that sends nothing leaves phase and duration alone and only adds its total elapsed time to the accumulator |
| TrafficLights.UpperBound | src/TrafficLight.cpp:80-97 | from a resting light with in-range draws, every run whose readings total at least 6000 ms sends at least one phase |
| TrafficLights.DrainToGreen | src/TrafficLight.cpp:43-53 | for a queue holding a green: the result is the prefix before the last green, and everything after that green is red |
| TrafficLights.TrafficLight.constructor | src/TrafficLight.cpp:38-76 | a new light is red (lines 38-41), its queue empty, and the cycling loop's timer at zero with a first dwell duration in 4000..6000 ms (lines 75-76, moved into the constructor) |
| TrafficLights.TrafficLight.GetCurrentPhase | src/TrafficLight.cpp:55-58 | returns the stored phase and changes nothing |
| TrafficLights.TrafficLight.Step | src/TrafficLight.cpp:80-98 | below the duration only the accumulator grows (phase, duration, queue unchanged); at or past it the phase flips, exactly the new phase is sent, the accumulator resets to 0 and the new draw becomes the duration; the resting invariant is kept |
| TrafficLights.TrafficLight.Cycle | src/TrafficLight.cpp:75-102 | a finite run of loop iterations leaves the light in Run's state and appends exactly RunSent to the queue |
| TrafficLights.WaitForGreenCanReturnOnRed | src/TrafficLight.cpp:43-97 | a light that turns green and then red leaves [green, red] pending; waiting for green then discards the red, receives the older green and returns with the light red and the queue empty |
| TrafficLights.TrafficLight.WaitForGreen | src/TrafficLight.cpp:43-53 | given a green in the queue it terminates, removing exactly the suffix from the last green (inclusive); if the back is green only that element goes; the phase is untouched |

## Left out

- Threads and locking: `std::thread`, the mutex, `lock_guard`/`unique_lock`, `notify_one` and the blocking wait. Blocking becomes a precondition (`Receive`: non-empty queue; `WaitForGreen`: a green is pending), since a sequential model cannot block.
- `simulate` (line 64): it only launches `cycleThroughPhases` on a thread; the loop itself is `Cycle`/`Step`.
- The unsynchronised read of `_currentPhase` by one thread while another writes it: it only has meaning under concurrency.
- The clock (`high_resolution_clock::now`, `duration_cast`) and `sleep_for(1ms)`: `Reading.elapsed` is the per-iteration count after `duration_cast<milliseconds>` truncates `now - now_lastcycle`. Since line 82 then sets `now_lastcycle = now`, each iteration's sub-millisecond remainder is lost, so the accumulated time can lag the real clock by up to 1 ms per iteration. The model does not track that remainder.
- Negative clock differences: `high_resolution_clock` need not be steady, so `now - now_lastcycle` could be negative and lower `waiting_time`. `Reading.elapsed` is a `nat`, which rules that case out.
- The infinite loop: `Cycle` runs a finite number of iterations; properties of the endless loop are stated for every finite prefix.
- `rand()` and the float expression for the dwell duration: the draw is an input constrained to 4000..6000 inclusive (the truncating cast yields 6000 when `rand()` returns `RAND_MAX`); its distribution is not modelled.
- Console output and the `TrafficLight.h` header.
- WaitForGreen: does not promise that it returns only while the light is green, or only when the most recently sent phase was green. The source does not keep that promise. Delivery is last-in, first-out, so an older pending green is still delivered after a newer red has been received and discarded. `WaitForGreenCanReturnOnRed` shows such a run.
- RunDwell: states only the lower bound of the dwell interval. In accumulated milliseconds the upper bound is `UpperBound` (6000 ms of readings always bring a phase change). A wall-clock upper bound is not stated. It depends on how many iterations run, since each loses up to 1 ms to truncation, and on the 1 ms sleep and scheduling, none of which are modelled. The lower bound carries over to wall-clock time, because truncation only under-counts.
