# Exit-sequence state of the bird-pet desktop application

The desktop pet coordinates its exit through a small shared state object,
`ShutdownState`, with two flags:

- `shutdown_started` is a re-entry guard. The first request to begin shutting
  down wins, and every later request is refused.
- `shutdown_acked` records whether the front end has reported that its cleanup
  is finished.

The model has three modules, one per file:

- `ShutdownSpec` (`shutdown_spec.dfy`) states the flags as a value (`Flags`).
  It defines each operation as a function on that value and defines `Run`, which
  applies any sequence of operations. It then proves what holds over every such
  sequence: begin succeeds at most once, `started` never reverts, the first
  begin erases earlier acknowledgments, and a query reports the current flag.
- `Shutdown` (`shutdown_state.dfy`) is the object itself: a class with two
  `bool` fields whose methods update them in place. Each method's
  postcondition ties the new state to the matching `ShutdownSpec` function.
- `ShutdownTests` (`shutdown_tests.dfy`) restates the source's three unit tests
  as methods. Their postconditions are the tests' assertions, proved from the
  class contracts alone.

The atomic swap in `try_begin_shutdown` is modelled by its observable effect:
read the old value of `started`, then store true.

## Model

| member | source | states |
|---|---|---|
| `ShutdownSpec.TryBegin` | bird-pet/src-tauri/src/shutdown_state.rs:13-21 | begin succeeds exactly when not yet started; afterwards started is set; success clears the acknowledgment; a refused begin leaves both flags unchanged |
| `ShutdownSpec.MarkAck` | bird-pet/src-tauri/src/shutdown_state.rs:23-26 | afterwards the acknowledgment is set and started is unchanged |
| `ShutdownSpec.MarkAckIdempotent` | bird-pet/src-tauri/src/shutdown_state.rs:23-26 | marking the acknowledgment twice gives the same state as marking it once |
| `ShutdownSpec.Step` | bird-pet/src-tauri/src/shutdown_state.rs:12-31 | no operation clears started; a query changes nothing and reports the acknowledgment; mark sets it and keeps started; begin reports success exactly when not yet started |
| `ShutdownSpec.Run` | bird-pet/src-tauri/src/shutdown_state.rs:12-31 | a run of operations yields one outcome per operation, and the empty run leaves the state as it was |
| `ShutdownSpec.RunStarted` | bird-pet/src-tauri/src/shutdown_state.rs:15-31 | after any sequence of calls, started holds exactly when it held before or the sequence contains a begin, so nothing ever clears it |
| `ShutdownSpec.RunOutcomeAt` | bird-pet/src-tauri/src/shutdown_state.rs:12-31 | each call in a sequence returns what it returns on the state left by the calls before it |
| `ShutdownSpec.QueryReportsAck` | bird-pet/src-tauri/src/shutdown_state.rs:28-31 | the acknowledgment query in a sequence reports the flag as it stands at that point |
| `ShutdownSpec.BeginSucceedsAt` | bird-pet/src-tauri/src/shutdown_state.rs:13-21 | a begin in a sequence succeeds if and only if it is the first begin and the state was not started at the outset |
| `ShutdownSpec.BeginSucceedsAtMostOnce` | bird-pet/src-tauri/src/shutdown_state.rs:13-17 | over any sequence of calls, once a begin has succeeded no later begin succeeds |
| `ShutdownSpec.FirstBeginWins` | bird-pet/src-tauri/src/shutdown_state.rs:13-21 | from the defaulted state, a begin succeeds exactly when no begin precedes it |
| `ShutdownSpec.RunAckedWithoutReset` | bird-pet/src-tauri/src/shutdown_state.rs:15-26 | when no begin can succeed, the acknowledgment is set afterwards exactly when it was set before or some call marks it |
| `ShutdownSpec.RunAckedAfterFirstBegin` | bird-pet/src-tauri/src/shutdown_state.rs:15-26 | the first successful begin erases earlier acknowledgments: afterwards the flag is set exactly when a mark follows that begin |
| `Shutdown.ShutdownState.constructor` | bird-pet/src-tauri/src/shutdown_state.rs:6-10 | a defaulted state is neither started nor acknowledged |
| `Shutdown.ShutdownState.TryBeginShutdown` | bird-pet/src-tauri/src/shutdown_state.rs:15-21 | returns true exactly when started was clear before; started is then set; success clears the acknowledgment, while a refusal leaves it as it was |
| `Shutdown.ShutdownState.MarkAcked` | bird-pet/src-tauri/src/shutdown_state.rs:24-26 | sets the acknowledgment, leaves started unchanged, and may modify only the acknowledgment field |
| `Shutdown.ShutdownState.IsAcked` | bird-pet/src-tauri/src/shutdown_state.rs:29-31 | returns the current acknowledgment and modifies nothing |
| `ShutdownTests.BeginIsIdempotent` | bird-pet/src-tauri/src/shutdown_state.rs:38-43 | on a defaulted state the first begin returns true and the second returns false |
| `ShutdownTests.MarkAckedSetsFlag` | bird-pet/src-tauri/src/shutdown_state.rs:45-51 | a defaulted state is not acknowledged, and it is acknowledged after marking |
| `ShutdownTests.FirstBeginResetsAck` | bird-pet/src-tauri/src/shutdown_state.rs:53-60 | a mark before the first begin is seen, then the begin succeeds and the acknowledgment reads false |

## Left out

- Atomicity and memory ordering (`AtomicBool`, `Ordering::SeqCst`) are not modelled. Each method is modelled as plain sequential reads and writes, and interleavings between threads are not modelled. For example, a `mark_acked` by another thread could land between the swap and the ack store of `try_begin_shutdown`.
- `lib.rs` and `main.rs` are not modelled. They only register plugins with the Tauri framework and start it, and they have no logic of their own.
- The bubble notification queue, the window controller, the ready handshake and the timers are not part of this model. Their code is not among the source files modelled.
