/**
 The unit tests that accompany the exit-sequence state, as methods whose
 postconditions are the tests' assertions, proved from the contracts of
 `Shutdown.ShutdownState` alone.
 */
module ShutdownTests {
  import opened Shutdown

  /** Beginning twice on a defaulted state: the first call wins, the second is refused. */
  method BeginIsIdempotent() returns (first: bool, second: bool)
    ensures first
    ensures !second
  {
    var state := new ShutdownState();
    first := state.TryBeginShutdown();
    second := state.TryBeginShutdown();
  }

  /** A defaulted state is not acknowledged; marking it makes it so. */
  method MarkAckedSetsFlag() returns (before: bool, after: bool)
    ensures !before
    ensures after
  {
    var state := new ShutdownState();
    before := state.IsAcked();
    state.MarkAcked();
    after := state.IsAcked();
  }

  /** An acknowledgment recorded before the first begin is reset by it. */
  method FirstBeginResetsAck() returns (ackedBefore: bool, began: bool, ackedAfter: bool)
    ensures ackedBefore
    ensures began
    ensures !ackedAfter
  {
    var state := new ShutdownState();
    state.MarkAcked();
    ackedBefore := state.IsAcked();
    began := state.TryBeginShutdown();
    ackedAfter := state.IsAcked();
  }
}
