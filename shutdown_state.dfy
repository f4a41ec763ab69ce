/**
 The exit-sequence state of the pet application as the object the application
 shares: two boolean fields updated in place. Each method is tied to the
 corresponding function of `ShutdownSpec`, so everything proved there about
 sequences of calls holds of this object.
 */
module Shutdown {
  import opened ShutdownSpec

  class ShutdownState {
    /** Whether the exit sequence has been entered (the re-entry guard). */
    var started: bool
    /** Whether the front end has acknowledged that its cleanup is finished. */
    var acked: bool

    /** The abstract value of the object. */
    ghost function State(): Flags
      reads this
    {
      Flags(started, acked)
    }

    /** The defaulted state: neither started nor acknowledged. */
    constructor ()
      ensures State() == Initial
      ensures !started && !acked
    {
      started := false;
      acked := false;
    }

    /**
     Tries to enter the exit sequence. The swap on `started` reads the old value
     and stores true; a caller who finds it already set is refused before the
     acknowledgment is touched.
     */
    method TryBeginShutdown() returns (began: bool)
      modifies this
      ensures (State(), began) == TryBegin(old(State()))
      ensures began <==> !old(started)
      ensures started
      ensures began ==> !acked
      ensures !began ==> acked == old(acked)
    {
      var wasStarted := started;
      started := true;
      if wasStarted {
        return false;
      }
      acked := false;
      return true;
    }

    /** Records that the front end has finished its cleanup. */
    method MarkAcked()
      modifies this`acked
      ensures State() == MarkAck(old(State()))
      ensures acked
      ensures started == old(started)
    {
      acked := true;
    }

    /** Reports whether the acknowledgment has been received, changing nothing. */
    method IsAcked() returns (r: bool)
      ensures r == State().acked
    {
      r := acked;
    }
  }
}
