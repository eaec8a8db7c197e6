/** The wall clock of the backend.  Go's time.Now() carries a monotonic reading, so successive
    readings never go backwards; nothing else about them is known. */
module Clock {

  class Clock {
    var now: int  // the latest instant that anybody has observed

    constructor ()
    {
      now := 0;
    }

    /** Reads the clock: any instant that is not earlier than the previous reading. */
    method Now() returns (t: int)
      modifies this
      ensures old(now) <= t == now
    {
      t :| now <= t;
      now := t;
    }
  }
}
