/** Timer identities: each scheduled instance has its own, so an obsolete expiry is recognised. */
module Timer {
  import opened Basics

  /** When a timer rings: the monotonic instant and the delay it stands for. */
  datatype Deadline = Deadline(at: Time, after: Time)

  class Timers {
    var next: nat

    constructor ()
      ensures next == 0
    {
      next := 0;
    }

    /** Identities are given in order and never again, so the new one differs from every one given before. */
    method Schedule(now: Time, after: Time) returns (id: nat, deadline: Deadline)
      modifies this
      ensures id == old(next) && next == old(next) + 1
      ensures deadline == Deadline(now + after, after)
    {
      id := next;
      next := next + 1;
      deadline := Deadline(now + after, after);
    }
  }
}
