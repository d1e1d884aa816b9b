/**
 * What the shell does for one component: the requests it runs, the answers waiting in the queue,
 * and the component's one named timer. Starting a timer replaces the running one; an expiry
 * already in the queue stays there.
 */
module Wake {
  import opened Basics

  datatype Pending<+Op, +Answer> = Running(op: Op) | Answered(answer: Answer)

  /** `rung` holds expiries in the queue and `next` the next timer identity. */
  datatype Env<Op, Answer> = Env(ops: seq<Pending<Op, Answer>>, timer: Option<nat>, rung: set<nat>, next: nat)

  function Idle<Op, Answer>(): Env<Op, Answer> {
    Env([], None, {}, 0)
  }

  function Launch<Op, Answer>(env: Env<Op, Answer>, op: Op): Env<Op, Answer> {
    env.(ops := env.ops + [Running(op)])
  }

  /** The component schedules a timer: it takes the next identity. */
  function Arm<Op, Answer>(env: Env<Op, Answer>): Env<Op, Answer> {
    env.(timer := Some(env.next), next := env.next + 1)
  }

  function Ring<Op, Answer>(env: Env<Op, Answer>): Env<Op, Answer> {
    match env.timer
    case None => env
    case Some(id) => env.(timer := None, rung := env.rung + {id})
  }

  /** Other components take identities too. */
  function Spend<Op, Answer>(env: Env<Op, Answer>, ids: nat): Env<Op, Answer> {
    env.(next := env.next + ids)
  }

  /** Request `i` finishes; its answer waits in the queue. */
  function Finish<Op, Answer>(env: Env<Op, Answer>, i: nat, answer: Answer): Env<Op, Answer>
    requires i < |env.ops|
  {
    env.(ops := env.ops[i := Answered(answer)])
  }

  function Taken<Op, Answer>(env: Env<Op, Answer>, i: nat): Env<Op, Answer>
    requires i < |env.ops|
  {
    env.(ops := env.ops[..i] + env.ops[i + 1..])
  }

  function Heard<Op, Answer>(env: Env<Op, Answer>, id: nat): Env<Op, Answer> {
    env.(rung := env.rung - {id})
  }

  ghost predicate KnownIds<Op, Answer>(env: Env<Op, Answer>) {
    && (env.timer.Some? ==> env.timer.value < env.next && env.timer.value !in env.rung)
    && forall id :: id in env.rung ==> id < env.next
  }

  /** This timer wakes the component: it runs, or its expiry is queued. */
  predicate Rings<Op, Answer>(env: Env<Op, Answer>, id: nat) {
    env.timer == Some(id) || id in env.rung
  }
}
