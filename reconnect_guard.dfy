/**
 * The reconnect guard of `SocketClient`: the attempt counter, the lock flag
 * and the number of reconnect timeouts the host still holds, and how the
 * client's events move them.
 */
module ReconnectGuard {
  const MaxReconnectAttempts: nat := 5

  datatype Guard = Guard(attempts: nat, locked: bool, pending: nat)

  /**
   * The attempt counter stays within its maximum, at most one reconnect
   * timeout is pending, and the lock is held exactly while one is.
   */
  predicate Valid(g: Guard)
  {
    g.attempts <= MaxReconnectAttempts && g.pending <= 1 && (g.locked <==> g.pending == 1)
  }

  /** The events that touch the guard. */
  datatype Event =
    | Failure     // `reconnect()`: from `onError`, `close(true)` and the heartbeat timeout
    | TimerFired  // the pending reconnect timeout runs: unlock, then `connect()`
    | Opened      // `onOpen`

  /** `reconnect()`. */
  function Request(g: Guard): (r: Guard)
    ensures g.attempts >= MaxReconnectAttempts ==> r == g
    ensures g.locked ==> r == g
    ensures g.attempts < MaxReconnectAttempts && !g.locked ==> r == Guard(g.attempts + 1, true, g.pending + 1)
    ensures Valid(g) ==> Valid(r)
  {
    if g.attempts >= MaxReconnectAttempts then g
    else if g.locked then g
    else Guard(g.attempts + 1, true, g.pending + 1)
  }

  function Step(g: Guard, e: Event): (r: Guard)
    ensures e != Opened ==> r.attempts >= g.attempts
    ensures Valid(g) ==> Valid(r)
  {
    match e
    case Failure => Request(g)
    case TimerFired => if g.pending == 0 then g else Guard(g.attempts, false, g.pending - 1)
    case Opened => g.(attempts := 0)
  }

  function Run(g: Guard, es: seq<Event>): Guard
    decreases |es|
  {
    if es == [] then g else Run(Step(g, es[0]), es[1..])
  }

  /** How many reconnect timeouts a run of events schedules. */
  function Scheduled(g: Guard, es: seq<Event>): nat
    decreases |es|
  {
    if es == [] then 0
    else (if Step(g, es[0]).pending > g.pending then 1 else 0) + Scheduled(Step(g, es[0]), es[1..])
  }

  /**
   * Whatever order error, close, timeout and open events arrive in, the guard
   * stays valid: never two reconnect timeouts at once, never more attempts
   * than the maximum.
   */
  lemma {:induction false} RunPreservesValid(g: Guard, es: seq<Event>)
    requires Valid(g)
    ensures Valid(Run(g, es))
    decreases |es|
  {
    if es != [] {
      RunPreservesValid(Step(g, es[0]), es[1..]);
    }
  }

  /**
   * Without a successful open, every scheduled timeout is paid for by one
   * attempt, so a run schedules at most `MaxReconnectAttempts - attempts`
   * timeouts and the counter never goes down.
   */
  lemma {:induction false} SchedulesBounded(g: Guard, es: seq<Event>)
    requires Valid(g)
    requires Opened !in es
    ensures Run(g, es).attempts == g.attempts + Scheduled(g, es)
    ensures g.attempts + Scheduled(g, es) <= MaxReconnectAttempts
    decreases |es|
  {
    if es != [] {
      assert es == [es[0]] + es[1..];
      SchedulesBounded(Step(g, es[0]), es[1..]);
    }
  }

  /**
   * Once the maximum is reached nothing is scheduled again until the next
   * successful open; `connect()` alone does not reset the counter.
   */
  lemma ExhaustionPersists(g: Guard, es: seq<Event>)
    requires Valid(g) && g.attempts == MaxReconnectAttempts
    requires Opened !in es
    ensures Scheduled(g, es) == 0
    ensures Run(g, es).attempts == MaxReconnectAttempts
  {
    SchedulesBounded(g, es);
  }

  /**
   * Any burst of failures (an error and a close for the same dead socket, a
   * repeated `close(true)`) schedules at most one reconnect timeout.
   */
  lemma {:induction false} FailuresScheduleOnce(g: Guard, es: seq<Event>)
    requires Valid(g)
    requires forall i :: 0 <= i < |es| ==> es[i] == Failure
    ensures Scheduled(g, es) <= 1
    ensures Scheduled(g, es) == 1 ==> Run(g, es).locked
    ensures es != [] && g.attempts < MaxReconnectAttempts && !g.locked ==> Scheduled(g, es) == 1
    decreases |es|
  {
    if es != [] {
      var h := Step(g, es[0]);
      if h == g {
        FailuresScheduleOnce(h, es[1..]);
      } else {
        LockedFailuresAreIdle(h, es[1..]);
      }
    }
  }

  /** While the lock is held, failures change nothing. */
  lemma {:induction false} LockedFailuresAreIdle(g: Guard, es: seq<Event>)
    requires g.locked
    requires forall i :: 0 <= i < |es| ==> es[i] == Failure
    ensures Scheduled(g, es) == 0
    ensures Run(g, es) == g
    decreases |es|
  {
    if es != [] {
      LockedFailuresAreIdle(Step(g, es[0]), es[1..]);
    }
  }
}
