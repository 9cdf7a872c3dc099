/**
 * The retry counter of `WebSocketClient`: the attempt counter and the number
 * of `connect()` timeouts the host still holds. Unlike `SocketClient` it has
 * no lock, and it reacts to `close` events and constructor failures rather
 * than to `error` events.
 */
module RetryGuard {

  datatype Retry = Retry(attempts: nat, pending: nat)

  /** The counter is zero or within the configured maximum. */
  predicate Valid(r: Retry, max: int)
  {
    r.attempts == 0 || r.attempts <= max
  }

  datatype Event =
    | Closed           // the socket's `close` event
    | ConstructFailed  // `new WebSocket(url)` threw inside `connect()`
    | Errored          // the socket's `error` event
    | TimerFired       // a pending `connect()` timeout runs
    | Opened           // the socket's `open` event

  /** `_handleReconnect()`. */
  function Request(r: Retry, max: int): (s: Retry)
    ensures r.attempts < max ==> s == Retry(r.attempts + 1, r.pending + 1)
    ensures r.attempts >= max ==> s == r
    ensures Valid(r, max) ==> Valid(s, max)
  {
    if r.attempts < max then Retry(r.attempts + 1, r.pending + 1) else r
  }

  function Step(r: Retry, e: Event, max: int): (s: Retry)
    ensures e != Closed && e != ConstructFailed ==> s.pending <= r.pending
    ensures Valid(r, max) ==> Valid(s, max)
  {
    match e
    case Closed => Request(r, max)
    case ConstructFailed => Request(r, max)
    case Errored => r
    case TimerFired => if r.pending == 0 then r else r.(pending := r.pending - 1)
    case Opened => r.(attempts := 0)
  }

  function Run(r: Retry, es: seq<Event>, max: int): Retry
    decreases |es|
  {
    if es == [] then r else Run(Step(r, es[0], max), es[1..], max)
  }

  /** How many `connect()` timeouts a run of events schedules. */
  function Scheduled(r: Retry, es: seq<Event>, max: int): nat
    decreases |es|
  {
    if es == [] then 0
    else (if Step(r, es[0], max).pending > r.pending then 1 else 0) + Scheduled(Step(r, es[0], max), es[1..], max)
  }

  /** Whatever events arrive, the counter never passes the maximum. */
  lemma {:induction false} RunPreservesValid(r: Retry, es: seq<Event>, max: int)
    requires Valid(r, max)
    ensures Valid(Run(r, es, max), max)
    decreases |es|
  {
    if es != [] {
      RunPreservesValid(Step(r, es[0], max), es[1..], max);
    }
  }

  /**
   * Without a successful open, each scheduled timeout costs one attempt, so
   * a run schedules nothing or brings the counter to at most the maximum.
   */
  lemma {:induction false} SchedulesBounded(r: Retry, es: seq<Event>, max: int)
    requires Valid(r, max)
    requires Opened !in es
    ensures Run(r, es, max).attempts == r.attempts + Scheduled(r, es, max)
    ensures Scheduled(r, es, max) == 0 || r.attempts + Scheduled(r, es, max) <= max
    decreases |es|
  {
    if es != [] {
      assert es == [es[0]] + es[1..];
      SchedulesBounded(Step(r, es[0], max), es[1..], max);
    }
  }

  /** `error` events never schedule a reconnect and change nothing. */
  lemma {:induction false} ErrorsNeverSchedule(r: Retry, es: seq<Event>, max: int)
    requires forall i :: 0 <= i < |es| ==> es[i] == Errored
    ensures Scheduled(r, es, max) == 0
    ensures Run(r, es, max) == r
    decreases |es|
  {
    if es != [] {
      ErrorsNeverSchedule(r, es[1..], max);
    }
  }

  /**
   * There is no lock: while attempts remain, every `close` event schedules
   * its own timeout, so several can be pending at once.
   */
  lemma {:induction false} EveryCloseSchedules(r: Retry, es: seq<Event>, max: int)
    requires forall i :: 0 <= i < |es| ==> es[i] == Closed
    requires r.attempts + |es| <= max
    ensures Scheduled(r, es, max) == |es|
    ensures Run(r, es, max) == Retry(r.attempts + |es|, r.pending + |es|)
    decreases |es|
  {
    if es != [] {
      EveryCloseSchedules(Request(r, max), es[1..], max);
    }
  }
}
