/**
 * Wire frames and decoded messages.
 *
 * The JSON codec itself (`parseJSON`, `stringfyJSON`, the inline `JSON.parse`
 * fallback) is a foreign call; each client receives it as a pair of opaque
 * total functions. This module only fixes the shapes those functions work on.
 */
module Codec {
  import opened Wrappers

  /** A text frame as handed to or received from the socket. */
  type Frame = string

  /**
   * A JavaScript value produced by decoding a frame: `null`, a string (which
   * is also what the codec falls back to when the frame is not JSON), or any
   * other value, seen through its `event` and `timestamp` members (absent on
   * numbers, booleans and arrays) and the rest of its content.
   */
  datatype Value =
    | Null
    | Str(text: string)
    | Obj(event: Option<string>, timestamp: Option<int>, body: string)

  /**
   * The `msg.event` lookup: undefined on a string, the member otherwise.
   * On `null` the lookup throws; callers test `Null?` first.
   */
  function EventOf(v: Value): Option<string>
  {
    match v
    case Null => None
    case Str(_) => None
    case Obj(e, _, _) => e
  }

  /** The `{ event, timestamp }` heartbeat record, stamped with the host clock's `now`. */
  function HeartbeatMessage(event: string, now: int): (v: Value)
    ensures EventOf(v) == Some(event)
    ensures v.Obj? && v.timestamp == Some(now)
  {
    Obj(Some(event), Some(now), "")
  }

  /** Heartbeats taken at different times are different values. */
  lemma HeartbeatsDiffer(event: string, t1: int, t2: int)
    requires t1 != t2
    ensures HeartbeatMessage(event, t1) != HeartbeatMessage(event, t2)
  {
  }
}
