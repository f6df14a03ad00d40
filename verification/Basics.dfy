/** Small shared vocabulary. */
module Basics {
  datatype Option<+T> = None | Some(value: T)

  type Message = string

  // What a client is asked to publish.
  datatype Packet = Packet(topic: string, payload: Message, qos: int)

  // Clock values and durations are integers counting nanoseconds, the tick of std::chrono::steady_clock.
  const SECOND: int := 1_000_000_000
  const MILLISECOND: int := 1_000_000
}
