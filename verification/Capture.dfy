/** The capture contract's vocabulary: losses, faults, health. Message wording is left out. */
module Capture {
  import opened Prelude

  type Chunk = seq<Byte>

  /** What can be lost on the way in: a stretch the graph never delivered, in microseconds, or a
      buffer the realtime FIFO had no room for. */
  datatype Loss = Missed(micros: nat) | Overflow

  datatype CaptureError =
    | DeviceUnavailable(detail: string)
    | ServiceUnresponsive
    | NoSource
    | NoFlow
    | UnsupportedFormat
    | AudioLost(loss: Loss)
    | Backend(detail: string)
    | Overloaded(seconds: real)

  datatype Health = Opening | Capturing | Faulted(error: CaptureError) | Ended

  predicate Terminal(h: Health) {
    h.Faulted? || h.Ended?
  }

  /** The health after publishing `next`: a faulted or ended capture keeps the one it has. */
  function Published(current: Health, next: Health): (h: Health)
    ensures Terminal(current) ==> h == current
    ensures !Terminal(current) ==> h == next
  {
    if Terminal(current) || current == next then current else next
  }

  /** How the loop thread came to stop: on its own terms, or on an error. */
  datatype Ending = Clean | Fault(error: CaptureError)

  /** The ending kept when `why` comes after `ending`. */
  function First(ending: Option<Ending>, why: Option<Ending>): Option<Ending> {
    if ending.Some? then ending else why
  }
}
