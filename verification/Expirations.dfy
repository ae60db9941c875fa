/** Blocks, deadlines and durations, as the proposal contracts use them. Time is in nanoseconds. */
module Expirations {

  datatype Block = Block(height: nat, time: nat)

  const NANOS: nat := 1_000_000_000

  /** `Time` is in seconds. */
  datatype Duration = Height(blocks: nat) | Time(seconds: nat)

  datatype Expiration = AtHeight(height: nat) | AtTime(time: nat) | Never {
    predicate IsExpired(b: Block) {
      match this
      case AtHeight(h) => b.height >= h
      case AtTime(t) => b.time >= t
      case Never => false
    }

    /** `is_expired_custom`: expired already `d` ahead of the deadline; mixed units never are. */
    predicate IsExpiredAhead(b: Block, d: Duration) {
      match this
      case AtHeight(h) => d.Height? && b.height + d.blocks >= h
      case AtTime(t) => d.Time? && b.time + d.seconds * NANOS >= t
      case Never => false
    }

    /** `partial_cmp` answers `Greater`; deadlines in different units do not compare. */
    predicate Later(other: Expiration) {
      match (this, other)
      case (AtHeight(a), AtHeight(b)) => a > b
      case (AtTime(a), AtTime(b)) => a > b
      case (Never, Never) => false
      case (Never, _) => true
      case _ => false
    }
  }

  /** Chain time does not go back. */
  predicate NotBefore(a: Block, b: Block) {
    a.height <= b.height && a.time <= b.time
  }
}
