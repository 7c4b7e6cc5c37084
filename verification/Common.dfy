/** What several modules share. */
module Common {

  datatype Option<T> = None | Some(value: T)

  /** A coroutine, by name. */
  type Co = nat

  /** A session id as the 32-bit word it is. */
  type Word = w: nat | w < 0x1_0000_0000

  /** Session ids that a process allocates: 1 to 2^31 - 1. */
  predicate IsSessionId(session: Word) {
    0 < session < 0x8000_0000
  }
}
