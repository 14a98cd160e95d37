/**
 * The mutability window shared by message deletion and message editing:
 * a message may be changed while no more than thirty minutes have passed
 * since it was created, the boundary itself included.
 *
 * Timestamps are integer milliseconds, the unit of JavaScript Date values.
 */
module MutabilityPolicy {

  /** Length of the window: 1800 seconds. */
  const WINDOW_SECONDS: int := 1800
  const WINDOW_MILLIS: int := WINDOW_SECONDS * 1000

  /** The decision made at messageControllers.js:78 and :106. */
  function Mutable(createdAt: int, now: int): (allowed: bool)
    ensures allowed <==> now - createdAt <= 30 * 60 * 1000
  {
    now - createdAt <= WINDOW_MILLIS
  }

  /** The window is inclusive: exactly thirty minutes is still allowed,
      one millisecond later is not. */
  lemma WindowBoundary(createdAt: int)
    ensures Mutable(createdAt, createdAt + 1800 * 1000)
    ensures !Mutable(createdAt, createdAt + 1800 * 1000 + 1)
    ensures Mutable(createdAt, createdAt + (29 * 60 + 59) * 1000)
    ensures !Mutable(createdAt, createdAt + 31 * 60 * 1000)
  {
  }

  /** Once a message has left the window it never re-enters it as time moves on. */
  lemma ExpiryIsPermanent(createdAt: int, now: int, later: int)
    requires !Mutable(createdAt, now)
    requires now <= later
    ensures !Mutable(createdAt, later)
  {
  }
}
