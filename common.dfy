/** Shared vocabulary of the backend model: optional values, results of operations
    that may throw, HTTP replies, document ids and the abstract clock. */
module Common {

  datatype Option<+T> = None | Some(value: T)

  /** An internal operation that either returns a value or throws an error with a message. */
  datatype Result<+T> = Success(value: T) | Failure(error: string)

  /** What a request handler answers: a status code with a body, or a status code with
      the error text of the JSON error body. */
  datatype Reply<+T> = Ok(code: nat, body: T) | Fail(code: nat, error: string)

  /** A document id. Every collection draws its ids from one id space, as ObjectIds do. */
  type Id = nat

  /** A reading of the abstract clock that stands in for `new Date()` and `Date.now()`. */
  type Time = nat

  /** Clock ticks (milliseconds) per calendar day. */
  const TicksPerDay: nat := 86400000

  /** The calendar day a clock reading falls in; "today" is `DayOf(now)`. */
  function DayOf(t: Time): (d: nat)
    ensures d * TicksPerDay <= t < (d + 1) * TicksPerDay
  {
    t / TicksPerDay
  }

  /** The index `Math.floor(Math.random() * n)` picks, with the random draw abstracted to an
      arbitrary `pick`: always a valid index, and every index is reached by some draw. */
  function PickIndex(pick: nat, n: nat): (k: nat)
    requires n > 0
    ensures k < n
    ensures pick < n ==> k == pick
  {
    pick % n
  }

  /** JavaScript truthiness of an optional string parameter: present and not empty. */
  predicate Truthy(s: Option<string>) {
    s.Some? && s.value != ""
  }
}
