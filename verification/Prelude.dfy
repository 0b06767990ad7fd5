/** Small shared vocabulary. */
module Prelude {
  datatype Option<+T> = None | Some(value: T)

  /** The valid JavaScript dates, as milliseconds since the epoch. */
  type Instant = t: int | -8_640_000_000_000_000 <= t <= 8_640_000_000_000_000

  /** A string the schemas accept as non-empty and at most `max` long. */
  predicate Bounded(s: string, max: nat) {
    1 <= |s| <= max
  }

  ghost predicate NoDuplicates<T>(s: seq<T>) {
    forall i, j :: 0 <= i < j < |s| ==> s[i] != s[j]
  }

  /** What an adversarial transport does to one store call: nothing, losing the request,
      or losing the answer after the call took effect. */
  datatype Fault = NoFault | LostRequest | LostAnswer
}
