/** Small datatypes shared by every component: optional values, the answer of
    a call into the remote data or auth service, the outcome of an awaited
    callback, and the three-way load state of the list containers. */
module Wrappers {

  /** A value that may be absent (JavaScript's `null` / `undefined`). */
  datatype Option<+T> = None | Some(value: T) {

    /** The value, or `default` when absent (JavaScript's `??`). */
    function GetOr(default: T): T {
      match this
      case Some(v) => v
      case None => default
    }
  }

  /** What a call into the remote service answers: its data, or an error
      whose human-readable message is `msg`. */
  datatype Remote<+T> = Ok(data: T) | Err(msg: string)

  /** Whether an awaited callback (a form's `onAdd` / `onCreate`) resolved or
      rejected; the rejection reason is only logged, so it is not kept. */
  datatype Outcome = Resolved | Rejected

  /** The state of a list container: a fetch is in flight, it failed, or it
      delivered the list now held. */
  datatype LoadState = Loading | Error | Success

  /** Concatenation regroups freely; stating it as a step keeps recursive
      proofs about filtered sequences cheap. */
  lemma AppendAssociative<T>(x: seq<T>, y: seq<T>, z: seq<T>)
    ensures x + (y + z) == (x + y) + z
  {
  }
}
