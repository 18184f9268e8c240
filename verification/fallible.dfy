/** Failure-compatible wrappers shared by every part of the model.

    The Rust source signals broken invariants and configuration errors with
    `panic!` (or `Option::unwrap` on `None`).  Here every such site becomes a
    `Fatal` result naming the panic, so that a caller can tell an aborted tick
    apart from a normal outcome.
 */
module Fallible {

  /** Rust's `Option<T>`. */
  datatype Option<+T> = None | Some(value: T)

  /** The panic sites of the modelled code. */
  datatype Panic =
    | NoConfig                        // "state set to connecting without config"
    | NoAuth                          // "no auth set"
    | NoHost                          // `host_id.unwrap()` on an empty host id
    | AlreadyRegistered(tag: string)  // "client already contains resource: {name}"

  /** The message the process aborts with. */
  function Message(p: Panic): string
  {
    match p
    case NoConfig => "state set to connecting without config"
    case NoAuth => "no auth set"
    case NoHost => "called `Option::unwrap()` on a `None` value"
    case AlreadyRegistered(tag) => "client already contains resource: " + tag
  }

  /** Each panic aborts with its own message, so a message names its panic
      (and, for a duplicate registration, the payload type). */
  lemma MessageNamesPanic(p: Panic, q: Panic)
    ensures Message(p) == Message(q) <==> p == q
  {
    var prefix := "client already contains resource: ";
    if p.AlreadyRegistered? && q.AlreadyRegistered? && Message(p) == Message(q) {
      assert p.tag == Message(p)[|prefix|..];
      assert q.tag == Message(q)[|prefix|..];
    }
    Signature(p);
    Signature(q);
  }

  /** The first two characters of each message. */
  lemma Signature(p: Panic)
    ensures |Message(p)| >= 2
    ensures Message(p)[..2] == match p
      case NoConfig => "st"
      case NoAuth => "no"
      case NoHost => "ca"
      case AlreadyRegistered(_) => "cl"
  {
  }

  /** Either the value a step computed, or the panic that aborted it. */
  datatype Result<+T> = Ok(value: T) | Fatal(panic: Panic)
}
