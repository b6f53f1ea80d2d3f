/**
 * What the page borrows from its host: optional values (a JavaScript variable
 * that may still be `undefined`) and the handles the host's timer facility
 * hands out for `setInterval`.
 */
module Host {

  datatype Option<T> = None | Some(value: T)

  /** A timer handle as returned by `setInterval`. */
  type Handle = nat

  /** The live intervals that `clearInterval(h)` removes: none when `h` is still undefined. */
  function HandleSet(h: Option<Handle>): set<Handle> {
    match h
    case None => {}
    case Some(v) => {v}
  }
}
