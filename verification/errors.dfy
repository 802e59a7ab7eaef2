/** Go errors as errors.Is sees them, and the order service's wrapping of them. */
module Errors {
  import opened Domain

  /** The sentinels the worker tells apart; Unknown is any other root error. */
  datatype Sentinel = InvalidOrder | AlreadyExists | ConnectionFailed | Unknown

  datatype Error = Leaf(sentinel: Sentinel) | Wrapped(text: string, inner: Error)

  /** errors.Is: some error down the chain is the target. */
  predicate Is(e: Error, target: Sentinel) {
    match e
    case Leaf(s) => s == target
    case Wrapped(_, inner) => Is(inner, target)
  }

  function Root(e: Error): Sentinel {
    match e
    case Leaf(s) => s
    case Wrapped(_, inner) => Root(inner)
  }

  /** Wrapping is transparent: errors.Is asks about the root. */
  lemma {:induction false} IsRoot(e: Error, target: Sentinel)
    ensures Is(e, target) <==> Root(e) == target
  {
    match e
    case Leaf(_) =>
    case Wrapped(_, inner) => IsRoot(inner, target);
  }

  /** orderService.ProcessNewOrder: validate, then store; both errors are wrapped. */
  function ProcessNewOrder(validation: Option<Error>, insert: Option<Error>): Option<Error> {
    match validation
    case Some(e) => Some(Wrapped("validation failed", e))
    case None =>
      match insert
      case Some(e) => Some(Wrapped("failed to save order", e))
      case None => None
  }

  /** What the worker sees through the service is the root error of whichever step failed first. */
  lemma ServiceIsTransparent(validation: Option<Error>, insert: Option<Error>, target: Sentinel)
    ensures
      var r := ProcessNewOrder(validation, insert);
      && (r == None <==> validation == None && insert == None)
      && (validation.Some? ==> (Is(r.value, target) <==> Root(validation.value) == target))
      && (validation == None && insert.Some? ==> (Is(r.value, target) <==> Root(insert.value) == target))
  {
    if validation.Some? {
      IsRoot(validation.value, target);
    } else if insert.Some? {
      IsRoot(insert.value, target);
    }
  }
}
