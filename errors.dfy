/** Go error values as the RFC 7807 middleware sees them, and the cause chain
    that `cause` in middleware/rfc7807_handler.go walks. */
module Errors {

  datatype Option<+T> = None | Some(value: T)

  /** The two values a `goa.ServiceError` reports about itself. */
  datatype ServiceInfo = ServiceInfo(status: int, token: string)

  /** Whether an error implements `Cause() error`, and if so what that call returns
      (`None` is a nil cause). */
  datatype Link = NotCauser | Causer(cause: Option<Error>)

  /** A Go `error` value, reduced to what the middleware observes of it:
      - `text`: what `Error()` returns,
      - `detailed`: what `fmt.Sprintf("%+v", e)` renders (stack traces included),
      - `service`: present exactly when the value is a `goa.ServiceError`,
      - `link`: the causer capability.
      Being an inductive datatype, a cause chain is always finite. */
  datatype Error = Error(text: string, detailed: string, service: Option<ServiceInfo>, link: Link)

  /** The unwrap loop stops at `e`: it is not a causer, or its cause is nil. */
  predicate Stops(e: Error)
  {
    e.link.NotCauser? || e.link.cause.None?
  }

  /** The cause chain of `e`: `e` itself, then every cause reached by calling
      `Cause()` while that yields a non-nil error. */
  function Chain(e: Error): (s: seq<Error>)
    ensures |s| >= 1 && s[0] == e
    ensures Stops(s[|s| - 1])
    ensures forall i :: 0 <= i < |s| - 1 ==> s[i].link == Causer(Some(s[i + 1]))
  {
    match e.link
    case Causer(Some(c)) => [e] + Chain(c)
    case _ => [e]
  }

  /** The value `cause(e)` returns: the innermost error of the chain. */
  function RootCause(e: Error): (r: Error)
    ensures Stops(r)
    ensures Stops(e) ==> r == e
  {
    match e.link
    case Causer(Some(c)) => RootCause(c)
    case _ => e
  }

  /** `cause` (lines 96-111): the loop that follows `Cause()` links. */
  method FindCause(e: Error) returns (r: Error)
    ensures r == RootCause(e)
    ensures r in Chain(e)
  {
    r := e;
    while true
      invariant RootCause(r) == RootCause(e)
      invariant r in Chain(e)
      decreases r
    {
      if r.link.NotCauser? {
        break;
      }
      var c := r.link.cause;
      if c.None? {
        break;
      }
      ChainStep(e, r);
      r := c.value;
    }
  }

  /** One step along the chain stays on the chain. */
  lemma {:induction false} ChainStep(e: Error, x: Error)
    requires x in Chain(e)
    requires x.link.Causer? && x.link.cause.Some?
    ensures x.link.cause.value in Chain(e)
  {
    var s := Chain(e);
    var i :| 0 <= i < |s| && s[i] == x;
    assert i < |s| - 1;
    assert s[i + 1] == x.link.cause.value;
  }

  /** Unwrapping an already unwrapped error changes nothing. */
  lemma CauseIdempotent(e: Error)
    ensures RootCause(RootCause(e)) == RootCause(e)
  {
  }

  /** The root cause is the last error of the chain, and it is the first error on
      the chain at which the loop stops: every earlier one has a non-nil cause. */
  lemma {:induction false} RootCauseEndsChain(e: Error)
    ensures RootCause(e) == Chain(e)[|Chain(e)| - 1]
    ensures forall i :: 0 <= i < |Chain(e)| - 1 ==> !Stops(Chain(e)[i])
  {
    match e.link
    case Causer(Some(c)) =>
      RootCauseEndsChain(c);
      assert Chain(e) == [e] + Chain(c);
    case _ =>
  }

  /** Wrapping an error in a causer whose `Cause()` returns it does not change the
      root cause, whatever the wrapper itself is, even a service error. */
  lemma WrapperIsSeenThrough(e: Error, text: string, detailed: string, service: Option<ServiceInfo>)
    ensures RootCause(Error(text, detailed, service, Causer(Some(e)))) == RootCause(e)
  {
  }

  /** An error wrapped under any number of causer layers. */
  function Wrap(layers: seq<Error>, inner: Error): (w: Error)
    decreases |layers|
  {
    if layers == [] then inner
    else layers[0].(link := Causer(Some(Wrap(layers[1..], inner))))
  }

  /** Whatever the depth of wrapping, the root cause of the wrapped error is the
      root cause of the inner one; the outermost layer keeps its own text. */
  lemma {:induction false} RootCauseOfWrap(layers: seq<Error>, inner: Error)
    ensures RootCause(Wrap(layers, inner)) == RootCause(inner)
    ensures layers != [] ==> Wrap(layers, inner).text == layers[0].text
    decreases |layers|
  {
    if layers != [] {
      RootCauseOfWrap(layers[1..], inner);
    }
  }
}
