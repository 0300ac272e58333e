/**
 * The overlay relay: a single slot holding the show handler of one mounted overlay.
 * Callers reach an overlay only through its relay's `Show`.
 */
module Relay {
  import opened Wrappers

  /** `this.onShowRequest(...)` on a slot holding `null`/`undefined` throws a TypeError. */
  datatype Fault = NotAFunction

  /** One synchronous invocation of a handler with the arguments the caller passed. */
  datatype Call<H, A> = Call(handler: H, args: A)

  /**
   * `H` identifies a handler (in this model, the overlay whose `show` was subscribed)
   * and `A` is the argument list that `show` forwards.
   */
  class OverlayRelay<H, A> {
    /** The stored handler; `None` before the first subscribe and after a clear. */
    var onShowRequest: Option<H>

    constructor ()
      ensures onShowRequest == None
    {
      onShowRequest := None;
    }

    /**
     * Forwards `args` to the stored handler: exactly one call, with exactly these
     * arguments. Without a handler the call faults instead of being dropped.
     * Which handler is stored does not change (no `modifies`).
     */
    method Show(args: A) returns (r: Result<Call<H, A>, Fault>)
      ensures onShowRequest.None? <==> r.Failure?
      ensures onShowRequest.None? ==> r == Failure(NotAFunction)
      ensures onShowRequest.Some? ==> r == Success(Call(onShowRequest.value, args))
    {
      match onShowRequest
      case None => r := Failure(NotAFunction);
      case Some(h) => r := Success(Call(h, args));
    }

    /** Stores `handler`, replacing any earlier one: the last subscribe wins. */
    method Subscribe(handler: H)
      modifies this
      ensures onShowRequest == Some(handler)
    {
      onShowRequest := Some(handler);
    }

    /** Empties the slot. */
    method Clear()
      modifies this
      ensures onShowRequest == None
    {
      onShowRequest := None;
    }
  }

  /** Two subscribes on one relay: a show reaches only the second handler. */
  method LastSubscribeWins<H, A>(first: H, second: H, args: A) returns (r: Result<Call<H, A>, Fault>)
    ensures r == Success(Call(second, args))
  {
    var relay := new OverlayRelay<H, A>();
    relay.Subscribe(first);
    relay.Subscribe(second);
    r := relay.Show(args);
  }

  /** A show before any subscribe faults. */
  method ShowBeforeSubscribeFaults<H, A>(args: A) returns (r: Result<Call<H, A>, Fault>)
    ensures r == Failure(NotAFunction)
  {
    var relay := new OverlayRelay<H, A>();
    r := relay.Show(args);
  }

  /**
   * Clearing twice leaves the relay as clearing once does, and a show after the clear
   * faults; two shows before the clear reach the handler each time with their own arguments.
   */
  method ShowAfterClearFaults<H, A>(handler: H, args1: A, args2: A, args3: A)
    returns (r1: Result<Call<H, A>, Fault>, r2: Result<Call<H, A>, Fault>, r3: Result<Call<H, A>, Fault>)
    ensures r1 == Success(Call(handler, args1)) && r2 == Success(Call(handler, args2))
    ensures r3 == Failure(NotAFunction)
  {
    var relay := new OverlayRelay<H, A>();
    relay.Subscribe(handler);
    r1 := relay.Show(args1);
    r2 := relay.Show(args2);
    relay.Clear();
    relay.Clear();
    r3 := relay.Show(args3);
  }
}
