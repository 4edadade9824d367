/** Inbound gRPC streams as the server handlers see them: a finite sequence of
    turns, each the outcome of checking the call's context followed by one
    `stream.Recv()`. */
module Streams {
  import opened Base

  /** What one `stream.Recv()` returns. */
  datatype Input<M> =
    | Message(msg: M)     // a request
    | EndOfStream         // io.EOF: the client closed its side
    | Broken(cause: Error) // any other receive error

  /** One turn of a handler's receive loop: what `utils.ContextError` reports
      for the call's context (cancelled or past its deadline), then what the
      receive yields. */
  datatype Tick<M> = Tick(ctxErr: Option<Error>, input: Input<M>)

  /** The turn at position `i`. Past the end of the sequence the context is live
      and every receive yields io.EOF, so each modelled stream ends in EOF. */
  function TickAt<M>(ticks: seq<Tick<M>>, i: nat): (t: Tick<M>)
    ensures i >= |ticks| ==> t == Tick(None, EndOfStream)
    ensures i < |ticks| ==> t == ticks[i]
  {
    if i < |ticks| then ticks[i] else Tick(None, EndOfStream)
  }

  /** A turn after which the loop goes on: the context is live and a request
      arrived. */
  predicate Delivers<M>(t: Tick<M>)
  {
    t.ctxErr.None? && t.input.Message?
  }

  /** How many turns, from the start, deliver a request: the loop's first stop
      (cancellation, EOF or a broken receive) is at this position. */
  function Delivered<M>(ticks: seq<Tick<M>>): (n: nat)
    ensures n <= |ticks|
    ensures forall j :: 0 <= j < n ==> Delivers(ticks[j])
    ensures n < |ticks| ==> !Delivers(ticks[n])
  {
    if ticks == [] || !Delivers(ticks[0]) then 0 else 1 + Delivered(ticks[1..])
  }
}
