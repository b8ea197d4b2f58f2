/** Small helpers shared by every module of the dashboard model. */
module Prelude {

  /** A value that may be absent: `undefined`/`null` in the dashboard's JavaScript. */
  datatype Option<T> = None | Some(value: T) {
    function GetOr(default: T): T {
      match this
      case Some(v) => v
      case None => default
    }
  }

  /** The outcome of an operation that either returns a value or throws. */
  datatype Result<T, E> = Ok(value: T) | Err(error: E)

  /** JavaScript's `xs.map((x, i) => f(x, i))`, with the index counted from `start`. */
  function MapFrom<A, B>(xs: seq<A>, f: (A, nat) -> B, start: nat): (r: seq<B>)
    ensures |r| == |xs|
    ensures forall i :: 0 <= i < |xs| ==> r[i] == f(xs[i], start + i)
    decreases |xs|
  {
    if xs == [] then [] else [f(xs[0], start)] + MapFrom(xs[1..], f, start + 1)
  }

  /** JavaScript's `xs.map((x, i) => f(x, i))`. */
  function MapIndexed<A, B>(xs: seq<A>, f: (A, nat) -> B): (r: seq<B>)
    ensures |r| == |xs|
    ensures forall i :: 0 <= i < |xs| ==> r[i] == f(xs[i], i)
  {
    MapFrom(xs, f, 0)
  }
}
