/** Small building blocks shared by the model: optional values and the element-wise
    mapping of a sequence (Swift's Optional and Array.map). */
module Prelude {

  /** Swift's Optional: `None` is nil. */
  datatype Option<+T> = None | Some(value: T)

  /** Array.map: applies `f` to every element, keeping length and order. */
  function MapSeq<A, B>(f: A -> B, xs: seq<A>): (r: seq<B>)
    ensures |r| == |xs|
    ensures forall i | 0 <= i < |xs| :: r[i] == f(xs[i])
  {
    if xs == [] then [] else [f(xs[0])] + MapSeq(f, xs[1..])
  }
}
