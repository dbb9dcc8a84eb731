/** Small shared building blocks: an optional value and the element-wise map of a sequence. */
module Common {

  /** A value that may be absent (JavaScript's `null`/`undefined` for one field). */
  datatype Option<+T> = None | Some(value: T)

  /** `Array.prototype.map` with a one-argument callback: one result per element, in order. */
  function MapSeq<A, B>(s: seq<A>, f: A -> B): (r: seq<B>)
    ensures |r| == |s|
    ensures forall i :: 0 <= i < |s| ==> r[i] == f(s[i])
  {
    if s == [] then [] else [f(s[0])] + MapSeq(s[1..], f)
  }
}
