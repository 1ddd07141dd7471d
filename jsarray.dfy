/** The array idioms the application uses: `xs.map((x, i) => ...)` and, to delete one
    element, `xs.filter((_, i) => i !== k)`. */
module JsArray {

  /** `xs.map(f)` with a callback that also receives the index: the images are produced one
      element after another, first to last, each with the position it is called at. */
  function MapIndexed<A, B>(xs: seq<A>, f: (A, nat) -> B): (ys: seq<B>)
    ensures |ys| == |xs|
    ensures forall i :: 0 <= i < |xs| ==> ys[i] == f(xs[i], i)
    decreases |xs|
  {
    if xs == [] then []
    else MapIndexed(xs[..|xs| - 1], f) + [f(xs[|xs| - 1], |xs| - 1)]
  }

  /** Mapping one more element appends its image, computed with the next index. */
  lemma MapIndexedSnoc<A, B>(xs: seq<A>, x: A, f: (A, nat) -> B)
    ensures MapIndexed(xs + [x], f) == MapIndexed(xs, f) + [f(x, |xs|)]
  {
    assert (xs + [x])[..|xs|] == xs;
  }

  /** `s` without the element at position `k`; `s` itself when there is no such position,
      because the filter then keeps every element. */
  function WithoutIndex<T>(s: seq<T>, k: nat): (r: seq<T>)
    ensures k < |s| ==> r == s[..k] + s[k + 1..]
    ensures k >= |s| ==> r == s
  {
    if s == [] then []
    else if k == 0 then s[1..]
    else [s[0]] + WithoutIndex(s[1..], k - 1)
  }

  /** Element by element: the elements before `k` keep their position, those after it move
      one to the left, and exactly one element is lost. */
  lemma WithoutIndexAt<T>(s: seq<T>, k: nat, i: nat)
    requires k < |s| && i < |s| - 1
    ensures |WithoutIndex(s, k)| == |s| - 1
    ensures WithoutIndex(s, k)[i] == if i < k then s[i] else s[i + 1]
  {
  }
}
