/** What the other modules share: optional values and a filtering map. */
module Wrappers {
  datatype Option<+T> = None | Some(value: T)

  datatype Result<+T, +E> = Success(value: T) | Failure(error: E)

  /** The values `f` gives for the elements of `xs`, in order. */
  function FilterMap<A, B>(f: A -> Option<B>, xs: seq<A>): (ys: seq<B>)
    ensures forall i :: 0 <= i < |xs| && f(xs[i]).Some? ==> f(xs[i]).value in ys
    ensures forall y :: y in ys ==> exists i :: 0 <= i < |xs| && f(xs[i]) == Some(y)
  {
    if xs == [] then []
    else
      var rest := FilterMap(f, xs[1..]);
      if f(xs[0]).Some? then [f(xs[0]).value] + rest else rest
  }

  /** Nothing is lost, repeated or moved: what one element gives stands where it stood. */
  lemma {:induction false} FilterMapAt<A, B>(f: A -> Option<B>, xs: seq<A>, k: nat)
    requires k < |xs|
    ensures FilterMap(f, xs) == FilterMap(f, xs[..k])
                                + (if f(xs[k]).Some? then [f(xs[k]).value] else []) + FilterMap(f, xs[k + 1..])
  {
    assert xs == xs[..k] + ([xs[k]] + xs[k + 1..]);
    FilterMapAdds(f, xs[..k], [xs[k]] + xs[k + 1..]);
    assert ([xs[k]] + xs[k + 1..])[1..] == xs[k + 1..];
  }

  lemma {:induction false} FilterMapNone<A, B>(f: A -> Option<B>, xs: seq<A>)
    requires forall i :: 0 <= i < |xs| ==> f(xs[i]).None?
    ensures FilterMap(f, xs) == []
  {
    if xs != [] { FilterMapNone(f, xs[1..]); }
  }

  lemma {:induction false} FilterMapAdds<A, B>(f: A -> Option<B>, xs: seq<A>, ys: seq<A>)
    ensures FilterMap(f, xs + ys) == FilterMap(f, xs) + FilterMap(f, ys)
  {
    if xs == [] {
      assert xs + ys == ys;
    } else {
      assert (xs + ys)[1..] == xs[1..] + ys;
      FilterMapAdds(f, xs[1..], ys);
    }
  }
}
