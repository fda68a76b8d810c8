/** Optional values and error-carrying results, shared by every module. */
module Wrappers {

  /** A value that may be missing: a dictionary lookup that finds no key, a
      regular-expression search that finds no match. */
  datatype Option<+T> = None | Some(value: T) {
    function GetOr(default: T): T {
      match this
      case Some(v) => v
      case None => default
    }
  }

  /** The outcome of a call that may raise: `Failure` carries the text of the
      exception. */
  datatype Result<+R> = Success(value: R) | Failure(error: string)

  /** The first value present in `xs`, scanning from the front: what a
      cascade of tries that stops at the first success gives. */
  function FirstSome<T>(xs: seq<Option<T>>): (r: Option<T>)
    ensures r.None? <==> forall i :: 0 <= i < |xs| ==> xs[i].None?
    ensures r.Some? ==> r in xs
    decreases |xs|
  {
    if xs == [] then None
    else if xs[0].Some? then xs[0]
    else
      var r := FirstSome(xs[1..]);
      assert forall i :: 1 <= i < |xs| ==> xs[i] == xs[1..][i - 1];
      r
  }

  /** The value found is the one at the first position that holds one. */
  lemma {:induction false} FirstSomeIsFirst<T>(xs: seq<Option<T>>, i: nat)
    requires i < |xs| && xs[i].Some?
    requires forall j :: 0 <= j < i ==> xs[j].None?
    ensures FirstSome(xs) == xs[i]
    decreases i
  {
    if i > 0 {
      assert xs[1..][i - 1] == xs[i];
      FirstSomeIsFirst(xs[1..], i - 1);
    }
  }
}
