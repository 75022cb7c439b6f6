/** Failure-carrying values shared by every handler of the model, and the
    first-match search that JavaScript's `Array.prototype.find` performs. */
module Results {

  /** `None` stands for JavaScript's `null`/`undefined`. */
  datatype Option<+T> = None | Some(value: T)

  /** The outcome of one request handler: a value, or the error it answered with. */
  datatype Result<+T, +E> = Success(value: T) | Failure(error: E)

  /** `xs[i]` is the first element of `xs` that satisfies `p`. */
  ghost predicate FirstMatchAt<T>(xs: seq<T>, p: T -> bool, i: int)
  {
    && 0 <= i < |xs|
    && p(xs[i])
    && forall j :: 0 <= j < i ==> !p(xs[j])
  }

  /** The first element of `xs` satisfying `p`, as `xs.find(p)` returns it. */
  function FindFirst<T>(xs: seq<T>, p: T -> bool): (r: Option<T>)
    ensures r.None? <==> forall i :: 0 <= i < |xs| ==> !p(xs[i])
    ensures r.Some? ==> exists i :: FirstMatchAt(xs, p, i) && xs[i] == r.value
  {
    if |xs| == 0 then None
    else if p(xs[0]) then
      assert FirstMatchAt(xs, p, 0);
      Some(xs[0])
    else
      var rest := FindFirst(xs[1..], p);
      FindFirstShift(xs, p, rest);
      rest
  }

  /** A first match in the tail of `xs` is a first match in `xs` when the head does not match. */
  lemma FindFirstShift<T>(xs: seq<T>, p: T -> bool, rest: Option<T>)
    requires |xs| > 0 && !p(xs[0])
    requires rest.None? <==> forall i :: 0 <= i < |xs[1..]| ==> !p(xs[1..][i])
    requires rest.Some? ==> exists i :: FirstMatchAt(xs[1..], p, i) && xs[1..][i] == rest.value
    ensures rest.None? <==> forall i :: 0 <= i < |xs| ==> !p(xs[i])
    ensures rest.Some? ==> exists i :: FirstMatchAt(xs, p, i) && xs[i] == rest.value
  {
    if rest.Some? {
      var i :| FirstMatchAt(xs[1..], p, i) && xs[1..][i] == rest.value;
      assert FirstMatchAt(xs, p, i + 1);
    } else {
      forall i | 0 <= i < |xs|
        ensures !p(xs[i])
      {
        if i > 0 {
          assert xs[i] == xs[1..][i - 1];
        }
      }
    }
  }
}
