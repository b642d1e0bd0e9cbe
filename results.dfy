/** Optional values and failure results shared by every module. A gateway call
    that throws is a `Result` whose `Err` carries the error's message. */
module Results {

  datatype Option<+T> = None | Some(value: T)

  datatype Result<+T> = Ok(value: T) | Err(error: string)

  /** The elements `f` keeps, in order: what a `map` that returns `null` for
      the dropped elements renders. */
  function FilterMap<A, B>(xs: seq<A>, f: A -> Option<B>): (ys: seq<B>)
    ensures |ys| <= |xs|
  {
    if xs == [] then [] else Kept(xs[0], f) + FilterMap(xs[1..], f)
  }

  /** The first element is kept or dropped, then the rest is filtered. */
  function Kept<A, B>(x: A, f: A -> Option<B>): (ys: seq<B>)
    ensures ys == [] <==> f(x).None?
    ensures f(x).Some? ==> ys == [f(x).value]
  {
    if f(x).Some? then [f(x).value] else []
  }

  /** Every kept value is in the result, and every value of the result was
      kept from some element. */
  lemma {:induction false} FilterMapMembers<A, B>(xs: seq<A>, f: A -> Option<B>)
    ensures forall i :: 0 <= i < |xs| && f(xs[i]).Some? ==> f(xs[i]).value in FilterMap(xs, f)
    ensures forall y :: y in FilterMap(xs, f) ==> exists i :: 0 <= i < |xs| && f(xs[i]) == Some(y)
  {
    if xs != [] {
      FilterMapMembers(xs[1..], f);
      assert forall i :: 1 <= i < |xs| ==> xs[i] == xs[1..][i - 1];
      forall y | y in FilterMap(xs, f) ensures exists i :: 0 <= i < |xs| && f(xs[i]) == Some(y) {
        if y !in Kept(xs[0], f) {
          var i :| 0 <= i < |xs[1..]| && f(xs[1..][i]) == Some(y);
          assert f(xs[i + 1]) == Some(y);
        }
      }
    }
  }

  /** Filtering distributes over concatenation, so the kept elements keep
      their relative order. */
  lemma {:induction false} FilterMapConcat<A, B>(xs: seq<A>, zs: seq<A>, f: A -> Option<B>)
    ensures FilterMap(xs + zs, f) == FilterMap(xs, f) + FilterMap(zs, f)
  {
    if xs == [] {
      assert xs + zs == zs;
    } else {
      var ws := xs + zs;
      assert ws[0] == xs[0] && ws[1..] == xs[1..] + zs;
      FilterMapConcat(xs[1..], zs, f);
      assert Kept(xs[0], f) + (FilterMap(xs[1..], f) + FilterMap(zs, f))
          == (Kept(xs[0], f) + FilterMap(xs[1..], f)) + FilterMap(zs, f);
    }
  }
}
