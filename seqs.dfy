/** `Array.prototype.filter`, kept in order, shared by the modules of this project. */
module Seqs {

  function Filter<T>(xs: seq<T>, keep: T -> bool): (r: seq<T>)
    ensures |r| <= |xs|
    decreases |xs|
  {
    if xs == [] then []
    else Filter(xs[..|xs| - 1], keep) + (if keep(xs[|xs| - 1]) then [xs[|xs| - 1]] else [])
  }

  /** The result holds exactly the elements of the input that pass. */
  lemma {:induction false} FilterMembers<T>(xs: seq<T>, keep: T -> bool, x: T)
    ensures x in Filter(xs, keep) <==> x in xs && keep(x)
    decreases |xs|
  {
    if xs != [] {
      var init, last := xs[..|xs| - 1], xs[|xs| - 1];
      FilterMembers(init, keep, x);
      assert xs == init + [last];
    }
  }

  /** Filtering keeps everything when every element passes. */
  lemma {:induction false} FilterAll<T>(xs: seq<T>, keep: T -> bool)
    requires forall i :: 0 <= i < |xs| ==> keep(xs[i])
    ensures Filter(xs, keep) == xs
    decreases |xs|
  {
    if xs != [] {
      FilterAll(xs[..|xs| - 1], keep);
      assert xs[..|xs| - 1] + [xs[|xs| - 1]] == xs;
    }
  }

  /** Filtering the concatenation filters each part. */
  lemma {:induction false} FilterAppend<T>(xs: seq<T>, ys: seq<T>, keep: T -> bool)
    ensures Filter(xs + ys, keep) == Filter(xs, keep) + Filter(ys, keep)
    decreases |ys|
  {
    if ys == [] {
      assert xs + ys == xs;
    } else {
      var zs := xs + ys;
      var init, last := ys[..|ys| - 1], ys[|ys| - 1];
      var tail := if keep(last) then [last] else [];
      assert zs[..|zs| - 1] == xs + init;
      assert zs[|zs| - 1] == last;
      assert Filter(zs, keep) == Filter(xs + init, keep) + tail;
      assert Filter(ys, keep) == Filter(init, keep) + tail;
      FilterAppend(xs, init, keep);
      assert Filter(xs + init, keep) + tail == Filter(xs, keep) + (Filter(init, keep) + tail);
    }
  }
}
