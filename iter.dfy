/** The iterator adaptors of Rust's standard library that the engine relies on:
    `find_map`, and `partition(Result::is_ok)` followed by `unwrap` / `unwrap_err`. */
module Iter {
  import opened Wrappers

  /** `Iterator::map` followed by `collect`. */
  function Map<T, U>(xs: seq<T>, f: T -> U): (r: seq<U>)
    ensures |r| == |xs| && forall i :: 0 <= i < |xs| ==> r[i] == f(xs[i])
  {
    seq(|xs|, i requires 0 <= i < |xs| => f(xs[i]))
  }

  /** `Iterator::find_map`: the first `Some` that `f` yields, scanning `xs` front to back. */
  function FindMap<T, U>(xs: seq<T>, f: T -> Option<U>): (r: Option<U>)
    ensures r.None? <==> forall i :: 0 <= i < |xs| ==> f(xs[i]).None?
    ensures r.Some? ==> exists i :: 0 <= i < |xs| && f(xs[i]) == r && forall j :: 0 <= j < i ==> f(xs[j]).None?
  {
    if xs == [] then None
    else match f(xs[0])
      case Some(u) => Some(u)
      case None => FindMap(xs[1..], f)
  }

  /** `partition(Result::is_ok)`: a left fold that pushes each result onto one of two vectors. */
  function Partition<T, E>(rs: seq<Result<T, E>>): (p: (seq<Result<T, E>>, seq<Result<T, E>>))
    ensures forall k :: 0 <= k < |p.0| ==> p.0[k].Ok?
    ensures forall k :: 0 <= k < |p.1| ==> p.1[k].Err?
  {
    if rs == [] then ([], [])
    else
      var rest := Partition(rs[..|rs| - 1]);
      var last := rs[|rs| - 1];
      if last.Ok? then (rest.0 + [last], rest.1) else (rest.0, rest.1 + [last])
  }

  /** The successes of `rs`, unwrapped, as `partition` then `map(Result::unwrap)` leaves them. */
  function Oks<T, E>(rs: seq<Result<T, E>>): seq<T> {
    var yes := Partition(rs).0;
    seq(|yes|, k requires 0 <= k < |yes| => yes[k].value)
  }

  /** The failures of `rs`, unwrapped, as `partition` then `map(Result::unwrap_err)` leaves them. */
  function Errs<T, E>(rs: seq<Result<T, E>>): seq<E> {
    var no := Partition(rs).1;
    seq(|no|, k requires 0 <= k < |no| => no[k].error)
  }

  /** Independent reference: how many entries of `rs` are successes. */
  function CountOk<T, E>(rs: seq<Result<T, E>>): nat {
    if rs == [] then 0 else CountOk(rs[..|rs| - 1]) + (if rs[|rs| - 1].Ok? then 1 else 0)
  }

  /** Independent reference: how many entries of `rs` are failures. */
  function CountErr<T, E>(rs: seq<Result<T, E>>): nat {
    if rs == [] then 0 else CountErr(rs[..|rs| - 1]) + (if rs[|rs| - 1].Err? then 1 else 0)
  }

  /** Every result lands in exactly one of the two halves: nothing is lost or duplicated. */
  lemma {:induction false} PartitionSizes<T, E>(rs: seq<Result<T, E>>)
    ensures |Partition(rs).0| == CountOk(rs)
    ensures |Partition(rs).1| == CountErr(rs)
    ensures CountOk(rs) + CountErr(rs) == |rs|
  {
    if rs != [] {
      PartitionSizes(rs[..|rs| - 1]);
    }
  }

  /** Order is kept: the result at position i is found in its half right after the results
      of its own kind that precede it. */
  lemma {:induction false} PartitionAt<T, E>(rs: seq<Result<T, E>>, i: nat)
    requires i < |rs|
    ensures rs[i].Ok? ==> CountOk(rs[..i]) < |Partition(rs).0| && Partition(rs).0[CountOk(rs[..i])] == rs[i]
    ensures rs[i].Err? ==> CountErr(rs[..i]) < |Partition(rs).1| && Partition(rs).1[CountErr(rs[..i])] == rs[i]
  {
    var init := rs[..|rs| - 1];
    PartitionSizes(init);
    if i == |rs| - 1 {
      assert rs[..i] == init;
    } else {
      assert init[..i] == rs[..i];
      PartitionAt(init, i);
    }
  }

  /** The unwrapped successes: one per successful result, the one at position i of `rs`
      being the `CountOk(rs[..i])`-th. */
  lemma OksAt<T, E>(rs: seq<Result<T, E>>)
    ensures |Oks(rs)| == CountOk(rs)
    ensures forall i :: 0 <= i < |rs| && rs[i].Ok? ==>
      CountOk(rs[..i]) < |Oks(rs)| && Oks(rs)[CountOk(rs[..i])] == rs[i].value
  {
    PartitionSizes(rs);
    forall i | 0 <= i < |rs| && rs[i].Ok?
      ensures CountOk(rs[..i]) < |Oks(rs)| && Oks(rs)[CountOk(rs[..i])] == rs[i].value
    {
      PartitionAt(rs, i);
    }
  }

  /** The unwrapped failures: one per failed result, the one at position i of `rs` being the
      `CountErr(rs[..i])`-th. */
  lemma ErrsAt<T, E>(rs: seq<Result<T, E>>)
    ensures |Errs(rs)| == CountErr(rs)
    ensures forall i :: 0 <= i < |rs| && rs[i].Err? ==>
      CountErr(rs[..i]) < |Errs(rs)| && Errs(rs)[CountErr(rs[..i])] == rs[i].error
  {
    PartitionSizes(rs);
    forall i | 0 <= i < |rs| && rs[i].Err?
      ensures CountErr(rs[..i]) < |Errs(rs)| && Errs(rs)[CountErr(rs[..i])] == rs[i].error
    {
      PartitionAt(rs, i);
    }
  }

  /** Counting is monotone, so an earlier success sits strictly earlier among the unwrapped
      successes than any later one: `Oks` keeps the original order. */
  lemma {:induction false} CountOkIncreases<T, E>(rs: seq<Result<T, E>>, i: nat, j: nat)
    requires i < j <= |rs| && rs[i].Ok?
    ensures CountOk(rs[..i]) < CountOk(rs[..j])
  {
    if j == i + 1 {
      assert rs[..j][..i] == rs[..i];
    } else {
      assert rs[..j][..j - 1] == rs[..j - 1];
      CountOkIncreases(rs, i, j - 1);
    }
  }

  /** Appending one result: a success adds its value to the successes, a failure its error to
      the failures. */
  lemma OksErrsSnoc<T, E>(rs: seq<Result<T, E>>, x: Result<T, E>)
    ensures Oks(rs + [x]) == if x.Ok? then Oks(rs) + [x.value] else Oks(rs)
    ensures Errs(rs + [x]) == if x.Err? then Errs(rs) + [x.error] else Errs(rs)
  {
  }
}
