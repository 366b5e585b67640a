/** Small shared vocabulary: optional values, outcomes, and order-preserving de-duplication. */
module Basics {

  datatype Option<+T> = None | Some(value: T)

  datatype Result<+T> = Ok(value: T) | Err(error: string)

  /** Every element once, in order of first occurrence (Python's `dict.fromkeys`). */
  function Dedup<T(==,!new)>(xs: seq<T>): (r: seq<T>)
    ensures forall x :: x in r <==> x in xs
    ensures forall i, j :: 0 <= i < j < |r| ==> r[i] != r[j]
  {
    if xs == [] then []
    else
      var init := Dedup(xs[..|xs| - 1]);
      assert xs == xs[..|xs| - 1] + [xs[|xs| - 1]];
      if xs[|xs| - 1] in init then init else init + [xs[|xs| - 1]]
  }

  /** The elements of `xs` that lie in `keep`, in order. */
  function Keep<T(==,!new)>(xs: seq<T>, keep: set<T>): (r: seq<T>)
    ensures forall x :: x in r <==> x in xs && x in keep
    ensures |r| <= |xs|
  {
    if xs == [] then []
    else
      var init := Keep(xs[..|xs| - 1], keep);
      assert xs == xs[..|xs| - 1] + [xs[|xs| - 1]];
      if xs[|xs| - 1] in keep then init + [xs[|xs| - 1]] else init
  }

  lemma KeepSnoc<T(!new)>(xs: seq<T>, x: T, keep: set<T>)
    ensures Keep(xs + [x], keep) == if x in keep then Keep(xs, keep) + [x] else Keep(xs, keep)
  {
  }

  function Last<T>(xs: seq<T>): T
    requires xs != []
  {
    xs[|xs| - 1]
  }

  /** One step of a loop that has not stopped yet. */
  ghost function Turn<W>(step: (W, nat) -> (W, bool), v: W, ok: bool, k: nat): (W, bool) {
    if ok then step(v, k) else (v, false)
  }

  /** A loop of `k` steps that stops at the first one that fails. */
  ghost function Loop<W>(step: (W, nat) -> (W, bool), w: W, k: nat): (W, bool) {
    if k == 0 then (w, true)
    else
      var (v, ok) := Loop(step, w, k - 1);
      Turn(step, v, ok, k - 1)
  }

  lemma LoopNext<W>(step: (W, nat) -> (W, bool), w: W, k: nat, v: W)
    requires Loop(step, w, k) == (v, true)
    ensures Loop(step, w, k + 1) == step(v, k)
  {
  }

  lemma {:induction false} LoopStops<W>(step: (W, nat) -> (W, bool), w: W, k: nat, n: nat)
    requires k <= n && !Loop(step, w, k).1
    ensures Loop(step, w, n) == Loop(step, w, k)
  {
    if k < n { LoopStops(step, w, k, n - 1); }
  }

  /** What holds at the start and is kept by every step, done or skipped, holds of the loop. */
  lemma {:induction false} LoopInvariant<W(!new)>(step: (W, nat) -> (W, bool), w: W, keeps: (W, nat, bool) -> bool, n: nat, k: nat)
    requires k <= n && keeps(w, 0, true)
    requires forall v: W, j: nat, ok: bool {:trigger Turn(step, v, ok, j)} :: j < n && keeps(v, j, ok) ==>
      keeps(Turn(step, v, ok, j).0, j + 1, Turn(step, v, ok, j).1)
    ensures keeps(Loop(step, w, k).0, k, Loop(step, w, k).1)
  {
    if k > 0 {
      LoopInvariant(step, w, keeps, n, k - 1);
      var (v, ok) := Loop(step, w, k - 1);
      assert Loop(step, w, k) == Turn(step, v, ok, k - 1);
    }
  }
}
