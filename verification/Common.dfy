/** Failure-compatible results shared by the service models. */
module Common {

  type ItemId = string

  type MachineId = string

  datatype Option<+T> = None | Some(value: T) {
    function GetOr(default: T): T {
      match this
      case Some(v) => v
      case None => default
    }
  }

  /** What a service call returns or throws. */
  datatype Outcome<+T, +E> = Ok(value: T) | Err(error: E)

  function Min(a: int, b: int): int { if a <= b then a else b }

  function Max(a: int, b: int): int { if a >= b then a else b }

  /** JavaScript's `Math.floor(n / d)`, for a divisor of either sign. */
  function FloorDiv(n: int, d: int): int
    requires d != 0
  {
    if d > 0 then n / d else (-n) / (-d)
  }

  /** JavaScript's `Math.round(n / d)`, that is floor(n/d + 1/2), for a positive divisor. */
  function RoundDiv(n: int, d: int): int
    requires d > 0
  {
    (2 * n + d) / (2 * d)
  }

  /** The first position whose element satisfies `p`, or the length: Mongo's positional `$` and `Array.findIndex`. */
  function FirstIndex<T>(xs: seq<T>, p: T -> bool): (i: nat)
    ensures i <= |xs|
    ensures i < |xs| ==> p(xs[i])
    ensures forall j | 0 <= j < i :: !p(xs[j])
  {
    if xs == [] then 0
    else if p(xs[0]) then 0
    else
      var i := FirstIndex(xs[1..], p);
      assert forall j | 1 <= j < i + 1 :: xs[j] == xs[1..][j - 1];
      i + 1
  }

  /** Where a test answers alike on two sequences, it stops at the same position. */
  lemma SameFirst<T>(xs: seq<T>, ys: seq<T>, p: T -> bool)
    requires |xs| == |ys| && forall i | 0 <= i < |xs| :: p(xs[i]) <==> p(ys[i])
    ensures FirstIndex(ys, p) == FirstIndex(xs, p)
  {
    var i, j := FirstIndex(xs, p), FirstIndex(ys, p);
    assert i < |xs| ==> p(ys[i]);
    assert j < |xs| ==> p(xs[j]);
  }
}
