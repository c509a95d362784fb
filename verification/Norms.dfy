/** The root mean square that both norms of the forward pass divide by
    (qwen35-forward/gdn/src/lib.rs). */
module Norms {
  import opened FloatOps

  function SquareSum64<F, D>(ops: Ops<F, D>, row: seq<F>, n: nat): D
    requires n <= |row|
  {
    if n == 0 then ops.zero64
    else ops.add64(SquareSum64(ops, row, n - 1), ops.mul64(ops.widen(row[n - 1]), ops.widen(row[n - 1])))
  }

  /** One over the root mean square. */
  function InverseRms<F, D>(ops: Ops<F, D>, row: seq<F>, eps: F): F {
    var mean := ops.narrow(ops.div64(SquareSum64(ops, row, |row|), ops.ofNat64(|row|)));
    ops.div(ops.one, ops.sqrt(ops.add(mean, eps)))
  }
}
