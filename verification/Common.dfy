/** Small types shared by every other module. */
module Common {

  datatype Option<+T> = None | Some(value: T)

  /** How a statement can end for its caller: answered, failed without effect, or failed after taking effect. */
  datatype Fault = NoFault | LostBefore | LostAfter

  predicate TookEffect(f: Fault) {
    !f.LostBefore?
  }

  /** The value inside Some, or the given default: the source's `??`. */
  function OrElse<T>(o: Option<T>, default: T): T {
    if o.Some? then o.value else default
  }

  function Min(a: int, b: int): int {
    if a <= b then a else b
  }

  function Max(a: int, b: int): int {
    if a >= b then a else b
  }

  function Pow2(n: nat): (p: nat)
    ensures p >= 1
  {
    if n == 0 then 1 else 2 * Pow2(n - 1)
  }
}
