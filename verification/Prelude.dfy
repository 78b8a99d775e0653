/** Option, the one general-purpose datatype the models share. */
module Prelude {
  datatype Option<+T> = None | Some(value: T)

  /** 2 to the power k. */
  function Pow2(k: nat): (p: nat)
    ensures p >= 1
  {
    if k == 0 then 1 else 2 * Pow2(k - 1)
  }
}
