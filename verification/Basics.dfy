/** Small shared vocabulary: optional values, a dict read with a default, sums over indices. */
module Basics {

  datatype Option<+T> = None | Some(value: T)

  type byte = x: int | 0 <= x < 256

  /** `d.get(k, 0)` */
  function Get(d: map<nat, nat>, k: nat): nat {
    if k in d then d[k] else 0
  }

  /** `sum(d.values())` for a dict whose keys are below n. */
  function Total(d: map<nat, nat>, n: nat): nat {
    if n == 0 then 0 else Total(d, n - 1) + Get(d, n - 1)
  }

  /** `d[k] = d.get(k, 0) + 1` */
  function Bump(d: map<nat, nat>, k: nat): map<nat, nat> {
    d[k := Get(d, k) + 1]
  }

  lemma {:induction false} TotalOfZeros(d: map<nat, nat>, n: nat)
    requires forall i: nat :: i < n ==> Get(d, i) == 0
    ensures Total(d, n) == 0
  {
    if n > 0 {
      TotalOfZeros(d, n - 1);
    }
  }
}
