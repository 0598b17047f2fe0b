/** Go's 64-bit integers. A value assigned to `int64` carries the proof that it did not wrap. */
module Int64 {
  const MAX_INT64: int := 0x7fff_ffff_ffff_ffff
  const MIN_INT64: int := -0x8000_0000_0000_0000

  type int64 = x: int | MIN_INT64 <= x <= MAX_INT64

  datatype Option<+T> = None | Some(value: T)

  datatype Result<+T, +E> = Ok(value: T) | Err(error: E)

  /** The overflow guard of every balance change; MaxInt64-delta and MinInt64-delta cannot wrap themselves. */
  function CheckedBalanceAdd(balance: int64, delta: int64): (r: Option<int64>)
    ensures r == if MIN_INT64 <= balance + delta <= MAX_INT64 then Some(balance + delta) else None
  {
    if (delta > 0 && balance > (MAX_INT64 - delta) as int64) || (delta < 0 && balance < (MIN_INT64 - delta) as int64)
    then None
    else Some(balance + delta)
  }

  /** Non-negative a and b, as the callers of checkedMul guarantee: exact product, or None when it leaves int64. */
  function CheckedMul(a: int64, b: int64): (r: Option<int64>)
    requires 0 <= a && 0 <= b
    ensures r == if a * b <= MAX_INT64 then Some(a * b) else None
  {
    if a == 0 || b == 0 then Some(0)
    else
      ProductBound(a, b);
      if a > MAX_INT64 / b then None else Some(a * b)
  }

  lemma ProductBound(a: int, b: int)
    requires 0 <= a && 0 < b
    ensures a > MAX_INT64 / b <==> a * b > MAX_INT64
    ensures 0 <= a * b
  {
    var q := MAX_INT64 / b;
    assert q * b <= MAX_INT64 < (q + 1) * b;
    if a > q {
      assert a * b >= (q + 1) * b by { MulMonotone(q + 1, a, b); }
    } else {
      assert a * b <= q * b by { MulMonotone(a, q, b); }
    }
    MulMonotone(0, a, b);
  }

  lemma MulMonotone(x: int, y: int, z: int)
    requires x <= y && 0 <= z
    ensures x * z <= y * z
  {
  }
}
