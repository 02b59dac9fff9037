/** `to_percent_used` of lib/utils.py, on exact real numbers. */
module Utils {
  import opened Results
  import opened Values

  /** The share of `total` that is not `free`, in percent; `None` when either
      is `None` or `total` is not positive. Comparing or dividing a value that
      is not a number raises a `TypeError`. */
  function PercentUsed(total: Value, free: Value): (r: Result<Value>)
    // None exactly when an argument is None or the total is a number that is not positive ...
    ensures r == Ok(Null)
            <==> free == Null || total == Null || (Numeric(total).Some? && Numeric(total).value <= 0.0)
    // ... a TypeError exactly when the comparison or the division meets a non-number ...
    ensures r == Err(TypeError)
            <==> free != Null && total != Null
                 && (Numeric(total).None? || (Numeric(total).value > 0.0 && Numeric(free).None?))
    // ... and that is the only error it raises ...
    ensures r.Err? ==> r.error == TypeError
    // ... and otherwise the used share in percent.
    ensures Numeric(total).Some? && Numeric(total).value > 0.0 && Numeric(free).Some? ==>
              r == Ok(Float((1.0 - Numeric(free).value / Numeric(total).value) * 100.0))
    ensures r.Ok? && r.value != Null ==>
              && Numeric(total).Some? && Numeric(total).value > 0.0 && Numeric(free).Some?
              && r.value == Float((1.0 - Numeric(free).value / Numeric(total).value) * 100.0)
  {
    if free == Null || total == Null then Ok(Null)
    else match Numeric(total)
      case None => Err(TypeError)
      case Some(t) =>
        if t <= 0.0 then Ok(Null)
        else match Numeric(free)
          case None => Err(TypeError)
          case Some(f) => Ok(Float((1.0 - f / t) * 100.0))
  }

  /** `(1 - f / t) * 100` lies between 0 and 100 when `0 <= f <= t`. */
  lemma UsedShareBounds(f: real, t: real)
    requires 0.0 <= f <= t && t > 0.0
    ensures 0.0 <= (1.0 - f / t) * 100.0 <= 100.0
  {
  }

  /** With no more free than total, the percentage lies between 0 and 100. */
  lemma PercentUsedBounds(total: Value, free: Value)
    requires Numeric(total).Some? && Numeric(free).Some?
    requires 0.0 <= Numeric(free).value <= Numeric(total).value && Numeric(total).value > 0.0
    ensures PercentUsed(total, free).Ok? && PercentUsed(total, free).value.Float?
    ensures 0.0 <= PercentUsed(total, free).value.r <= 100.0
  {
    var t, f := Numeric(total).value, Numeric(free).value;
    UsedShareBounds(f, t);
  }
}
