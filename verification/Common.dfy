/** Small shared vocabulary: optional values, outcomes, and floating point inputs. */
module Common {

  datatype Option<+T> = None | Some(value: T)

  datatype Result<+T, +E> = Ok(value: T) | Err(error: E)

  /** A floating point input as the source receives it: a number, or NaN / an infinity.
      Stored values are always finite, and are kept as `real`. */
  datatype Float = Finite(value: real) | NonFinite

  predicate AllFinite(values: seq<Float>) {
    forall i | 0 <= i < |values| :: values[i].Finite?
  }

  function Values(values: seq<Float>): (r: seq<real>)
    requires AllFinite(values)
    ensures |r| == |values|
  {
    seq(|values|, i requires 0 <= i < |values| => values[i].value)
  }

  const U64_MAX: nat := 0xFFFF_FFFF_FFFF_FFFF

  function MinReal(a: real, b: real): real { if a <= b then a else b }

  function MaxReal(a: real, b: real): real { if a <= b then b else a }

  function Min(a: int, b: int): int { if a <= b then a else b }
}
