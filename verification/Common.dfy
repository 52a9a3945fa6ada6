// Vocabulary shared by every component of the model.
module Common {

  datatype Option<+T> = None | Some(value: T)
  {
    predicate IsFailure() {
      None?
    }

    function PropagateFailure<U>(): Option<U>
      requires None?
    {
      None
    }

    function Extract(): T
      requires Some?
    {
      value
    }
  }

  datatype Result<+R, +E> = Ok(value: R) | Err(error: E)

  // A C++ double as the validators see it: a finite quantity, or a NaN or an
  // infinity that `std::isfinite` refuses. Rounding is not modelled.
  datatype Double = Finite(value: real) | NonFinite

  type uint8 = n: int | 0 <= n < 256

  const MAX_UINT16: nat := 0xFFFF
  const MAX_UINT64: nat := 0xFFFF_FFFF_FFFF_FFFF
  const MAX_INT64: nat := 0x7FFF_FFFF_FFFF_FFFF
  const NS_PER_SECOND: nat := 1_000_000_000
  const NS_PER_MILLISECOND: nat := 1_000_000

  function Abs(x: real): real {
    if x < 0.0 then -x else x
  }
}
