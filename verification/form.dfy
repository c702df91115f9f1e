/**
 The transaction form as the fraud scorer reads it: three numeric fields that
 have already gone through JavaScript's `Number(...)`, and the four select
 fields as the `"0"`/`"1"` strings the form holds.
 */
module FraudForm {

  /** What `Number(...)` can yield for a form field. The string parsing itself
      is not modelled; only its possible outcomes are. */
  datatype Num = Finite(value: real) | PosInfinity | NegInfinity | NaN

  /** JavaScript's `x > bound` for a numeric field and a finite constant:
      every comparison with NaN is false. */
  predicate Exceeds(x: Num, bound: real)
  {
    match x
    case Finite(v) => v > bound
    case PosInfinity => true
    case NegInfinity => false
    case NaN => false
  }

  /** One submitted form. `repeatRetailer` is collected but never read by
      the scorer. */
  datatype Transaction = Transaction(
    distanceFromHome: Num,
    distanceFromLastTransaction: Num,
    ratioToMedianPurchasePrice: Num,
    onlineOrder: string,
    usedPinNumber: string,
    usedChip: string,
    repeatRetailer: string)

  /** The comparison is strict, NaN never exceeds anything, and +Infinity
      exceeds every bound. */
  lemma ExceedsIsStrict(bound: real)
    ensures !Exceeds(Finite(bound), bound)
    ensures !Exceeds(NaN, bound)
    ensures Exceeds(PosInfinity, bound)
  {
  }
}
