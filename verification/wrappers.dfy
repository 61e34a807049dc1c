/** Failure-compatible Option and Result datatypes, used for Go's nil pointers and
    its `(value, error)` returns. */
module Wrappers {

  /** An optional value: Go's `*T` parameters, where `nil` means "not given". */
  datatype Option<+T> = None | Some(value: T)

  /** A value or an error, usable with `:-`. */
  datatype Result<+T, +E> = Success(value: T) | Failure(error: E) {

    predicate IsFailure() {
      Failure?
    }

    function PropagateFailure<U>(): Result<U, E>
      requires Failure?
    {
      Failure(error)
    }

    function Extract(): T
      requires Success?
    {
      value
    }
  }
}

/** The errors the encoder reports. Go reports them as plain `error` values; here each
    cause has its own constructor, carrying the offending input. */
module Errors {

  datatype Error =
    /** strconv.Atoi rejected the text of a Value or Multiply field (syntax or range). */
    | NotAnInteger(text: string)
    /** A Decimal field whose text has no '.'. */
    | MissingDecimalPoint(text: string)
    /** A field whose separator is none of the five known ones. */
    | UnsupportedSeparator(separator: string)
    /** A custom payment code that is not exactly three characters long. */
    | BadPaymentCodeLength(code: string)
    /** A payment whose terminator code does not end in 'T'. */
    | NotAPaymentMethod(code: string)
    /** A customer identifier whose length is not 16, 11 or 8. */
    | BadCustomerIdentifierLength(length: nat)
    /** A barcode whose length is not 13 or 8. */
    | BadBarcodeLength(length: nat)
    /** An invoice with fewer than 1 or more than 5 customer-detail commands. */
    | BadCustomerDetailsCount(count: nat)
    /** An invoice without product commands. */
    | NoProducts
    /** An invoice without payment commands. */
    | NoPayments
}
