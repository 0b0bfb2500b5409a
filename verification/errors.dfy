/** The error values of the modelled code. `MpdError` mirrors the crate's
    error enum; `IntErrorKind` is the reason carried by a failed integer
    parse of Rust's standard library, wrapped by `MpdError::ParseError`;
    `BuildError` is the error a generated builder's `build` returns when
    its validator refuses; `VariantNotFound` is the error of an enum parsed
    by its serialize strings. */
module Errors {

  datatype IntErrorKind = Empty | InvalidDigit | PosOverflow

  datatype MpdError =
    | InvalidData(message: string)
    | UnmatchedPattern
    | ParseError(kind: IntErrorKind)
    | ChronoParseError

  datatype BuildError = ValidationError(message: string)

  datatype StrumError = VariantNotFound
}
