/** Shared vocabulary of the MRZ parser: the enumerations the core switches on,
    an extracted field, and the failure-compatible result type that stands for
    the exceptions the library throws. */
module MrzTypes {

  /** The semantic tag of one extracted field. */
  datatype FieldType =
    | DocumentType
    | CountryCode
    | DocumentNumber
    | DocumentNumberCheckDigit
    | OptionalData
    | OptionalData1
    | OptionalData2
    | OptionalDataCheckDigit
    | BirthDate
    | BirthDateCheckDigit
    | Sex
    | ExpiryDate
    | ExpiryDateCheckDigit
    | Nationality
    | Names
    | OverallCheckDigit

  /** The public document type a parsed code reports. */
  datatype CodeType = TD1 | TD2 | TD3 | MRVA | MRVB | UNKNOWN

  /** The layout the detector recognises; TD1Bangladesh is a construction
      variant only, its documents report CodeType.TD1. */
  datatype HandlingType = TD1 | TD1Bangladesh | TD2 | TD3 | MRVA | MRVB | UNKNOWN

  /** The concrete document class `Parse` instantiates. */
  datatype CodeClass =
    | TD1MrzCode
    | TD1BangladeshMrzCode
    | TD2MrzCode
    | TD3MrzCode
    | MRVAMrzCode
    | MRVBMrzCode
    | UnknownMrzCode

  /** One extracted (identifier, value) pair. */
  datatype Field = Field(fieldType: FieldType, value: string)

  /** The exceptions the library raises, as values. */
  datatype MrzError =
    | FieldNotSupported(code: CodeType, requested: FieldType)  // MrzCodeException from the indexer
    | LineMismatch(line: string)                                // MrzCodeException from a line grammar
    | SequenceEmpty                                             // First() on an empty sequence
    | IndexOutOfRange                                           // string index, range or ElementAt
    | KeyNotFound(ch: char)                                     // dictionary lookup of an unmapped character

  datatype Result<T> = Ok(value: T) | Err(error: MrzError) {
    predicate IsFailure() {
      Err?
    }

    function PropagateFailure<U>(): Result<U>
      requires Err?
    {
      Err(error)
    }

    function Extract(): T
      requires Ok?
    {
      value
    }
  }

  datatype Option<T> = None | Some(value: T)
}
