/** Option and error-carrying result types shared by every part of the search package. */
module Results {

  datatype Option<+T> = None | Some(value: T)

  /** Every error the search package reports, with the value its message names. */
  datatype Error =
      // filter.go
    | NotSingleType                        // "filter should be of a single type"
    | EmptyFilter                          // "empty filter"
    | MissingSeparator(input: string)      // "filter must have a field and value with ':' in between"
    | UnknownField(name: string)           // "cannot find indexed field"
    | UnhandledType(code: int)             // "cannot handle filter of type %d" (filter.go and sort.go)
    | MalformedNumber(literal: string)     // rejected by the float parser
    | MalformedDate(literal: string)       // rejected by the timestamp parser
    | MalformedRange(suffix: string)       // "incorrectly formatted number query"
      // sort.go
    | UnrecognizedSortSuffix(suffix: string)
      // document.go
    | DuplicateField(name: string)
    | FieldOverlapsSubDocument(name: string)
    | SubDocumentOverlapsField(name: string)
    | DuplicateSubDocument(name: string)
      // field.go
    | UnrecognizedFieldType(code: int)

  /** A computation that either yields a value or fails with an Error. */
  datatype Result<+T> = Success(value: T) | Failure(error: Error)
}
