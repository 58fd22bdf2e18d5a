/** The exceptions that can leave the spell-check index writer. */
module Errors {
  import opened Wrappers

  /** The Java exception kinds the writer throws or lets through.
      `StoreFailure` stands for anything the search-engine client, the future
      it returns or the response logger throws. */
  datatype Exception =
    | NumberFormatException(input: Option<string>)
    | NullPointerException
    | StoreFailure(detail: string)
    | SearchException(message: string, cause: Exception)
}
