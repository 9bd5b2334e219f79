/** The exceptions that abort a run. Each one names the Python exception the
    job raises at that point; none of them is caught before the entry point. */
module Errors {

  datatype Fatal =
    | KeyError(key: string)         // a subscript on a missing JSON key or DataFrame column
    | TypeError(reason: string)     // an operation on a JSON null
    | IndexError(reason: string)    // `[0]` on an empty list
    | ParseError(field: string)     // `pd.to_datetime` on text that is not a timestamp
    | RuntimeError(message: string) // raised explicitly by the job
}
