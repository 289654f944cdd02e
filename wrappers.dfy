/** The optional value used throughout the model: JavaScript's `null`/`undefined`
    results, a missing `companyData` object, and a date string that does not parse. */
module Wrappers {

  datatype Option<+T> = None | Some(value: T)
}
