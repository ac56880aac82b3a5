/** The optional value used for query parameters, environment variables and
    the optional fields of a failed upstream call. */
module Wrappers {

  datatype Option<+T> = None | Some(value: T)
}
