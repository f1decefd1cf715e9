/** A value that may be absent: an unset environment variable, a JSON field
    the client left out, a lookup that found nothing. */
module Wrappers {

  datatype Option<+T> = None | Some(value: T)
}
