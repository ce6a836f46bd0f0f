/** The optional value used wherever the lab computes something that may be
    unavailable: an endpoint that cannot be found, or a session attribute that
    no page has set yet. */
module Wrappers {

  datatype Option<+T> = None | Some(value: T)
}
