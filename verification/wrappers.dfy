/** An optional value, used for Swift optionals such as the search bar's text
    and for the fetch a transition may or may not issue. */
module Wrappers {

  datatype Option<+T> = None | Some(value: T)
}
