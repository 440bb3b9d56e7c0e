/** The follower record returned by the followers endpoint
    (GHFollowers/Models/Follower.swift). */
module Followers {

  /** A follower as the list screen holds it. Dafny's structural equality on this
      datatype compares both fields, which is what the synthesised `Hashable`
      conformance of the Swift struct does as well: two followers with the same
      login but different avatar URLs are different values. */
  datatype Follower = Follower(login: string, avatarUrl: string)
}
