/** Document references and timestamps shared by every collection. */
module Refs {
  /** A document id (MongoDB ObjectId), allocated by the store. */
  type Id = nat

  /** A timestamp in milliseconds, as `Date.now()` returns it. */
  type Time = int
}
