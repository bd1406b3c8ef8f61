/** Replies of Redis. */
module Redis {

  /** How a command ends: answered, answered with an error without being carried out, or no answer at all,
      in which case it may have been carried out. */
  datatype Reply = Fine | Refused | Lost(applied: bool)
}
