/** The life of one recipient's copy of a key, and batches set aside for a recipient. */
module Lifecycle {
  import opened Core

  datatype KeyState = Available | Reserved | Consumed | Invalid | Expired {
    predicate Terminal() { Consumed? || Invalid? || Expired? }
  }

  datatype Reservation = Reservation(token: KeyID, ids: seq<KeyID>)
}
