/** The key domain shared by every component: identifiers, associations, keys, outcomes.
    Times are readings of a local clock; 0 is the zero time. */
module Core {
  import opened Uuid

  datatype Option<+T> = None | Some(value: T)

  /** The reasons an operation refuses: the source's sentinel errors, an unsupported option, and a request to void
      all keys that does not ask for it. */
  datatype Error = Invalid | Duplicate | Unavailable | Unauthorized | Capacity | Unsupported | Unconfirmed | Journal

  datatype Result<+T> = Ok(value: T) | Err(error: Error) {
    predicate IsFailure() { Err? }

    function PropagateFailure<U>(): Result<U>
      requires Err?
    {
      Err(error)
    }

    function Extract(): T
      requires Ok?
    {
      value
    }
  }

  type Time = nat
  type Bytes = seq<Byte>
  type KeyID = string

  const KEY_BYTES: nat := 32
  const MAX_BATCH: nat := 128

  datatype Association = Association(master: string, slave: string) {
    predicate Valid() { ValidName(master) && ValidName(slave) && master != slave }
  }

  predicate Space(c: char) { c == ' ' || c == '\t' || c == '\n' || c == '\r' || c == '\U{0B}' || c == '\U{0C}' }

  /** Non-empty, at most 128 characters, no surrounding white space, no line break or NUL. */
  predicate ValidName(s: string) {
    && 0 < |s| <= 128
    && !Space(s[0]) && !Space(s[|s| - 1])
    && '\r' !in s && '\n' !in s && '\0' !in s
  }

  datatype Key = Key(id: KeyID, material: Bytes, pair: Association, source: string, created: Time, expires: Time) {
    predicate Valid(now: Time) {
      && ValidID(id)
      && |material| == KEY_BYTES
      && pair.Valid()
      && ValidName(source)
      && created != 0 && created <= now < expires && created < expires
    }
  }

  datatype Delivery = Delivery(id: KeyID, material: Bytes)

  /** A save of a journal succeeds, or fails leaving the old or the new state on disk. */
  datatype Fault = Saves | FailsOld | FailsNew

  predicate Distinct<T(==)>(s: seq<T>) {
    forall i, j :: 0 <= i < j < |s| ==> s[i] != s[j]
  }
}
