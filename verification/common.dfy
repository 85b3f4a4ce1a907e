/** Shared vocabulary: an optional value and the untyped JSON value that the
    protocol passes around (serde_json::Value), kept opaque. */
module Common {

  datatype Option<+T> = None | Some(value: T)

  /** An untyped JSON value. Its contents never matter to this model: it is
      only stored, copied and compared. */
  type Value(==)
}
