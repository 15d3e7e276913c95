/** Optional values: a field of a JSON request body or of a Firestore document
    that may be missing. */
module Wrappers {

  datatype Option<+T> = None | Some(value: T)

  /** JavaScript truthiness of a string-valued field: `!x` is false exactly when
      the field is present and is not the empty string. */
  predicate Truthy(x: Option<string>): (b: bool)
    ensures !b <==> x == None || x == Some("")
  {
    x.Some? && x.value != ""
  }
}
