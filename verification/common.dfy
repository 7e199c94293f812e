/** Values shared by the client model and the server model. */
module Common {

  datatype Option<T> = None | Some(value: T) {
    function GetOr(default: T): T {
      match this
      case Some(v) => v
      case None => default
    }
  }

  /** Truthiness of an optional string. JavaScript (`null`, `undefined`, `''`)
      and Python (`None`, `""`) agree on it: only a present, non-empty string
      is truthy. */
  predicate Truthy(o: Option<string>) {
    o.Some? && o.value != ""
  }
}
