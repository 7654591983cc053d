/** The optional values of a device configuration: a dictionary key that is present or absent. */
module Options {

  datatype Option<+T> = None | Some(value: T)

  /** `dict.get(key, default)`: the stored value when the key is present, the default otherwise. */
  function GetOr<T>(field: Option<T>, default: T): (r: T)
    ensures field.Some? ==> r == field.value
    ensures field.None? ==> r == default
  {
    match field
    case Some(v) => v
    case None => default
  }
}
