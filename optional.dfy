/** PHP's `null` next to an actual value: an absent argument or parameter array. */
module Optional {

  datatype Option<+T> = None | Some(value: T)
}
