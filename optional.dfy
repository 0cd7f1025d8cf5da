/** The absent-or-present value used for sensor readings that can fail and for dictionary lookups. */
module Optional {

  datatype Option<+T> = None | Some(value: T)

}
