/** The conventional optional value, used for header lookups and response parts that may be absent. */
module Options {

  datatype Option<+T> = None | Some(value: T)
}
