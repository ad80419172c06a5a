/** The usual optional value: a field the CR's status may leave unset, or an object that may not exist. */
module Options {
  datatype Option<+T> = None | Some(value: T)
}
